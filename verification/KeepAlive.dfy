/**
 Who keeps what alive: endpoints hold their worker, workers hold their context, polling tasks hold a
 worker, and users hold any of them. A thing goes when its last holder does, and then lets go of what
 it held itself.
 */
module KeepAlive {
  import opened Wrappers
  import opened Runs

  type Ctx = nat
  type WorkerId = nat
  type EpId = nat

  /** Holders of an `Arc<Context>` and of an `Rc<Worker>`. The strong count is the number of holders. */
  datatype CtxHolder = CtxUser(k: nat) | OfWorker(w: WorkerId)
  datatype Holder = User(k: nat) | Poller(p: nat) | OfEndpoint(e: EpId)

  datatype Worker = Worker(ctx: Ctx, holders: set<Holder>)
  datatype Ep = Ep(worker: WorkerId, handles: nat, closed: bool)

  /**
   `contexts`, `workers` and `endpoints` are alive; the rest is history: who was created on what, and
   which endpoints were closed.
   */
  datatype State = State(
    contexts: map<Ctx, set<CtxHolder>>,
    workers: map<WorkerId, Worker>,
    endpoints: map<EpId, Ep>,
    ctxEver: set<Ctx>,
    workerEver: map<WorkerId, Ctx>,
    epEver: map<EpId, WorkerId>,
    closedEver: set<EpId>)

  datatype Step =
    | NewContext(c: Ctx, k: nat)
    | CloneContext(c: Ctx, k: nat, copy: nat)
    | DropContext(c: Ctx, k: nat)
    | NewWorker(w: WorkerId, c: Ctx, k: nat, user: nat)
    | CloneWorker(w: WorkerId, from: Holder, copy: nat)
    | DropWorker(w: WorkerId, k: nat)
    | SpawnPoller(w: WorkerId, k: nat, p: nat)
    | PollerTurn(w: WorkerId, p: nat)
    | KillPoller(w: WorkerId, p: nat)
    | NewEndpoint(e: EpId, w: WorkerId, k: nat)
    | CloneEndpoint(e: EpId)
    | CloseEndpoint(e: EpId)
    | DropEndpoint(e: EpId)

  function Init(): State {
    State(map[], map[], map[], {}, map[], map[], {})
  }

  // ---- Letting go ----

  /** A holder of a context goes; the last one takes the context with it. */
  function ReleaseContext(s: State, c: Ctx, h: CtxHolder): State
    requires c in s.contexts
  {
    var rest := s.contexts[c] - {h};
    if rest == {} then s.(contexts := s.contexts - {c}) else s.(contexts := s.contexts[c := rest])
  }

  /** A holder of a worker goes; the last one takes the worker with it, which then releases its context. */
  function ReleaseWorker(s: State, w: WorkerId, h: Holder): State
    requires w in s.workers
  {
    var rest := s.workers[w].holders - {h};
    if rest != {} then
      s.(workers := s.workers[w := s.workers[w].(holders := rest)])
    else
      var gone := s.(workers := s.workers - {w});
      if s.workers[w].ctx in s.contexts then ReleaseContext(gone, s.workers[w].ctx, OfWorker(w)) else gone
  }

  /** `Endpoint::drop`: it closes the endpoint, and the last one lets go of the worker. */
  function ReleaseEndpoint(s: State, e: EpId): State
    requires e in s.endpoints
  {
    var ep := s.endpoints[e];
    var closed := s.(closedEver := s.closedEver + {e});
    if ep.handles > 1 then
      closed.(endpoints := s.endpoints[e := ep.(handles := ep.handles - 1, closed := true)])
    else
      var gone := closed.(endpoints := s.endpoints - {e});
      if ep.worker in s.workers then ReleaseWorker(gone, ep.worker, OfEndpoint(e)) else gone
  }

  function SetHolders(s: State, w: WorkerId, holders: set<Holder>): State
    requires w in s.workers
  {
    s.(workers := s.workers[w := s.workers[w].(holders := holders)])
  }

  // ---- Steps ----

  predicate HoldsCtx(s: State, c: Ctx, h: CtxHolder) {
    c in s.contexts && h in s.contexts[c]
  }

  predicate Holds(s: State, w: WorkerId, h: Holder) {
    w in s.workers && h in s.workers[w].holders
  }

  predicate Enabled(s: State, step: Step) {
    match step
    case NewContext(c, _) => c !in s.ctxEver
    case CloneContext(c, k, copy) => HoldsCtx(s, c, CtxUser(k)) && !HoldsCtx(s, c, CtxUser(copy))
    case DropContext(c, k) => HoldsCtx(s, c, CtxUser(k))
    case NewWorker(w, c, k, _) => HoldsCtx(s, c, CtxUser(k)) && w !in s.workerEver
    case CloneWorker(w, from, copy) => Holds(s, w, from) && !from.Poller? && !Holds(s, w, User(copy))
    case DropWorker(w, k) => Holds(s, w, User(k))
    case SpawnPoller(w, k, p) => Holds(s, w, User(k)) && !Holds(s, w, Poller(p))
    case PollerTurn(w, p) => Holds(s, w, Poller(p))
    case KillPoller(w, p) => Holds(s, w, Poller(p))
    case NewEndpoint(e, w, k) => Holds(s, w, User(k)) && e !in s.epEver
    case CloneEndpoint(e) => e in s.endpoints
    case CloseEndpoint(e) => e in s.endpoints
    case DropEndpoint(e) => e in s.endpoints
  }

  /** `Rc::strong_count(&self) > 1`, or else the loop ends and its reference goes. */
  function Turn(s: State, w: WorkerId, p: nat): State
    requires w in s.workers
  {
    if |s.workers[w].holders| > 1 then s else ReleaseWorker(s, w, Poller(p))
  }

  function AddWorker(s: State, w: WorkerId, c: Ctx, user: nat): State
    requires c in s.contexts
  {
    s.(workers := s.workers[w := Worker(c, {User(user)})],
       contexts := s.contexts[c := s.contexts[c] + {OfWorker(w)}],
       workerEver := s.workerEver[w := c])
  }

  function AddEndpoint(s: State, e: EpId, w: WorkerId): State
    requires w in s.workers
  {
    SetHolders(s, w, s.workers[w].holders + {OfEndpoint(e)}).(
      endpoints := s.endpoints[e := Ep(w, 1, false)],
      epEver := s.epEver[e := w])
  }

  function Next(s: State, step: Step): Option<State> {
    if !Enabled(s, step) then None else
      Some(match step
           case NewContext(c, k) =>
             s.(contexts := s.contexts[c := {CtxUser(k)}], ctxEver := s.ctxEver + {c})
           case CloneContext(c, _, copy) =>
             s.(contexts := s.contexts[c := s.contexts[c] + {CtxUser(copy)}])
           case DropContext(c, k) => ReleaseContext(s, c, CtxUser(k))
           case NewWorker(w, c, _, user) => AddWorker(s, w, c, user)
           case CloneWorker(w, _, copy) => SetHolders(s, w, s.workers[w].holders + {User(copy)})
           case DropWorker(w, k) => ReleaseWorker(s, w, User(k))
           case SpawnPoller(w, k, p) => SetHolders(s, w, s.workers[w].holders - {User(k)} + {Poller(p)})
           case PollerTurn(w, p) => Turn(s, w, p)
           case KillPoller(w, p) => ReleaseWorker(s, w, Poller(p))
           case NewEndpoint(e, w, _) => AddEndpoint(s, e, w)
           case CloneEndpoint(e) =>
             s.(endpoints := s.endpoints[e := s.endpoints[e].(handles := s.endpoints[e].handles + 1)])
           case CloseEndpoint(e) =>
             s.(endpoints := s.endpoints[e := s.endpoints[e].(closed := true)], closedEver := s.closedEver + {e})
           case DropEndpoint(e) => ReleaseEndpoint(s, e))
  }

  // ---- What holds after every step ----

  ghost predicate CtxOk(s: State, c: Ctx)
    requires c in s.contexts
  {
    && c in s.ctxEver
    && s.contexts[c] != {}
    && forall w :: OfWorker(w) in s.contexts[c] ==> w in s.workers && s.workers[w].ctx == c
  }

  /** The exempt holders need not be alive. */
  ghost predicate WorkerOk(s: State, w: WorkerId, exempt: set<Holder>)
    requires w in s.workers
  {
    var worker := s.workers[w];
    && worker.holders != {}
    && HoldsCtx(s, worker.ctx, OfWorker(w))
    && w in s.workerEver && s.workerEver[w] == worker.ctx
    && forall e :: OfEndpoint(e) in worker.holders && OfEndpoint(e) !in exempt ==>
         e in s.endpoints && s.endpoints[e].worker == w
  }

  ghost predicate EpOk(s: State, e: EpId)
    requires e in s.endpoints
  {
    var ep := s.endpoints[e];
    && ep.handles > 0
    && (ep.closed <==> e in s.closedEver)
    && Holds(s, ep.worker, OfEndpoint(e))
    && e in s.epEver && s.epEver[e] == ep.worker
  }

  /** Holders and held agree; an endpoint is alive or was closed. */
  ghost predicate InvBut(s: State, exempt: set<Holder>) {
    && (forall c :: c in s.contexts ==> CtxOk(s, c))
    && (forall w :: w in s.workers ==> WorkerOk(s, w, exempt))
    && (forall e :: e in s.endpoints ==> EpOk(s, e))
    && (forall w :: w in s.workerEver ==> s.workerEver[w] in s.ctxEver)
    && (forall e :: e in s.epEver ==> s.epEver[e] in s.workerEver && (e in s.endpoints || e in s.closedEver))
    && (forall e :: e in s.closedEver ==> e in s.epEver)
  }

  ghost predicate Inv(s: State) {
    InvBut(s, {})
  }

  lemma ReleaseContextKeepsInv(s: State, c: Ctx, k: nat)
    requires Inv(s) && HoldsCtx(s, c, CtxUser(k))
    ensures Inv(ReleaseContext(s, c, CtxUser(k)))
  {
    var t := ReleaseContext(s, c, CtxUser(k));
    forall d | d in t.contexts ensures CtxOk(t, d) {
      assert CtxOk(s, d);
    }
    forall w | w in t.workers ensures WorkerOk(t, w, {}) {
      assert WorkerOk(s, w, {});
      assert s.workers[w].ctx == c ==> OfWorker(w) in s.contexts[c] - {CtxUser(k)};
    }
    forall e | e in t.endpoints ensures EpOk(t, e) {
      assert EpOk(s, e);
    }
  }

  /** A worker that goes leaves its context to the other workers there. */
  lemma OtherWorkersKeepTheirContext(s: State, w: WorkerId, h: Holder, v: WorkerId)
    requires w in s.workers && v in s.workers && v != w && WorkerOk(s, v, {h}) && WorkerOk(s, w, {h})
    requires h.OfEndpoint? ==> !Holds(s, v, h)
    ensures WorkerOk(
              ReleaseContext(s.(workers := s.workers - {w}), s.workers[w].ctx, OfWorker(w)), v, {})
  {
    var c := s.workers[w].ctx;
    assert s.workers[v].ctx == c ==> OfWorker(v) in s.contexts[c] - {OfWorker(w)};
  }

  /** The worker lets go of its context when its last holder has gone. */
  lemma DestroyWorkerKeepsInv(s: State, w: WorkerId, h: Holder)
    requires InvBut(s, {h}) && Holds(s, w, h) && s.workers[w].holders == {h}
    requires h.OfEndpoint? ==> h.e !in s.endpoints
    requires forall v :: Holds(s, v, h) && h.OfEndpoint? ==> v == w
    ensures Inv(ReleaseContext(s.(workers := s.workers - {w}), s.workers[w].ctx, OfWorker(w)))
  {
    var c := s.workers[w].ctx;
    var t := ReleaseContext(s.(workers := s.workers - {w}), c, OfWorker(w));
    forall d | d in t.contexts ensures CtxOk(t, d) {
      assert CtxOk(s, d);
    }
    forall v | v in t.workers ensures WorkerOk(t, v, {}) {
      OtherWorkersKeepTheirContext(s, w, h, v);
    }
    forall e | e in t.endpoints ensures EpOk(t, e) {
      assert EpOk(s, e);
    }
  }

  /** A holder lets go that is no endpoint, or is the endpoint whose record has gone. */
  lemma ReleaseWorkerKeepsInv(s: State, w: WorkerId, h: Holder)
    requires InvBut(s, {h}) && Holds(s, w, h)
    requires h.OfEndpoint? ==> h.e !in s.endpoints
    requires forall v :: Holds(s, v, h) && h.OfEndpoint? ==> v == w
    ensures Inv(ReleaseWorker(s, w, h))
  {
    var t := ReleaseWorker(s, w, h);
    var rest := s.workers[w].holders - {h};
    assert WorkerOk(s, w, {h});
    if rest == {} {
      assert s.workers[w].holders == {h};
      DestroyWorkerKeepsInv(s, w, h);
    } else {
      forall d | d in t.contexts ensures CtxOk(t, d) {
        assert CtxOk(s, d);
      }
      forall v | v in t.workers ensures WorkerOk(t, v, {}) {
        assert WorkerOk(s, v, {h});
        assert h.OfEndpoint? && v != w ==> !Holds(s, v, h);
      }
      forall e | e in t.endpoints ensures EpOk(t, e) {
        assert EpOk(s, e);
      }
    }
  }

  /** An endpoint gets other handles or is closed; its worker stays. */
  predicate Updates(s: State, t: State, e: EpId)
    requires e in s.endpoints
  {
    && t == s.(endpoints := t.endpoints, closedEver := t.closedEver)
    && e in t.endpoints && t.endpoints == s.endpoints[e := t.endpoints[e]]
    && t.endpoints[e].worker == s.endpoints[e].worker && t.endpoints[e].handles > 0
    && t.closedEver - {e} == s.closedEver - {e} && s.closedEver <= t.closedEver
    && (t.endpoints[e].closed <==> e in t.closedEver)
  }

  lemma UpdateKeepsEndpoint(s: State, t: State, e: EpId, x: EpId)
    requires e in s.endpoints && Updates(s, t, e) && EpOk(s, e) && x in t.endpoints && EpOk(s, x)
    ensures EpOk(t, x)
  {
    assert x != e ==> (x in t.closedEver <==> x in t.closedEver - {e});
  }

  lemma SetEndpointKeepsInv(s: State, t: State, e: EpId)
    requires Inv(s) && e in s.endpoints && Updates(s, t, e)
    ensures Inv(t)
  {
    assert EpOk(s, e);
    forall d | d in t.contexts ensures CtxOk(t, d) {
      assert CtxOk(s, d);
    }
    forall w | w in t.workers ensures WorkerOk(t, w, {}) {
      assert WorkerOk(s, w, {});
    }
    forall x | x in t.endpoints ensures EpOk(t, x) {
      UpdateKeepsEndpoint(s, t, e, x);
    }
    assert forall x :: x in t.closedEver ==> x == e || x in t.closedEver - {e};
  }

  /** The last of an endpoint goes: its worker is held by nobody else under that name. */
  lemma LastEndpointGoes(s: State, e: EpId)
    requires Inv(s) && e in s.endpoints && s.endpoints[e].handles == 1
    ensures Inv(ReleaseEndpoint(s, e))
  {
    var ep := s.endpoints[e];
    var h := OfEndpoint(e);
    assert EpOk(s, e);
    var t := s.(closedEver := s.closedEver + {e}, endpoints := s.endpoints - {e});
    forall d | d in t.contexts ensures CtxOk(t, d) {
      assert CtxOk(s, d);
    }
    forall v | v in t.workers
      ensures WorkerOk(t, v, {h})
      ensures Holds(s, v, h) ==> v == ep.worker
    {
      assert WorkerOk(s, v, {});
    }
    forall x | x in t.endpoints ensures EpOk(t, x) {
      assert EpOk(s, x);
    }
    ReleaseWorkerKeepsInv(t, ep.worker, h);
  }

  lemma ReleaseEndpointKeepsInv(s: State, e: EpId)
    requires Inv(s) && e in s.endpoints
    ensures Inv(ReleaseEndpoint(s, e))
  {
    assert EpOk(s, e);
    if s.endpoints[e].handles > 1 {
      SetEndpointKeepsInv(s, ReleaseEndpoint(s, e), e);
    } else {
      LastEndpointGoes(s, e);
    }
  }

  lemma DropHolderKeepsInv(s: State, w: WorkerId, h: Holder)
    requires Inv(s) && Holds(s, w, h) && !h.OfEndpoint?
    ensures Inv(ReleaseWorker(s, w, h))
  {
    forall v | v in s.workers ensures WorkerOk(s, v, {h}) {
      assert WorkerOk(s, v, {});
    }
    ReleaseWorkerKeepsInv(s, w, h);
  }

  lemma AddWorkerKeepsInv(s: State, w: WorkerId, c: Ctx, user: nat)
    requires Inv(s) && c in s.contexts && w !in s.workerEver
    ensures Inv(AddWorker(s, w, c, user))
  {
    var t := AddWorker(s, w, c, user);
    assert CtxOk(s, c);
    assert w in s.workers ==> WorkerOk(s, w, {});
    forall d | d in t.contexts ensures CtxOk(t, d) {
      assert CtxOk(s, d);
    }
    forall v | v in t.workers ensures WorkerOk(t, v, {}) {
      assert v != w ==> WorkerOk(s, v, {});
    }
    forall e | e in t.endpoints ensures EpOk(t, e) {
      assert EpOk(s, e);
    }
  }

  lemma AddEndpointKeepsInv(s: State, e: EpId, w: WorkerId)
    requires Inv(s) && w in s.workers && e !in s.epEver
    ensures Inv(AddEndpoint(s, e, w))
  {
    var t := AddEndpoint(s, e, w);
    assert e in s.endpoints ==> EpOk(s, e);
    forall d | d in t.contexts ensures CtxOk(t, d) {
      assert CtxOk(s, d);
    }
    forall v | v in t.workers ensures WorkerOk(t, v, {}) {
      assert WorkerOk(s, v, {});
    }
    forall x | x in t.endpoints ensures EpOk(t, x) {
      assert x != e ==> EpOk(s, x);
    }
  }

  /** Users and polling loops come and go without touching anything else. */
  lemma SetHoldersKeepsInv(s: State, w: WorkerId, holders: set<Holder>)
    requires Inv(s) && w in s.workers && holders != {}
    requires forall e :: OfEndpoint(e) in holders <==> OfEndpoint(e) in s.workers[w].holders
    ensures Inv(SetHolders(s, w, holders))
  {
    var t := SetHolders(s, w, holders);
    forall d | d in t.contexts ensures CtxOk(t, d) {
      assert CtxOk(s, d);
    }
    forall v | v in t.workers ensures WorkerOk(t, v, {}) {
      assert WorkerOk(s, v, {});
    }
    forall e | e in t.endpoints ensures EpOk(t, e) {
      assert EpOk(s, e);
    }
  }

  lemma SetContextKeepsInv(s: State, c: Ctx, holders: set<CtxHolder>)
    requires Inv(s) && holders != {}
    requires c in s.contexts || c !in s.ctxEver
    requires forall w :: OfWorker(w) in holders <==> c in s.contexts && OfWorker(w) in s.contexts[c]
    ensures Inv(s.(contexts := s.contexts[c := holders], ctxEver := s.ctxEver + {c}))
  {
    var t := s.(contexts := s.contexts[c := holders], ctxEver := s.ctxEver + {c});
    forall d | d in t.contexts ensures CtxOk(t, d) {
      assert d in s.contexts ==> CtxOk(s, d);
    }
    forall w | w in t.workers ensures WorkerOk(t, w, {}) {
      assert WorkerOk(s, w, {});
    }
    forall e | e in t.endpoints ensures EpOk(t, e) {
      assert EpOk(s, e);
    }
  }

  lemma ContextStepKeepsInv(s: State, step: Step)
    requires Inv(s) && Enabled(s, step) && (step.NewContext? || step.CloneContext? || step.DropContext?)
    ensures Inv(Next(s, step).value)
  {
    var c, k := step.c, step.k;
    assert c in s.contexts ==> CtxOk(s, c);
    if step.NewContext? {
      SetContextKeepsInv(s, c, {CtxUser(k)});
    } else if step.CloneContext? {
      SetContextKeepsInv(s, c, s.contexts[c] + {CtxUser(step.copy)});
      assert s.ctxEver + {c} == s.ctxEver;
    } else {
      ReleaseContextKeepsInv(s, c, k);
    }
  }

  lemma EndpointStepKeepsInv(s: State, step: Step)
    requires Inv(s) && Enabled(s, step) && (step.CloneEndpoint? || step.CloseEndpoint?)
    ensures Inv(Next(s, step).value)
  {
    assert EpOk(s, step.e);
    SetEndpointKeepsInv(s, Next(s, step).value, step.e);
  }

  lemma StepKeepsInv(s: State, step: Step)
    requires Inv(s) && Enabled(s, step)
    ensures Inv(Next(s, step).value)
  {
    match step
    case NewWorker(w, c, _, user) => AddWorkerKeepsInv(s, w, c, user);
    case CloneWorker(w, _, copy) => SetHoldersKeepsInv(s, w, s.workers[w].holders + {User(copy)});
    case DropWorker(w, k) => DropHolderKeepsInv(s, w, User(k));
    case SpawnPoller(w, k, p) =>
      assert Poller(p) in s.workers[w].holders - {User(k)} + {Poller(p)};
      SetHoldersKeepsInv(s, w, s.workers[w].holders - {User(k)} + {Poller(p)});
    case PollerTurn(w, p) => DropHolderKeepsInv(s, w, Poller(p));
    case KillPoller(w, p) => DropHolderKeepsInv(s, w, Poller(p));
    case NewEndpoint(e, w, _) => AddEndpointKeepsInv(s, e, w);
    case DropEndpoint(e) => ReleaseEndpointKeepsInv(s, e);
    case NewContext(_, _) => ContextStepKeepsInv(s, step);
    case CloneContext(_, _, _) => ContextStepKeepsInv(s, step);
    case DropContext(_, _) => ContextStepKeepsInv(s, step);
    case CloneEndpoint(_) => EndpointStepKeepsInv(s, step);
    case CloseEndpoint(_) => EndpointStepKeepsInv(s, step);
  }

  lemma {:induction false} RunKeepsInv(steps: seq<Step>)
    requires Run(Next, Init(), steps).Some?
    ensures Inv(Run(Next, Init(), steps).value)
  {
    forall t, l | Inv(t) && Next(t, l).Some? ensures Inv(Next(t, l).value) {
      StepKeepsInv(t, l);
    }
    Preserved(Next, t => Inv(t), Init(), steps);
  }

  // ---- Main results ----

  /**
   After any sequence of creations, clones, drops and turns: a worker that was destroyed has no endpoint
   left, and all that were ever created on it were closed; a context that was cleaned up has no worker
   left, so all its workers were destroyed first.
   */
  lemma {:induction false} DestructionOrder(steps: seq<Step>)
    requires Run(Next, Init(), steps).Some?
    ensures var s := Run(Next, Init(), steps).value;
            && (forall e :: e in s.epEver && s.epEver[e] !in s.workers ==> e !in s.endpoints && e in s.closedEver)
            && (forall w :: w in s.workerEver && s.workerEver[w] !in s.contexts ==> w !in s.workers)
  {
    RunKeepsInv(steps);
  }

  /** A polling loop ends exactly when it holds the last reference, and then the worker goes with it. */
  lemma PollingEndsIffLast(s: State, w: WorkerId, p: nat)
    requires Inv(s) && Holds(s, w, Poller(p))
    ensures !Holds(Turn(s, w, p), w, Poller(p)) <==> s.workers[w].holders == {Poller(p)}
    ensures s.workers[w].holders == {Poller(p)} ==> w !in Turn(s, w, p).workers
    ensures s.workers[w].holders != {Poller(p)} ==> Turn(s, w, p) == s
  {
    if |s.workers[w].holders| <= 1 {
      assert |s.workers[w].holders - {Poller(p)}| == 0;
      assert s.workers[w].holders == {Poller(p)};
    }
  }

  /** The step that takes a holder off a worker. A polling loop's turn does so only as the last holder. */
  predicate LetsGo(s: State, step: Step, w: WorkerId, h: Holder) {
    match step
    case DropWorker(v, k) => v == w && h == User(k)
    case SpawnPoller(v, k, _) => v == w && h == User(k)
    case PollerTurn(v, p) => v == w && h == Poller(p) && w in s.workers && s.workers[w].holders == {h}
    case KillPoller(v, p) => v == w && h == Poller(p)
    case DropEndpoint(e) => h == OfEndpoint(e) && e in s.endpoints && s.endpoints[e].handles == 1
    case _ => false
  }

  lemma ReleaseSparesOthers(s: State, v: WorkerId, g: Holder, w: WorkerId, h: Holder)
    requires v in s.workers && Holds(s, w, h)
    ensures Holds(ReleaseWorker(s, v, g), w, h) <==> v != w || g != h
  {
    if v == w && g != h {
      assert h in s.workers[v].holders - {g};
    }
  }

  lemma EndpointsSpareOtherHolders(s: State, e: EpId, w: WorkerId, h: Holder)
    requires Inv(s) && e in s.endpoints && Holds(s, w, h)
    ensures Holds(ReleaseEndpoint(s, e), w, h) <==> !LetsGo(s, DropEndpoint(e), w, h)
  {
    var ep := s.endpoints[e];
    assert EpOk(s, e) && WorkerOk(s, w, {});
    var gone := s.(closedEver := s.closedEver + {e}, endpoints := s.endpoints - {e});
    ReleaseSparesOthers(gone, ep.worker, OfEndpoint(e), w, h);
  }

  lemma TurnsSpareOtherHolders(s: State, v: WorkerId, p: nat, w: WorkerId, h: Holder)
    requires Inv(s) && Holds(s, v, Poller(p)) && Holds(s, w, h)
    ensures Holds(Turn(s, v, p), w, h) <==> !LetsGo(s, PollerTurn(v, p), w, h)
  {
    PollingEndsIffLast(s, v, p);
    ReleaseSparesOthers(s, v, Poller(p), w, h);
  }

  lemma OthersSpareHolders(s: State, step: Step, w: WorkerId, h: Holder)
    requires Enabled(s, step) && Holds(s, w, h)
    requires step.NewWorker? ==> step.w != w
    requires !step.DropWorker? && !step.KillPoller? && !step.PollerTurn? && !step.DropEndpoint?
    ensures Holds(Next(s, step).value, w, h) <==> !LetsGo(s, step, w, h)
  {
  }

  /** A holder stays until a step takes it off, and with it the worker. */
  lemma HoldersStayUntilTheyLetGo(s: State, step: Step, w: WorkerId, h: Holder)
    requires Inv(s) && Enabled(s, step) && Holds(s, w, h)
    ensures Holds(Next(s, step).value, w, h) <==> !LetsGo(s, step, w, h)
  {
    assert WorkerOk(s, w, {});
    if step.DropWorker? {
      ReleaseSparesOthers(s, step.w, User(step.k), w, h);
    } else if step.KillPoller? {
      ReleaseSparesOthers(s, step.w, Poller(step.p), w, h);
    } else if step.PollerTurn? {
      TurnsSpareOtherHolders(s, step.w, step.p, w, h);
    } else if step.DropEndpoint? {
      EndpointsSpareOtherHolders(s, step.e, w, h);
    } else {
      OthersSpareHolders(s, step, w, h);
    }
  }

  lemma ReleaseEndsOne(s: State, v: WorkerId, g: Holder, w: WorkerId)
    requires Holds(s, v, g) && w in s.workers
    ensures w !in ReleaseWorker(s, v, g).workers <==> v == w && s.workers[w].holders == {g}
  {
    assert s.workers[v].holders - {g} == {} <==> s.workers[v].holders == {g};
  }

  /** The only holder of the worker lets go, and is not replaced by a polling loop. */
  predicate LastLetsGo(s: State, step: Step, w: WorkerId, h: Holder) {
    w in s.workers && s.workers[w].holders == {h} && LetsGo(s, step, w, h) && !step.SpawnPoller?
  }

  lemma WorkersStayWhenNobodyLetsGo(s: State, step: Step, w: WorkerId)
    requires Enabled(s, step) && w in s.workers
    requires !step.DropWorker? && !step.KillPoller? && !step.PollerTurn? && !step.DropEndpoint?
    ensures w in Next(s, step).value.workers
  {
  }

  lemma WhenAnEndpointEndsAWorker(s: State, e: EpId, w: WorkerId)
    requires Inv(s) && e in s.endpoints && w in s.workers
    ensures w !in ReleaseEndpoint(s, e).workers <==> LastLetsGo(s, DropEndpoint(e), w, OfEndpoint(e))
  {
    var ep := s.endpoints[e];
    assert EpOk(s, e) && WorkerOk(s, w, {});
    var gone := s.(closedEver := s.closedEver + {e}, endpoints := s.endpoints - {e});
    ReleaseEndsOne(gone, ep.worker, OfEndpoint(e), w);
  }

  /** A worker goes exactly when its only holder lets go. */
  lemma WhenAWorkerGoes(s: State, step: Step, w: WorkerId)
    requires Inv(s) && Enabled(s, step) && w in s.workers
    ensures w !in Next(s, step).value.workers <==> exists h :: LastLetsGo(s, step, w, h)
  {
    match step
    case DropWorker(v, k) =>
      ReleaseEndsOne(s, v, User(k), w);
      assert w !in Next(s, step).value.workers ==> LastLetsGo(s, step, w, User(k));
    case KillPoller(v, p) =>
      ReleaseEndsOne(s, v, Poller(p), w);
      assert w !in Next(s, step).value.workers ==> LastLetsGo(s, step, w, Poller(p));
    case PollerTurn(v, p) =>
      PollingEndsIffLast(s, v, p);
      ReleaseEndsOne(s, v, Poller(p), w);
      assert w !in Next(s, step).value.workers ==> LastLetsGo(s, step, w, Poller(p));
    case DropEndpoint(e) =>
      WhenAnEndpointEndsAWorker(s, e, w);
    case _ =>
      WorkersStayWhenNobodyLetsGo(s, step, w);
  }

  // ---- Who holds what, step by step ----

  /** The step that makes a holder of a worker. */
  predicate Joins(step: Step, w: WorkerId, h: Holder) {
    match step
    case NewWorker(v, _, _, user) => v == w && h == User(user)
    case CloneWorker(v, _, copy) => v == w && h == User(copy)
    case SpawnPoller(v, _, p) => v == w && h == Poller(p)
    case NewEndpoint(e, v, _) => v == w && h == OfEndpoint(e)
    case _ => false
  }

  lemma ReleaseAddsNobody(s: State, v: WorkerId, g: Holder, w: WorkerId, h: Holder)
    requires v in s.workers
    ensures Holds(ReleaseWorker(s, v, g), w, h) ==> Holds(s, w, h)
  {
  }

  lemma EndpointsAddNobody(s: State, e: EpId, w: WorkerId, h: Holder)
    requires Inv(s) && e in s.endpoints
    ensures Holds(ReleaseEndpoint(s, e), w, h) ==> Holds(s, w, h)
  {
    assert EpOk(s, e);
    var gone := s.(closedEver := s.closedEver + {e}, endpoints := s.endpoints - {e});
    ReleaseAddsNobody(gone, s.endpoints[e].worker, OfEndpoint(e), w, h);
  }

  lemma OnlyTheseJoin(s: State, step: Step, w: WorkerId, h: Holder)
    requires Inv(s) && Enabled(s, step) && !Holds(s, w, h)
    ensures Holds(Next(s, step).value, w, h) <==> Joins(step, w, h)
  {
    match step
    case DropWorker(v, k) => ReleaseAddsNobody(s, v, User(k), w, h);
    case PollerTurn(v, p) => ReleaseAddsNobody(s, v, Poller(p), w, h);
    case KillPoller(v, p) => ReleaseAddsNobody(s, v, Poller(p), w, h);
    case DropEndpoint(e) => EndpointsAddNobody(s, e, w, h);
    case _ =>
  }

  /** The holders of a worker after a step are those who join, and those who held it and do not let go. */
  lemma HoldersChangeOnlySo(s: State, step: Step, w: WorkerId, h: Holder)
    requires Inv(s) && Enabled(s, step)
    ensures Holds(Next(s, step).value, w, h) <==> Joins(step, w, h) || (Holds(s, w, h) && !LetsGo(s, step, w, h))
  {
    if Holds(s, w, h) {
      HoldersStayUntilTheyLetGo(s, step, w, h);
    } else {
      OnlyTheseJoin(s, step, w, h);
    }
  }

  /** The step takes a holder off a context: a user's reference is dropped, or a worker goes. */
  ghost predicate LetsGoOfContext(s: State, step: Step, c: Ctx, h: CtxHolder) {
    match h
    case CtxUser(k) => step == DropContext(c, k)
    case OfWorker(w) => w in s.workers && s.workers[w].ctx == c && exists g :: LastLetsGo(s, step, w, g)
  }

  predicate JoinsContext(step: Step, c: Ctx, h: CtxHolder) {
    match step
    case NewContext(d, k) => d == c && h == CtxUser(k)
    case CloneContext(d, _, copy) => d == c && h == CtxUser(copy)
    case NewWorker(w, d, _, _) => d == c && h == OfWorker(w)
    case _ => false
  }
  lemma ReleasedContextLoses(s: State, c: Ctx, g: CtxHolder, d: Ctx, h: CtxHolder)
    requires c in s.contexts
    ensures HoldsCtx(ReleaseContext(s, c, g), d, h) <==> HoldsCtx(s, d, h) && !(d == c && h == g)
  {
    if c == d && HoldsCtx(s, c, h) && h != g {
      assert h in s.contexts[c] - {g};
    }
  }

  /** A worker lets go of its context exactly when it goes. */
  lemma ReleasedWorkerLetsGo(s: State, v: WorkerId, g: Holder, c: Ctx, h: CtxHolder)
    requires Holds(s, v, g) && s.workers[v].ctx in s.contexts
    ensures var goes := s.workers[v].holders == {g};
            HoldsCtx(ReleaseWorker(s, v, g), c, h) <==>
            HoldsCtx(s, c, h) && !(goes && c == s.workers[v].ctx && h == OfWorker(v))
  {
    assert s.workers[v].holders - {g} == {} <==> s.workers[v].holders == {g};
    var gone := s.(workers := s.workers - {v});
    ReleasedContextLoses(gone, s.workers[v].ctx, OfWorker(v), c, h);
  }

  /** `WhenAWorkerGoes`, for the one worker whose holder lets go. */
  lemma GoesWithItsHolder(s: State, step: Step, v: WorkerId, g: Holder, w: WorkerId)
    requires LetsGo(s, step, v, g) && Holds(s, v, g) && !step.SpawnPoller?
    requires forall u, h :: LetsGo(s, step, u, h) && Holds(s, u, h) ==> u == v && h == g
    ensures (exists h :: LastLetsGo(s, step, w, h)) <==> w == v && s.workers[v].holders == {g}
  {
    if w == v && s.workers[v].holders == {g} {
      assert LastLetsGo(s, step, w, g);
    }
    if h :| LastLetsGo(s, step, w, h) {
      assert Holds(s, w, h);
    }
  }

  ghost predicate ContextHoldersFollow(s: State, step: Step, t: State, c: Ctx, h: CtxHolder) {
    HoldsCtx(t, c, h) <==> JoinsContext(step, c, h) || (HoldsCtx(s, c, h) && !LetsGoOfContext(s, step, c, h))
  }

  lemma ContextsAreKnown(s: State, c: Ctx)
    requires Inv(s)
    ensures c in s.contexts ==> c in s.ctxEver
  {
    assert c in s.contexts ==> CtxOk(s, c);
  }

  lemma UsersOfContexts(s: State, step: Step, c: Ctx, h: CtxHolder)
    requires Inv(s) && Enabled(s, step)
    requires step.NewContext? || step.CloneContext? || step.DropContext? || step.NewWorker?
    ensures ContextHoldersFollow(s, step, Next(s, step).value, c, h)
  {
    if step.DropContext? {
      ReleasedContextLoses(s, step.c, CtxUser(step.k), c, h);
    } else {
      ContextsAreKnown(s, step.c);
    }
  }

  lemma ReleasesOfWorkers(s: State, step: Step, v: WorkerId, g: Holder, c: Ctx, h: CtxHolder)
    requires Inv(s) && Enabled(s, step) && Holds(s, v, g)
    requires match step
             case DropWorker(w, k) => v == w && g == User(k)
             case KillPoller(w, p) => v == w && g == Poller(p)
             case PollerTurn(w, p) => v == w && g == Poller(p)
             case _ => false
    ensures ContextHoldersFollow(s, step, Next(s, step).value, c, h)
  {
    assert WorkerOk(s, v, {});
    if step.PollerTurn? {
      PollingEndsIffLast(s, v, g.p);
    }
    if h.OfWorker? && LetsGo(s, step, v, g) {
      GoesWithItsHolder(s, step, v, g, h.w);
    }
    ReleasedWorkerLetsGo(s, v, g, c, h);
  }

  lemma EndpointsOfContexts(s: State, e: EpId, c: Ctx, h: CtxHolder)
    requires Inv(s) && e in s.endpoints
    ensures ContextHoldersFollow(s, DropEndpoint(e), ReleaseEndpoint(s, e), c, h)
  {
    var ep := s.endpoints[e];
    assert EpOk(s, e) && WorkerOk(s, ep.worker, {});
    if ep.handles == 1 {
      if h.OfWorker? {
        GoesWithItsHolder(s, DropEndpoint(e), ep.worker, OfEndpoint(e), h.w) by {
          forall u, g | LetsGo(s, DropEndpoint(e), u, g) && Holds(s, u, g) ensures u == ep.worker {
            assert WorkerOk(s, u, {});
          }
        }
      }
      var gone := s.(closedEver := s.closedEver + {e}, endpoints := s.endpoints - {e});
      ReleasedWorkerLetsGo(gone, ep.worker, OfEndpoint(e), c, h);
    }
  }

  lemma OthersLeaveContexts(s: State, step: Step, c: Ctx, h: CtxHolder)
    requires Inv(s) && Enabled(s, step)
    requires || step.CloneWorker? || step.SpawnPoller? || step.NewEndpoint? || step.CloneEndpoint?
             || step.CloseEndpoint?
    ensures ContextHoldersFollow(s, step, Next(s, step).value, c, h)
  {
  }

  /** The same for contexts, whose holders are users and the workers that are alive. */
  lemma ContextHoldersChangeOnlySo(s: State, step: Step, c: Ctx, h: CtxHolder)
    requires Inv(s) && Enabled(s, step)
    ensures ContextHoldersFollow(s, step, Next(s, step).value, c, h)
  {
    match step
    case DropWorker(w, k) => ReleasesOfWorkers(s, step, w, User(k), c, h);
    case KillPoller(w, p) => ReleasesOfWorkers(s, step, w, Poller(p), c, h);
    case PollerTurn(w, p) => ReleasesOfWorkers(s, step, w, Poller(p), c, h);
    case DropEndpoint(e) => EndpointsOfContexts(s, e, c, h);
    case NewContext(_, _) => UsersOfContexts(s, step, c, h);
    case CloneContext(_, _, _) => UsersOfContexts(s, step, c, h);
    case DropContext(_, _) => UsersOfContexts(s, step, c, h);
    case NewWorker(_, _, _, _) => UsersOfContexts(s, step, c, h);
    case _ => OthersLeaveContexts(s, step, c, h);
  }

  lemma ContextsHaveHolders(s: State, c: Ctx)
    requires Inv(s)
    ensures c in s.contexts <==> exists h :: HoldsCtx(s, c, h)
  {
    if c in s.contexts {
      assert CtxOk(s, c);
      var h :| h in s.contexts[c];
      assert HoldsCtx(s, c, h);
    }
  }

  /** A context is cleaned up exactly when all its holders let go of it, which is to say its last one does. */
  lemma WhenAContextGoes(s: State, step: Step, c: Ctx)
    requires Inv(s) && Enabled(s, step) && c in s.contexts
    ensures c !in Next(s, step).value.contexts <==>
            forall h :: HoldsCtx(s, c, h) ==> LetsGoOfContext(s, step, c, h)
  {
    var t := Next(s, step).value;
    StepKeepsInv(s, step);
    if c in t.contexts {
      ContextsHaveHolders(t, c);
      var h :| HoldsCtx(t, c, h);
      ContextHoldersChangeOnlySo(s, step, c, h);
      if JoinsContext(step, c, h) {
        JoiningNeedsAHolder(s, step, c, h);
      }
    } else {
      forall h | HoldsCtx(s, c, h) ensures LetsGoOfContext(s, step, c, h) {
        ContextHoldersChangeOnlySo(s, step, c, h);
      }
    }
  }

  /** Who joins a context that is there got it from a user, who stays. */
  lemma JoiningNeedsAHolder(s: State, step: Step, c: Ctx, h: CtxHolder)
    requires Inv(s) && Enabled(s, step) && c in s.contexts && JoinsContext(step, c, h)
    ensures HoldsCtx(s, c, CtxUser(step.k)) && !LetsGoOfContext(s, step, c, CtxUser(step.k))
  {
    assert CtxOk(s, c);
  }

  // ---- Endpoints, step by step ----

  ghost predicate EndpointFollows(s: State, step: Step, t: State, e: EpId) {
    && (e in t.endpoints <==>
          || (step.NewEndpoint? && step.e == e)
          || (e in s.endpoints && !(step == DropEndpoint(e) && s.endpoints[e].handles == 1)))
    && (e in s.endpoints && e in t.endpoints ==>
          && t.endpoints[e].worker == s.endpoints[e].worker
          && t.endpoints[e].handles == s.endpoints[e].handles +
             (if step == CloneEndpoint(e) then 1 else if step == DropEndpoint(e) then -1 else 0))
    && (e in t.closedEver <==> e in s.closedEver || step == CloseEndpoint(e) || step == DropEndpoint(e))
    && (e in t.endpoints ==> (t.endpoints[e].closed <==> e in t.closedEver))
  }

  lemma ReleasesKeepEndpoints(s: State, w: WorkerId, h: Holder)
    requires w in s.workers
    ensures ReleaseWorker(s, w, h).endpoints == s.endpoints && ReleaseWorker(s, w, h).closedEver == s.closedEver
  {
  }

  lemma DroppedEndpointFollows(s: State, x: EpId, e: EpId)
    requires Inv(s) && x in s.endpoints
    ensures EndpointFollows(s, DropEndpoint(x), ReleaseEndpoint(s, x), e)
  {
    assert EpOk(s, x);
    assert e in s.endpoints ==> EpOk(s, e);
    var gone := s.(closedEver := s.closedEver + {x}, endpoints := s.endpoints - {x});
    ReleasesKeepEndpoints(gone, s.endpoints[x].worker, OfEndpoint(x));
  }

  lemma ChangedEndpointFollows(s: State, step: Step, e: EpId)
    requires Inv(s) && Enabled(s, step) && (step.NewEndpoint? || step.CloneEndpoint? || step.CloseEndpoint?)
    ensures EndpointFollows(s, step, Next(s, step).value, e)
  {
    assert e in s.endpoints ==> EpOk(s, e);
    assert step.e in s.endpoints ==> EpOk(s, step.e);
  }

  lemma OthersKeepEndpoints(s: State, step: Step)
    requires Enabled(s, step)
    requires !step.NewEndpoint? && !step.CloneEndpoint? && !step.CloseEndpoint? && !step.DropEndpoint?
    ensures Next(s, step).value.endpoints == s.endpoints && Next(s, step).value.closedEver == s.closedEver
  {
  }

  /**
   The clones of an endpoint are counted, it goes with the last of them, and it is marked by the first drop or
   close of any.
   */
  lemma EndpointsChangeOnlySo(s: State, step: Step, e: EpId)
    requires Inv(s) && Enabled(s, step)
    ensures EndpointFollows(s, step, Next(s, step).value, e)
  {
    if step.DropEndpoint? {
      DroppedEndpointFollows(s, step.e, e);
    } else if step.NewEndpoint? || step.CloneEndpoint? || step.CloseEndpoint? {
      ChangedEndpointFollows(s, step, e);
    } else {
      OthersKeepEndpoints(s, step);
      assert e in s.endpoints ==> EpOk(s, e);
    }
  }

  // ---- Polling loops ----

  ghost predicate BothPoll(s: State, w: WorkerId, p: nat, q: nat) {
    Inv(s) && Holds(s, w, Poller(p)) && Holds(s, w, Poller(q))
  }

  lemma BothGoOn(s: State, step: Step, w: WorkerId, p: nat, q: nat)
    requires BothPoll(s, w, p, q) && p != q && Enabled(s, step)
    requires step != KillPoller(w, p) && step != KillPoller(w, q)
    ensures BothPoll(Next(s, step).value, w, p, q)
  {
    StepKeepsInv(s, step);
    HoldersStayUntilTheyLetGo(s, step, w, Poller(p));
    HoldersStayUntilTheyLetGo(s, step, w, Poller(q));
    assert Poller(p) in s.workers[w].holders && Poller(q) in s.workers[w].holders;
  }

  /**
   Two polling loops on one worker keep it, and each other, alive for good: after every run in which neither
   is killed, whatever else happens, both still hold it.
   */
  lemma {:induction false} TwoLoopsNeverEnd(s: State, steps: seq<Step>, w: WorkerId, p: nat, q: nat)
    requires BothPoll(s, w, p, q) && p != q && Run(Next, s, steps).Some?
    requires KillPoller(w, p) !in steps && KillPoller(w, q) !in steps
    ensures BothPoll(Run(Next, s, steps).value, w, p, q)
    decreases |steps|
  {
    if steps == [] {
      assert Run(Next, s, steps).value == s;
    } else {
      var n := |steps| - 1;
      assert steps[n] in steps;
      TwoLoopsNeverEnd(s, steps[..n], w, p, q);
      BothGoOn(Run(Next, s, steps[..n]).value, steps[n], w, p, q);
    }
  }

  /** Only a kill parts them: the other loop's next turn then ends it and the worker, if nobody else holds that. */
  lemma {:induction false} KillingOneEndsTheOther(s: State, w: WorkerId, p: nat, q: nat)
    requires Inv(s) && w in s.workers && s.workers[w].holders == {Poller(p), Poller(q)} && p != q
    ensures var t := Run(Next, s, [KillPoller(w, q), PollerTurn(w, p)]);
            t.Some? && w !in t.value.workers
  {
    var killed := ReleaseWorker(s, w, Poller(q));
    DropHolderKeepsInv(s, w, Poller(q));
    assert s.workers[w].holders - {Poller(q)} == {Poller(p)};
    PollingEndsIffLast(killed, w, p);
    assert Run(Next, s, []) == Some(s);
    RunSnoc(Next, s, [], KillPoller(w, q));
    RunSnoc(Next, s, [KillPoller(w, q)], PollerTurn(w, p));
    assert [] + [KillPoller(w, q)] == [KillPoller(w, q)];
  }

  /** A user starts two loops on a worker and keeps no reference. */
  function Abandoned(): seq<Step> {
    [NewContext(0, 0)] + [NewWorker(0, 0, 0, 0)] + [CloneWorker(0, User(0), 1)]
    + [SpawnPoller(0, 0, 0)] + [SpawnPoller(0, 1, 1)]
  }

  lemma {:induction false} SharedWorkerIsReachable(steps: seq<Step>)
    requires steps == [NewContext(0, 0)] + [NewWorker(0, 0, 0, 0)] + [CloneWorker(0, User(0), 1)]
    ensures var s := Run(Next, Init(), steps);
            s.Some? && 0 in s.value.workers && s.value.workers[0].holders == {User(0), User(1)}
  {
    assert Run(Next, Init(), [NewContext(0, 0)]) == Next(Init(), NewContext(0, 0)) by {
      assert [NewContext(0, 0)][..0] == [];
      assert Run(Next, Init(), []) == Some(Init());
    }
    RunSnoc(Next, Init(), [NewContext(0, 0)], NewWorker(0, 0, 0, 0));
    RunSnoc(Next, Init(), [NewContext(0, 0)] + [NewWorker(0, 0, 0, 0)], CloneWorker(0, User(0), 1));
  }

  lemma {:induction false} TwoLoopsAreReachable()
    ensures var s := Run(Next, Init(), Abandoned());
            s.Some? && 0 in s.value.workers && s.value.workers[0].holders == {Poller(0), Poller(1)}
  {
    var front := [NewContext(0, 0)] + [NewWorker(0, 0, 0, 0)] + [CloneWorker(0, User(0), 1)];
    SharedWorkerIsReachable(front);
    RunSnoc(Next, Init(), front, SpawnPoller(0, 0, 0));
    RunSnoc(Next, Init(), front + [SpawnPoller(0, 0, 0)], SpawnPoller(0, 1, 1));
    assert {User(0), User(1)} - {User(0)} + {Poller(0)} - {User(1)} + {Poller(1)} == {Poller(0), Poller(1)};
  }
}
