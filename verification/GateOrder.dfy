/** Order and progress at the admission controller (wings_control/proxy/queueing.py), over whole runs. */
module GateOrder {
  import opened Common
  import opened Queueing

  // ---------------------------------------------------------------------------
  // Order of service when `put` cannot suspend
  // ---------------------------------------------------------------------------

  /** Everything still pending behind the first live entry stays in the queue, behind it. */
  lemma FirstLiveIsOldest(cfg: Config, s: State, j: nat)
    requires Inv(cfg, s) && OrderInv(s) && s.Live(j)
    ensures FirstLive(s.q, s.futs) < |s.q| && s.q[FirstLive(s.q, s.futs)] <= j
  {
    assert s.Parked(j);
    var p :| 0 <= p < |s.q| && s.q[p] == j;
    var i := FirstLive(s.q, s.futs);
    assert i <= p;
  }

  /** Serving or dropping the oldest live entry keeps the order of service. */
  lemma ServeOldest(cfg: Config, s: State, s': State, st: FutState)
    requires Inv(cfg, s) && OrderInv(s) && FirstLive(s.q, s.futs) < |s.q|
    requires st.Granted? || st == Dropped
    requires var i := FirstLive(s.q, s.futs);
             s'.q == s.q[i + 1..] && s'.futs == SetState(s.futs, s.q[i], st)
    ensures Fifo(s') && Increasing(s'.q)
  {
    var k := s.q[FirstLive(s.q, s.futs)];
    forall j, m | 0 <= j < m < |s'.futs|
        && (s'.futs[m].state.Granted? || s'.futs[m].state == Resumed || s'.futs[m].state == Dropped)
      ensures s'.futs[j].state != Pending
    {
      if s'.futs[j].state == Pending {
        assert s.Live(j);
        FirstLiveIsOldest(cfg, s, j);
      }
    }
  }

  lemma OverflowOrder(cfg: Config, s: State)
    requires Inv(cfg, s) && OrderInv(s) && !cfg.PutCanBlock() && |s.q| >= cfg.maxQ > 0
    ensures var (s', reject) := OverflowStep(cfg, s);
            OrderInv(s') && (reject || |s'.q| < cfg.maxQ)
  {
    if cfg.dropOldest && FirstLive(s.q, s.futs) < |s.q| {
      ServeOldest(cfg, s, OverflowStep(cfg, s).0, Dropped);
    }
  }

  /** Queueing a fresh future behind a queue that is not full. */
  lemma EnqueueOrder(cfg: Config, s: State, task: nat)
    requires Inv(cfg, s) && OrderInv(s) && s.free0 == 0 && s.free1 == 0 && |s.q| < cfg.maxQ
    ensures OrderInv(Put(cfg, s.(futs := s.futs + [Fut(task, Pending)]), |s.futs|))
  {
    EntriesExist(cfg, s);
  }

  lemma AcquireOrder(cfg: Config, s: State, task: nat)
    requires Inv(cfg, s) && OrderInv(s) && !cfg.PutCanBlock()
    ensures OrderInv(AcquireStep(cfg, s, task).0)
  {
    TicketsWithinCap(cfg, s);
    if s.free0 == 0 && s.free1 == 0 && cfg.maxQ > 0 {
      var (s1, reject) := if |s.q| >= cfg.maxQ then OverflowStep(cfg, s) else (s, false);
      if |s.q| >= cfg.maxQ {
        OverflowOrder(cfg, s);
        OverflowInv(cfg, s);
      }
      if !reject {
        EnqueueOrder(cfg, s1, task);
      }
    }
  }

  lemma ReleaseOrder(cfg: Config, s: State, task: nat)
    requires Inv(cfg, s) && OrderInv(s)
    ensures OrderInv(ReleaseStep(cfg, s, task))
  {
    if task in s.holders && FirstLive(s.q, s.futs) < |s.q| {
      ServeOldest(cfg, s, ReleaseStep(cfg, s, task), Granted(s.holders[task]));
    }
  }

  lemma StepOrder(cfg: Config, s: State, e: Event)
    requires Inv(cfg, s) && OrderInv(s) && !cfg.PutCanBlock()
    ensures OrderInv(Step(cfg, s, e))
  {
    if Enabled(s, e) {
      match e
      case Acquire(t) => AcquireOrder(cfg, s, t);
      case Release(t) => ReleaseOrder(cfg, s, t);
      case Timeout(k) =>
      case Wakeup(k) =>
      case PutResumes =>
    }
  }

  lemma {:induction false} RunOrder(cfg: Config, s: State, es: seq<Event>)
    requires Inv(cfg, s) && OrderInv(s) && !cfg.PutCanBlock()
    ensures Inv(cfg, Run(cfg, s, es)) && OrderInv(Run(cfg, s, es))
    decreases |es|
  {
    if es != [] {
      StepInv(cfg, s, es[0]);
      StepOrder(cfg, s, es[0]);
      RunOrder(cfg, Step(cfg, s, es[0]), es[1..]);
    }
  }

  // ---------------------------------------------------------------------------
  // Theorems over all runs
  // ---------------------------------------------------------------------------

  /** First come, first served over whole runs: when a request has been handed a ticket or dropped,
      every request that queued before it has been served, dropped or has timed out. */
  lemma FifoOverRuns(cfg: Config, es: seq<Event>)
    requires !cfg.PutCanBlock()
    ensures var s := Run(cfg, Init(cfg), es);
            && Fifo(s)
            && (forall k: nat :: s.Live(k) ==> k in s.q)
            && Increasing(s.q)
  {
    InitInv(cfg);
    RunOrder(cfg, Init(cfg), es);
    var s := Run(cfg, Init(cfg), es);
    forall k: nat | s.Live(k) ensures k in s.q { assert s.Parked(k); }
  }

  /** No newcomer overtakes a live waiter: an arrival is admitted at once only if nobody waits. */
  lemma NoBarging(cfg: Config, es: seq<Event>, task: nat)
    requires !cfg.PutCanBlock()
    ensures var s := Run(cfg, Init(cfg), es);
            AcquireStep(cfg, s, task).1.Admitted? ==> forall k: nat :: !s.Live(k)
  {
    FifoOverRuns(cfg, es);
    InitInv(cfg);
    RunOrder(cfg, Init(cfg), es);
  }

  /** A release with somebody waiting hands the ticket of that layer to the oldest live waiter, who
      is the only request the release touches. */
  lemma ReleaseServesOldest(cfg: Config, es: seq<Event>, task: nat, j: nat)
    requires !cfg.PutCanBlock()
    requires var s := Run(cfg, Init(cfg), es); task in s.holders && s.Live(j)
    ensures var s := Run(cfg, Init(cfg), es);
            var s' := ReleaseStep(cfg, s, task);
            exists k: nat :: k <= j && s.Live(k) && (forall i: nat :: s.Live(i) ==> k <= i)
                && s'.futs == SetState(s.futs, k, Granted(s.holders[task]))
                && s'.free0 == s.free0 && s'.free1 == s.free1 && s'.holders == s.holders - {task}
  {
    InitInv(cfg);
    RunOrder(cfg, Init(cfg), es);
    var s := Run(cfg, Init(cfg), es);
    forall i: nat | s.Live(i) ensures s.q[FirstLive(s.q, s.futs)] <= i { FirstLiveIsOldest(cfg, s, i); }
    FirstLiveIsOldest(cfg, s, j);
    assert s.Live(s.q[FirstLive(s.q, s.futs)]);
  }

  lemma AcquireKills(cfg: Config, s: State, task: nat, k: nat)
    requires s.Live(k) && !AcquireStep(cfg, s, task).0.Live(k)
    ensures var i := FirstLive(s.q, s.futs);
            && cfg.dropOldest && |s.q| >= cfg.maxQ && i < |s.q| && k == s.q[i]
            && AcquireStep(cfg, s, task).0.futs == SetState(s.futs, k, Dropped) + [Fut(task, Pending)]
  {}

  /** An arrival ends the wait of at most one other request, only when the queue is full and the
      policy is drop_oldest, and then of the oldest one still waiting. */
  lemma ArrivalDropsOldest(cfg: Config, es: seq<Event>, task: nat, k: nat)
    requires !cfg.PutCanBlock()
    requires var s := Run(cfg, Init(cfg), es); s.Live(k) && !AcquireStep(cfg, s, task).0.Live(k)
    ensures var s := Run(cfg, Init(cfg), es);
            var s' := AcquireStep(cfg, s, task).0;
            && cfg.dropOldest && |s.q| == cfg.maxQ
            && s'.futs[k].state == Dropped
            && (forall i: nat :: s.Live(i) ==> k <= i)
            && (forall i: nat :: s.Live(i) && i != k ==> s'.Live(i))
  {
    InitInv(cfg);
    RunOrder(cfg, Init(cfg), es);
    var s := Run(cfg, Init(cfg), es);
    AcquireKills(cfg, s, task, k);
    forall i: nat | s.Live(i) ensures k <= i { FirstLiveIsOldest(cfg, s, i); }
  }

  /** As long as somebody waits, no ticket is free: each is with a recorded holder or with a request
      it has been handed to. */
  lemma TicketsAllOut(cfg: Config, es: seq<Event>, k: nat)
    requires !cfg.PutCanBlock() && Run(cfg, Init(cfg), es).Live(k)
    ensures var s := Run(cfg, Init(cfg), es);
            |HeldOn(s, G0)| + |HeldOn(s, G1)| + |GrantedOn(s, G0)| + |GrantedOn(s, G1)| == cfg.g0Cap + cfg.g1Cap
  {
    FifoOverRuns(cfg, es);
    InitInv(cfg);
    RunOrder(cfg, Init(cfg), es);
    var s := Run(cfg, Init(cfg), es);
    assert s.Free(G0) + |HeldOn(s, G0)| + |GrantedOn(s, G0)| == cfg.Cap(G0);
    assert s.Free(G1) + |HeldOn(s, G1)| + |GrantedOn(s, G1)| == cfg.Cap(G1);
  }

  /** Requests that finish: handed-over ones resume and holders release. */
  ghost predicate Finishing(es: seq<Event>) {
    forall i :: 0 <= i < |es| ==> es[i].Release? || es[i].Wakeup?
  }

  /** Somebody has a ticket and can give it back, after resuming if need be. */
  lemma SomeHolder(cfg: Config, s: State, k: nat) returns (es: seq<Event>, task: nat)
    requires Inv(cfg, s) && OrderInv(s) && s.Live(k) && cfg.g0Cap + cfg.g1Cap > 0
    ensures var s' := Run(cfg, s, es);
            Finishing(es) && Inv(cfg, s') && OrderInv(s') && s'.Live(k) && s'.q == s.q && task in s'.holders
  {
    assert s.Parked(k) && s.q != [];
    assert s.Free(G0) + |HeldOn(s, G0)| + |GrantedOn(s, G0)| == cfg.Cap(G0);
    assert s.Free(G1) + |HeldOn(s, G1)| + |GrantedOn(s, G1)| == cfg.Cap(G1);
    if HeldOn(s, G0) + HeldOn(s, G1) != {} {
      task :| task in HeldOn(s, G0) + HeldOn(s, G1);
      es := [];
    } else {
      assert HeldOn(s, G0) == {} && HeldOn(s, G1) == {};
      var layer := if |GrantedOn(s, G0)| > 0 then G0 else G1;
      var j :| j in GrantedOn(s, layer);
      es := [Wakeup(j)];
      task := s.futs[j].task;
      StepInv(cfg, s, Wakeup(j));
      assert Run(cfg, s, es) == Run(cfg, Step(cfg, s, Wakeup(j)), []);
    }
  }

  ghost predicate ServedOrWaiting(s: State, k: nat) {
    s.Live(k) || (k < |s.futs| && s.futs[k].state.Granted?)
  }

  lemma ReleaseServes(cfg: Config, s: State, task: nat, k: nat)
    requires task in s.holders && FirstLive(s.q, s.futs) < |s.q| && s.Live(k)
    ensures var s' := ReleaseStep(cfg, s, task);
            |s'.q| < |s.q| && ServedOrWaiting(s', k)
  {
    var j := s.q[FirstLive(s.q, s.futs)];
    assert ReleaseStep(cfg, s, task).futs == SetState(s.futs, j, Granted(s.holders[task]));
  }

  lemma ThenRelease(cfg: Config, s: State, before: seq<Event>, task: nat, after: seq<Event>)
    requires Finishing(before) && Finishing(after)
    ensures var es := before + ([Event.Release(task)] + after);
            Finishing(es) && Run(cfg, s, es) == Run(cfg, ReleaseStep(cfg, Run(cfg, s, before), task), after)
  {
    var e := Event.Release(task);
    RunAppend(cfg, s, before, [e] + after);
    RunFirst(cfg, Run(cfg, s, before), e, after);
    assert Step(cfg, Run(cfg, s, before), e) == ReleaseStep(cfg, Run(cfg, s, before), task);
  }

  /** Nobody waits in vain: while the gates have any capacity, the requests that hold tickets have
      only to finish, and the waiter gets one, in its turn. */
  lemma {:induction false} ServedWhenOthersFinish(cfg: Config, s: State, k: nat) returns (es: seq<Event>)
    requires Inv(cfg, s) && OrderInv(s) && !cfg.PutCanBlock() && s.Live(k) && cfg.g0Cap + cfg.g1Cap > 0
    ensures Finishing(es) && k < |Run(cfg, s, es).futs| && Run(cfg, s, es).futs[k].state.Granted?
    decreases |s.q|
  {
    var before, task := SomeHolder(cfg, s, k);
    var s1 := Run(cfg, s, before);
    var s2 := ReleaseStep(cfg, s1, task);
    assert FirstLive(s1.q, s1.futs) < |s1.q| by { FirstLiveIsOldest(cfg, s1, k); }
    ReleaseServes(cfg, s1, task, k);
    assert Inv(cfg, s2) by { HandoverInv(cfg, s1, task); }
    assert OrderInv(s2) by { ReleaseOrder(cfg, s1, task); }
    var after := [];
    if s2.Live(k) {
      after := ServedWhenOthersFinish(cfg, s2, k);
    }
    es := before + ([Event.Release(task)] + after);
    ThenRelease(cfg, s, before, task, after);
  }

  /** No reachable state leaves a waiter without somebody to wake it. */
  lemma WaiterCanBeServed(cfg: Config, es: seq<Event>, k: nat) returns (fs: seq<Event>)
    requires !cfg.PutCanBlock() && cfg.g0Cap + cfg.g1Cap > 0 && Run(cfg, Init(cfg), es).Live(k)
    ensures var s := Run(cfg, Init(cfg), es + fs);
            Finishing(fs) && k < |s.futs| && s.futs[k].state.Granted?
  {
    InitInv(cfg);
    RunOrder(cfg, Init(cfg), es);
    fs := ServedWhenOthersFinish(cfg, Run(cfg, Init(cfg), es), k);
    RunAppend(cfg, Init(cfg), es, fs);
  }

  /** How many events of a run are releases by a task that holds a ticket. */
  ghost function Releases(cfg: Config, s: State, es: seq<Event>): nat
    decreases |es|
  {
    if es == [] then 0
    else (if es[0].Release? && es[0].task in s.holders then 1 else 0) + Releases(cfg, Step(cfg, s, es[0]), es[1..])
  }

  ghost predicate AtPlace(s: State, k: nat, p: nat) {
    p < |s.q| && s.q[p] == k && s.Live(k)
  }

  /** A request that no longer waits never waits again. */
  lemma {:induction false} OverForGood(cfg: Config, s: State, es: seq<Event>, k: nat)
    requires k < |s.futs| && s.futs[k].state != Pending
    ensures k < |Run(cfg, s, es).futs| && Run(cfg, s, es).futs[k].state != Pending
    decreases |es|
  {
    if es != [] {
      OverForGood(cfg, Step(cfg, s, es[0]), es[1..], k);
    }
  }

  /** Taking the entries up to the first live one: another waiter moves up by at least one place. */
  lemma MovesUp(s: State, k: nat, p: nat, st: FutState) returns (p': nat)
    requires AtPlace(s, k, p)
    ensures var i := FirstLive(s.q, s.futs);
            && i <= p
            && var s' := Pop(s, i + 1).(futs := SetState(s.futs, s.q[i], st));
               p' < p || (k == s.q[i] && (st != Pending ==> s'.futs[k].state != Pending))
    ensures var i := FirstLive(s.q, s.futs);
            var s' := Pop(s, i + 1).(futs := SetState(s.futs, s.q[i], st));
            k != s.q[i] ==> AtPlace(s', k, p')
  {
    var i := FirstLive(s.q, s.futs);
    if i < p { p' := p - i - 1; } else { p' := 0; }
  }

  lemma OverflowAdvances(cfg: Config, s: State, k: nat, p: nat) returns (p': nat)
    requires AtPlace(s, k, p)
    ensures var s' := OverflowStep(cfg, s).0;
            k < |s'.futs| && (s'.futs[k].state != Pending || (p' <= p && AtPlace(s', k, p')))
  {
    p' := p;
    if cfg.dropOldest {
      p' := MovesUp(s, k, p, Dropped);
    }
  }

  lemma ArrivalKeepsPlace(cfg: Config, s: State, task: nat, k: nat, p: nat)
    requires AtPlace(s, k, p)
    ensures AtPlace(Put(cfg, s.(futs := s.futs + [Fut(task, Pending)]), |s.futs|), k, p)
  {}

  lemma AcquireAdvances(cfg: Config, s: State, task: nat, k: nat, p: nat) returns (p': nat)
    requires AtPlace(s, k, p)
    ensures var s' := AcquireStep(cfg, s, task).0;
            k < |s'.futs| && (s'.futs[k].state != Pending || (p' <= p && AtPlace(s', k, p')))
  {
    var out := AcquireStep(cfg, s, task).1;
    p' := p;
    if out.Queued? || out.Suspended? || out.QueueFull? {
      var s1 := s;
      if |s.q| >= cfg.maxQ {
        p' := OverflowAdvances(cfg, s, k, p);
        s1 := OverflowStep(cfg, s).0;
      }
      if s1.futs[k].state == Pending {
        ArrivalKeepsPlace(cfg, s1, task, k, p');
      }
    }
  }

  lemma ReleaseAdvances(cfg: Config, s: State, task: nat, k: nat, p: nat) returns (p': nat)
    requires AtPlace(s, k, p) && task in s.holders
    ensures var s' := ReleaseStep(cfg, s, task);
            k < |s'.futs| && (s'.futs[k].state != Pending || (p' < p && AtPlace(s', k, p')))
  {
    p' := MovesUp(s, k, p, Granted(s.holders[task]));
  }

  /** Every event keeps a waiter in its place or moves it up; a release always moves it up. */
  lemma StepAdvances(cfg: Config, s: State, e: Event, k: nat, p: nat) returns (p': nat)
    requires AtPlace(s, k, p)
    ensures var s' := Step(cfg, s, e);
            var released := if e.Release? && e.task in s.holders then 1 else 0;
            k < |s'.futs| && (s'.futs[k].state != Pending || (p' + released <= p && AtPlace(s', k, p')))
  {
    p' := p;
    if Enabled(s, e) {
      match e
      case Acquire(t) => p' := AcquireAdvances(cfg, s, t, k, p);
      case Release(t) => if t in s.holders { p' := ReleaseAdvances(cfg, s, t, k, p); }
      case Timeout(j) =>
      case Wakeup(j) =>
      case PutResumes =>
    }
  }

  /** Whatever happens in between: a request at place `p` of the queue, counted from nought, no longer
      waits once more than `p` tickets have been given back. */
  lemma {:induction false} WaitsForItsTurn(cfg: Config, s: State, es: seq<Event>, k: nat, p: nat)
    requires AtPlace(s, k, p) && Releases(cfg, s, es) > p
    ensures k < |Run(cfg, s, es).futs| && Run(cfg, s, es).futs[k].state != Pending
    decreases |es|
  {
    var p' := StepAdvances(cfg, s, es[0], k, p);
    var s' := Step(cfg, s, es[0]);
    if s'.futs[k].state != Pending {
      OverForGood(cfg, s', es[1..], k);
    } else {
      WaitsForItsTurn(cfg, s', es[1..], k, p');
    }
  }

  /** When `put` cannot suspend every waiter has such a place, so each wait ends after at most as many
      releases as the queue is long. */
  lemma EveryWaitEnds(cfg: Config, es: seq<Event>, fs: seq<Event>, k: nat)
    requires !cfg.PutCanBlock() && Run(cfg, Init(cfg), es).Live(k)
    requires Releases(cfg, Run(cfg, Init(cfg), es), fs) >= cfg.maxQ
    ensures var s := Run(cfg, Init(cfg), es + fs);
            k < |s.futs| && s.futs[k].state != Pending
  {
    FifoOverRuns(cfg, es);
    TokenConservation(cfg, es);
    var s := Run(cfg, Init(cfg), es);
    var p :| 0 <= p < |s.q| && s.q[p] == k;
    WaitsForItsTurn(cfg, s, fs, k, p);
    RunAppend(cfg, Init(cfg), es, fs);
  }

  // ---------------------------------------------------------------------------
  // When a waiter can be stranded
  // ---------------------------------------------------------------------------

  /** The state after `n` immediate admissions of tasks 0..n-1. */
  ghost predicate Admissions(cfg: Config, s: State, n: nat) {
    && Inv(cfg, s) && s.q == [] && s.futs == [] && s.putters == [] && s.woken == []
    && s.free0 + s.free1 + n == cfg.g0Cap + cfg.g1Cap
    && (forall t: nat :: t in s.holders <==> t < n)
  }

  lemma {:induction false} FillGates(cfg: Config, n: nat) returns (es: seq<Event>)
    requires n <= cfg.g0Cap + cfg.g1Cap
    ensures Admissions(cfg, Run(cfg, Init(cfg), es), n)
    decreases n
  {
    if n == 0 {
      es := [];
      InitInv(cfg);
    } else {
      var es0 := FillGates(cfg, n - 1);
      var s := Run(cfg, Init(cfg), es0);
      es := es0 + [Acquire(n - 1)];
      RunAppend(cfg, Init(cfg), es0, [Acquire(n - 1)]);
      assert s.Free(G0) + |HeldOn(s, G0)| + |GrantedOn(s, G0)| == cfg.Cap(G0);
      assert s.Free(G1) + |HeldOn(s, G1)| + |GrantedOn(s, G1)| == cfg.Cap(G1);
      assert !s.Outstanding(n - 1);
      StepInv(cfg, s, Acquire(n - 1));
      assert Run(cfg, Step(cfg, s, Acquire(n - 1)), []) == Step(cfg, s, Acquire(n - 1));
    }
  }

  /** All gates taken by tasks 0..c-1 and `n` later tasks queued, the first `dead` of them timed out. */
  ghost predicate Queuing(cfg: Config, s: State, n: nat, dead: nat) {
    var c := cfg.g0Cap + cfg.g1Cap;
    && Inv(cfg, s) && s.putters == [] && s.woken == [] && s.free0 == 0 && s.free1 == 0
    && (forall t: nat :: t in s.holders <==> t < c)
    && |s.q| == |s.futs| == n
    && (forall k :: 0 <= k < n ==> s.q[k] == k && s.futs[k] == Fut(c + k, if k < dead then TimedOut else Pending))
  }

  lemma {:induction false} FillQueue(cfg: Config, n: nat) returns (es: seq<Event>)
    requires n <= cfg.maxQ
    ensures Queuing(cfg, Run(cfg, Init(cfg), es), n, 0)
    decreases n
  {
    var c := cfg.g0Cap + cfg.g1Cap;
    if n == 0 {
      es := FillGates(cfg, c);
    } else {
      var es0 := FillQueue(cfg, n - 1);
      var s := Run(cfg, Init(cfg), es0);
      var e := Acquire(c + n - 1);
      es := es0 + [e];
      RunAppend(cfg, Init(cfg), es0, [e]);
      assert !s.Outstanding(c + n - 1);
      StepInv(cfg, s, e);
      assert Run(cfg, Step(cfg, s, e), []) == Step(cfg, s, e);
    }
  }

  lemma {:induction false} TimeOutAll(cfg: Config, n: nat, dead: nat) returns (es: seq<Event>)
    requires dead <= n <= cfg.maxQ
    ensures Queuing(cfg, Run(cfg, Init(cfg), es), n, dead)
    decreases dead
  {
    if dead == 0 {
      es := FillQueue(cfg, n);
    } else {
      var es0 := TimeOutAll(cfg, n, dead - 1);
      var s := Run(cfg, Init(cfg), es0);
      var e := Timeout(dead - 1);
      es := es0 + [e];
      RunAppend(cfg, Init(cfg), es0, [e]);
      assert s.Live(dead - 1);
      StepInv(cfg, s, e);
      assert Run(cfg, Step(cfg, s, e), []) == Step(cfg, s, e);
    }
  }

  /** The release empties the queue of dead entries and frees its ticket before the suspended arrival
      queues. */
  lemma StrandingRelease(cfg: Config, s: State, k: nat)
    requires 0 in s.holders && cfg.Cap(s.holders[0]) > 0 && s.free0 == 0 && s.free1 == 0 && cfg.maxQ > 0
    requires s.q != [] && FirstLive(s.q, s.futs) == |s.q| && s.putters == [k] && s.woken == [] && s.Live(k)
    ensures Stranded(Step(cfg, Step(cfg, s, Release(0)), PutResumes))
  {
    var s2 := Step(cfg, s, Release(0));
    assert s2.q == [] && s2.woken == [k] && s2.free0 + s2.free1 == 1 && s2.futs == s.futs;
    var s3 := Step(cfg, s2, PutResumes);
    assert s3.q == [k] && s3.Live(k);
  }

  /** With every ticket out and only timed-out entries in a full queue: an arrival suspends in `put`,
      one release drains the dead entries and frees its ticket, and only then the arrival queues. */
  lemma StrandingTail(cfg: Config, s: State, task: nat, m: nat)
    requires Queuing(cfg, s, m, m) && m == cfg.maxQ > 0 && cfg.PutCanBlock()
    requires task == cfg.g0Cap + cfg.g1Cap + m && cfg.g0Cap + cfg.g1Cap > 0
    ensures Stranded(Step(cfg, Step(cfg, Step(cfg, s, Acquire(task)), Release(0)), PutResumes))
  {
    assert !s.Outstanding(task);
    var s1 := Step(cfg, s, Acquire(task));
    assert s1 == s.(futs := s.futs + [Fut(task, Pending)], putters := [m]);
    HolderHasCap(cfg, s, 0);
    assert FirstLive(s1.q, s1.futs) == |s1.q|;
    StrandingRelease(cfg, s1, m);
  }

  ghost predicate StrandedAfter(cfg: Config, es: seq<Event>) {
    Stranded(Run(cfg, Init(cfg), es))
  }

  lemma RunThree(cfg: Config, s: State, a: Event, b: Event, c: Event)
    ensures Run(cfg, s, [a, b, c]) == Step(cfg, Step(cfg, Step(cfg, s, a), b), c)
  {
    assert [a, b, c][1..] == [b, c] && [b, c][1..] == [c] && [c][1..] == [];
    var s1 := Step(cfg, s, a);
    var s2 := Step(cfg, s1, b);
    assert Run(cfg, s2, [c]) == Run(cfg, Step(cfg, s2, c), []);
  }

  lemma StrandingRun(cfg: Config) returns (es: seq<Event>)
    requires cfg.PutCanBlock() && cfg.maxQ > 0 && cfg.g0Cap + cfg.g1Cap > 0
    ensures StrandedAfter(cfg, es)
  {
    var m: nat := cfg.maxQ;
    var task := cfg.g0Cap + cfg.g1Cap + m;
    var es0 := TimeOutAll(cfg, m, m);
    var s := Run(cfg, Init(cfg), es0);
    StrandingTail(cfg, s, task, m);
    RunThree(cfg, s, Acquire(task), Release(0), PutResumes);
    es := es0 + [Acquire(task), Release(0), PutResumes];
    RunAppend(cfg, Init(cfg), es0, [Acquire(task), Release(0), PutResumes]);
  }

  /** Exactly which configurations can leave a request waiting in the queue beside a free ticket. */
  lemma StrandingIff(cfg: Config)
    ensures (exists es :: StrandedAfter(cfg, es))
       <==> (cfg.PutCanBlock() && cfg.maxQ > 0 && cfg.g0Cap + cfg.g1Cap > 0)
  {
    if cfg.PutCanBlock() && cfg.maxQ > 0 && cfg.g0Cap + cfg.g1Cap > 0 {
      var es := StrandingRun(cfg);
      assert StrandedAfter(cfg, es);
    } else {
      forall es ensures !StrandedAfter(cfg, es) {
        TokenConservation(cfg, es);
        var s := Run(cfg, Init(cfg), es);
        assert s.Free(G0) + |HeldOn(s, G0)| + |GrantedOn(s, G0)| == cfg.g0Cap;
        assert s.Free(G1) + |HeldOn(s, G1)| + |GrantedOn(s, G1)| == cfg.g1Cap;
        if !cfg.PutCanBlock() {
          InitInv(cfg);
          RunOrder(cfg, Init(cfg), es);
        }
      }
    }
  }

  // ---------------------------------------------------------------------------
  // When newcomers can barge in, and waiters be served out of turn
  // ---------------------------------------------------------------------------

  /** There is always another task. */
  lemma FreshTask(s: State) returns (task: nat)
    ensures !s.Outstanding(task)
    ensures task !in s.holders && forall k :: 0 <= k < |s.futs| ==> s.futs[k].task != task
  {
    var tasks := s.holders.Keys + set k | 0 <= k < |s.futs| :: s.futs[k].task;
    task := Largest(tasks) + 1;
    assert task !in tasks;
    assert forall k :: 0 <= k < |s.futs| ==> s.futs[k].task in tasks;
  }

  lemma {:induction false} NoQueueNoFutures(cfg: Config, s: State, es: seq<Event>)
    requires cfg.maxQ <= 0 && s.futs == [] && s.q == []
    ensures Run(cfg, s, es).futs == []
    decreases |es|
  {
    if es != [] {
      NoQueueNoFutures(cfg, Step(cfg, s, es[0]), es[1..]);
    }
  }

  /** A new request is admitted at once beside a live waiter. */
  ghost predicate Barges(cfg: Config, es: seq<Event>, task: nat) {
    var s := Run(cfg, Init(cfg), es);
    !s.Outstanding(task) && AcquireStep(cfg, s, task).1.Admitted? && exists k: nat :: s.Live(k)
  }

  /** A request that queued later has been served or dropped before one that queued earlier. */
  ghost predicate OutOfTurn(cfg: Config, es: seq<Event>) {
    !Fifo(Run(cfg, Init(cfg), es))
  }

  ghost predicate CanStrand(cfg: Config) {
    cfg.PutCanBlock() && cfg.maxQ > 0 && cfg.g0Cap + cfg.g1Cap > 0
  }

  /** Without capacity and dropping, requests can only wait and time out. */
  ghost predicate NothingServed(s: State) {
    && s.free0 == 0 && s.free1 == 0 && s.holders == map[]
    && forall k :: 0 <= k < |s.futs| ==> s.futs[k].state == Pending || s.futs[k].state == TimedOut
  }

  lemma {:induction false} NoCapacityNoService(cfg: Config, s: State, es: seq<Event>)
    requires cfg.g0Cap + cfg.g1Cap == 0 && !cfg.dropOldest && NothingServed(s)
    ensures NothingServed(Run(cfg, s, es))
    decreases |es|
  {
    if es != [] {
      NoCapacityNoService(cfg, Step(cfg, s, es[0]), es[1..]);
    }
  }

  /** A newcomer can be admitted beside a live waiter exactly in the configurations that can strand. */
  lemma BargingIff(cfg: Config)
    ensures (exists es, task :: Barges(cfg, es, task)) <==> CanStrand(cfg)
  {
    if CanStrand(cfg) {
      var es := StrandingRun(cfg);
      var s := Run(cfg, Init(cfg), es);
      InitInv(cfg);
      RunInv(cfg, Init(cfg), es);
      TicketsWithinCap(cfg, s);
      var task := FreshTask(s);
      assert Barges(cfg, es, task);
    } else {
      forall es, task ensures !Barges(cfg, es, task) {
        if Barges(cfg, es, task) {
          NeverBarges(cfg, es, task);
        }
      }
    }
  }

  lemma NeverBarges(cfg: Config, es: seq<Event>, task: nat)
    requires !CanStrand(cfg)
    ensures !Barges(cfg, es, task)
  {
    if !cfg.PutCanBlock() {
      NoBarging(cfg, es, task);
    } else if cfg.maxQ <= 0 {
      NoQueueNoFutures(cfg, Init(cfg), es);
    } else {
      NoCapacityNoService(cfg, Init(cfg), es);
    }
  }

  /** With every ticket out and the queue empty, a newcomer queues and gets the next ticket. */
  lemma QueuesAndIsServed(cfg: Config, s: State, k: nat, a: nat, b: nat)
    requires cfg.maxQ > 0 && s.free0 == 0 && s.free1 == 0 && s.q == [] && a in s.holders && !s.Outstanding(b)
    requires s.Live(k) && k == |s.futs| - 1
    ensures !Fifo(Step(cfg, Step(cfg, s, Acquire(b)), Release(a)))
  {
    var s2 := Step(cfg, s, Acquire(b));
    assert s2.q == [k + 1] && s2.futs == s.futs + [Fut(b, Pending)] && a in s2.holders;
    var s3 := Step(cfg, s2, Release(a));
    assert s3.futs[k].state == Pending && s3.futs[k + 1].state.Granted?;
  }

  /** While an arrival woken in `put` has not run yet, the freed ticket goes to a newcomer, a second
      newcomer queues, and the first one hands its ticket to the second. */
  lemma OvertakenTail(cfg: Config, s: State, k: nat, a: nat, b: nat)
    requires cfg.maxQ > 0 && s.free0 + s.free1 == 1 && s.q == [] && s.putters == []
    requires (s.free0 > 0 ==> cfg.g0Cap > 0) && (s.free1 > 0 ==> cfg.g1Cap > 0)
    requires s.Live(k) && k == |s.futs| - 1
    requires a != b && !s.Outstanding(a) && !s.Outstanding(b)
    ensures !Fifo(Step(cfg, Step(cfg, Step(cfg, s, Acquire(a)), Acquire(b)), Release(a)))
  {
    var s1 := Step(cfg, s, Acquire(a));
    assert s1.free0 == 0 && s1.free1 == 0 && s1.futs == s.futs && s1.q == [] && a in s1.holders;
    assert !s1.Outstanding(b) by {
      if k: nat :| s1.Waiting(k) && s1.futs[k].task == b { assert s.Waiting(k); }
    }
    QueuesAndIsServed(cfg, s1, k, a, b);
  }

  /** The state after the first two steps of the stranding run. */
  lemma AfterRelease(cfg: Config, s: State, task: nat, m: nat)
    requires Queuing(cfg, s, m, m) && m == cfg.maxQ && CanStrand(cfg)
    requires task == cfg.g0Cap + cfg.g1Cap + m
    ensures var s' := Step(cfg, Step(cfg, s, Acquire(task)), Release(0));
            && s'.q == [] && s'.putters == [] && s'.free0 + s'.free1 == 1
            && s'.Live(m) && |s'.futs| == m + 1
            && s'.holders == s.holders - {0} && s'.futs == s.futs + [Fut(task, Pending)]
            && (s'.free0 > 0 ==> cfg.g0Cap > 0) && (s'.free1 > 0 ==> cfg.g1Cap > 0)
  {
    assert !s.Outstanding(task);
    var s1 := Step(cfg, s, Acquire(task));
    assert s1 == s.(futs := s.futs + [Fut(task, Pending)], putters := [m]);
    HolderHasCap(cfg, s, 0);
    assert FirstLive(s1.q, s1.futs) == |s1.q|;
  }

  lemma RunSplit(cfg: Config, s: State, a: Event, b: Event, es: seq<Event>)
    ensures Run(cfg, s, [a, b] + es) == Run(cfg, Step(cfg, Step(cfg, s, a), b), es)
  {
    assert [a, b] + es == [a] + ([b] + es);
    RunFirst(cfg, s, a, [b] + es);
    RunFirst(cfg, Step(cfg, s, a), b, es);
  }

  lemma OvertakingRun(cfg: Config) returns (es: seq<Event>)
    requires CanStrand(cfg)
    ensures OutOfTurn(cfg, es)
  {
    var m: nat := cfg.maxQ;
    var task := cfg.g0Cap + cfg.g1Cap + m;
    var es0 := TimeOutAll(cfg, m, m);
    var s := Run(cfg, Init(cfg), es0);
    AfterRelease(cfg, s, task, m);
    var s2 := Step(cfg, Step(cfg, s, Acquire(task)), Release(0));
    var a, b := task + 1, task + 2;
    assert !s2.Outstanding(a) && !s2.Outstanding(b);
    OvertakenTail(cfg, s2, m, a, b);
    var last := [Acquire(a), Acquire(b), Release(a)];
    RunThree(cfg, s2, Acquire(a), Acquire(b), Release(a));
    RunSplit(cfg, s, Acquire(task), Release(0), last);
    RunAppend(cfg, Init(cfg), es0, [Acquire(task), Release(0)] + last);
    es := es0 + ([Acquire(task), Release(0)] + last);
  }

  /** Requests can be served out of turn exactly in the same configurations. */
  lemma OutOfTurnIff(cfg: Config)
    ensures (exists es :: OutOfTurn(cfg, es)) <==> CanStrand(cfg)
  {
    if CanStrand(cfg) {
      var es := OvertakingRun(cfg);
      assert OutOfTurn(cfg, es);
    } else {
      forall es ensures !OutOfTurn(cfg, es) {
        if !cfg.PutCanBlock() {
          FifoOverRuns(cfg, es);
        } else if cfg.maxQ <= 0 {
          NoQueueNoFutures(cfg, Init(cfg), es);
        } else {
          NoCapacityNoService(cfg, Init(cfg), es);
        }
      }
    }
  }

  // ---------------------------------------------------------------------------
  // The line of suspended arrivals
  // ---------------------------------------------------------------------------

  /** The woken arrivals and the ones still suspended behind them. */
  ghost function Line(s: State): seq<nat> {
    s.woken + s.putters
  }

  lemma PopKeepsLine(s: State, n: nat)
    requires n <= |s.q|
    ensures Line(Pop(s, n)) == Line(s)
  {
    var w := if n < |s.putters| then n else |s.putters|;
    Assoc(s.woken, s.putters[..w], s.putters[w..]);
    assert s.putters[..w] + s.putters[w..] == s.putters;
  }

  lemma PutLine(cfg: Config, s: State, k: nat)
    ensures Line(Put(cfg, s, k)) == if |s.q| < cfg.maxQ then Line(s) else Line(s) + [k]
  {
    Assoc(s.woken, s.putters, [k]);
  }

  lemma OverflowLine(cfg: Config, s: State)
    ensures Line(OverflowStep(cfg, s).0) == Line(s)
  {
    var i := FirstLive(s.q, s.futs);
    PopKeepsLine(s, if i < |s.q| then i + 1 else |s.q|);
  }

  lemma AcquireLine(cfg: Config, s: State, task: nat)
    ensures var (s', out) := AcquireStep(cfg, s, task);
            Line(s') == if out.Suspended? then Line(s) + [|s.futs|] else Line(s)
  {
    OverflowLine(cfg, s);
    var s1 := if |s.q| >= cfg.maxQ then OverflowStep(cfg, s).0 else s;
    PutLine(cfg, s1.(futs := s1.futs + [Fut(task, Pending)]), |s1.futs|);
  }

  lemma ReleaseLine(cfg: Config, s: State, task: nat)
    ensures Line(ReleaseStep(cfg, s, task)) == Line(s)
  {
    var i := FirstLive(s.q, s.futs);
    PopKeepsLine(s, if i < |s.q| then i + 1 else |s.q|);
  }

  lemma ResumeLine(cfg: Config, s: State)
    requires s.woken != []
    ensures var s1 := s.(woken := s.woken[1..]);
            Line(Put(cfg, s1, s.woken[0])) == if |s.q| < cfg.maxQ then Line(s)[1..] else Line(s)[1..] + [Line(s)[0]]
  {
    PutLine(cfg, s.(woken := s.woken[1..]), s.woken[0]);
    assert Line(s)[1..] == s.woken[1..] + s.putters;
  }

  /** Suspended arrivals are resumed in the order in which they suspended: they form one line, which
      only an arrival that suspends joins, at the end, and of which only the head leaves, to queue if
      there is room and to join the end again if not. */
  lemma SuspendedInOrder(cfg: Config, s: State, e: Event)
    ensures var s' := Step(cfg, s, e);
            if Enabled(s, e) && e.Acquire? && AcquireStep(cfg, s, e.task).1.Suspended? then
              Line(s') == Line(s) + [|s.futs|]
            else if Enabled(s, e) && e.PutResumes? then
              Line(s) != [] && Line(s') == Line(s)[1..] + if |s.q| < cfg.maxQ then [] else [Line(s)[0]]
            else Line(s') == Line(s)
  {
    if Enabled(s, e) {
      match e
      case Acquire(t) => AcquireLine(cfg, s, t);
      case Release(t) => ReleaseLine(cfg, s, t);
      case Timeout(k) =>
      case Wakeup(k) =>
      case PutResumes =>
        ResumeLine(cfg, s);
        assert Line(s)[1..] + [] == Line(s)[1..];
    }
  }

  /** Nobody sleeps in `put` beside a free place for which nobody has been woken. */
  ghost predicate NoPlaceWasted(cfg: Config, s: State) {
    s.putters != [] ==> |s.q| + |s.woken| >= cfg.maxQ
  }

  lemma {:induction false} NoLostWakeup(cfg: Config, s: State, es: seq<Event>)
    requires NoPlaceWasted(cfg, s)
    ensures NoPlaceWasted(cfg, Run(cfg, s, es))
    decreases |es|
  {
    if es != [] {
      NoLostWakeup(cfg, Step(cfg, s, es[0]), es[1..]);
    }
  }

  // ---------------------------------------------------------------------------
  // When an arrival is rejected
  // ---------------------------------------------------------------------------

  /** After every run, exactly which arrivals get the queue-full 503: those that find no ticket, a full
      queue and a mode other than block, and under drop_oldest moreover nobody left to drop.  In that
      last case the queue has been emptied all the same. */
  lemma RejectedIff(cfg: Config, es: seq<Event>, task: nat)
    ensures var s := Run(cfg, Init(cfg), es);
            var (s', out) := AcquireStep(cfg, s, task);
            && (out == QueueFull <==>
                  && s.free0 == 0 && s.free1 == 0 && cfg.maxQ > 0 && |s.q| == cfg.maxQ && !cfg.block
                  && (cfg.dropOldest ==> forall k: nat :: !s.Live(k)))
            && (out == QueueFull && cfg.dropOldest ==> s'.q == [])
  {
    InitInv(cfg);
    RunInv(cfg, Init(cfg), es);
    var s := Run(cfg, Init(cfg), es);
    TicketsWithinCap(cfg, s);
    if !cfg.block {
      RunOrder(cfg, Init(cfg), es);
      if k: nat :| s.Live(k) {
        FirstLiveIsOldest(cfg, s, k);
      }
      assert FirstLive(s.q, s.futs) < |s.q| ==> s.Live(s.q[FirstLive(s.q, s.futs)]);
    }
  }

  /** A new arrival is turned away with a full queue although nobody is waiting. */
  ghost predicate RejectedForNobody(cfg: Config, es: seq<Event>, task: nat) {
    var s := Run(cfg, Init(cfg), es);
    !s.Outstanding(task) && AcquireStep(cfg, s, task).1 == QueueFull && forall k: nat :: !s.Live(k)
  }

  /** That can happen, whatever the policy, exactly if there is a queue and the mode is not block:
      timed-out entries keep their places. */
  lemma RejectedForNobodyIff(cfg: Config)
    ensures (exists es, task :: RejectedForNobody(cfg, es, task)) <==> cfg.maxQ > 0 && !cfg.block
  {
    if cfg.maxQ > 0 && !cfg.block {
      var es := TimeOutAll(cfg, cfg.maxQ, cfg.maxQ);
      var s := Run(cfg, Init(cfg), es);
      var task := cfg.g0Cap + cfg.g1Cap + cfg.maxQ;
      assert Queuing(cfg, s, cfg.maxQ, cfg.maxQ);
      RejectedIff(cfg, es, task);
      assert !s.Outstanding(task);
      assert RejectedForNobody(cfg, es, task);
    } else {
      forall es, task ensures !RejectedForNobody(cfg, es, task) {
        RejectedIff(cfg, es, task);
      }
    }
  }
}
