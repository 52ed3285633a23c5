/** The two-gate admission controller (wings_control/proxy/queueing.py).

    Every stretch of code between two suspension points of the event loop is one atomic step, so a
    run of the controller is a sequence of events.  Futures are numbered in the order in which
    `acquire` creates them, and the queue holds these numbers. */
module Queueing {
  import opened Common

  datatype Layer = G0 | G1

  /** `maxQ` is LOCAL_QUEUE_MAXSIZE, `dropOldest` says QUEUE_REJECT_POLICY is "drop_oldest" and
      `block` says QUEUE_OVERFLOW_MODE is "block". */
  datatype Config = Config(g0Cap: nat, g1Cap: nat, maxQ: int, dropOldest: bool, block: bool) {
    function Cap(layer: Layer): nat {
      if layer == G0 then g0Cap else g1Cap
    }

    /** An arrival at a full queue can suspend inside `put`. */
    predicate PutCanBlock() {
      !dropOldest && block
    }
  }

  datatype FutState = Pending | Granted(layer: Layer) | Resumed | Dropped | TimedOut
  datatype Fut = Fut(task: nat, state: FutState)

  /** The gate's own fields (free tickets, queue, holders) and what the event loop knows of it: the
      futures, the arrivals suspended in `put`, and those of them already woken but not yet run. */
  datatype State = State(free0: nat, free1: nat, q: seq<nat>, holders: map<nat, Layer>,
                         futs: seq<Fut>, putters: seq<nat>, woken: seq<nat>)
  {
    function Free(layer: Layer): nat {
      if layer == G0 then free0 else free1
    }

    predicate Live(k: nat) {
      k < |futs| && futs[k].state == Pending
    }

    /** Queued, suspended in `put`, or woken from it. */
    predicate Parked(k: nat) {
      k in q || k in putters || k in woken
    }

    predicate Waiting(k: nat) {
      k < |futs| && (futs[k].state == Pending || futs[k].state.Granted?)
    }

    ghost predicate Outstanding(task: nat) {
      task in holders || exists k: nat :: Waiting(k) && futs[k].task == task
    }
  }

  datatype Outcome = Admitted(layer: Layer) | Queued(fut: nat) | Suspended(fut: nat) | QueueDisabled | QueueFull

  datatype Event =
    | Acquire(task: nat)
    | Release(task: nat)
    | Timeout(fut: nat)
    | Wakeup(fut: nat)
    | PutResumes

  function Init(cfg: Config): State {
    State(cfg.g0Cap, cfg.g1Cap, [], map[], [], [], [])
  }

  // ---------------------------------------------------------------------------
  // What each step does
  // ---------------------------------------------------------------------------

  /** Position of the first queue entry whose future is still pending, or |q|. */
  function FirstLive(q: seq<nat>, futs: seq<Fut>): (i: nat)
    ensures i <= |q|
    ensures forall j :: 0 <= j < i ==> !(q[j] < |futs| && futs[q[j]].state == Pending)
    ensures i < |q| ==> q[i] < |futs| && futs[q[i]].state == Pending
  {
    if q == [] || (q[0] < |futs| && futs[q[0]].state == Pending) then 0 else 1 + FirstLive(q[1..], futs)
  }

  function SetState(futs: seq<Fut>, k: nat, st: FutState): (r: seq<Fut>)
    requires k < |futs|
    ensures |r| == |futs|
  {
    futs[k := futs[k].(state := st)]
  }

  /** Taking `n` entries off the queue wakes up to `n` suspended putters, oldest first. */
  function Pop(s: State, n: nat): State
    requires n <= |s.q|
  {
    var w := if n < |s.putters| then n else |s.putters|;
    s.(q := s.q[n..], putters := s.putters[w..], woken := s.woken + s.putters[..w])
  }

  function Put(cfg: Config, s: State, k: nat): State {
    if |s.q| < cfg.maxQ then s.(q := s.q + [k]) else s.(putters := s.putters + [k])
  }

  function TakeTicket(s: State, layer: Layer, task: nat): State
    requires s.Free(layer) > 0
  {
    if layer == G0 then s.(free0 := s.free0 - 1, holders := s.holders[task := G0])
    else s.(free1 := s.free1 - 1, holders := s.holders[task := G1])
  }

  function GiveTicket(cfg: Config, s: State, layer: Layer): State {
    if cfg.Cap(layer) == 0 then s
    else if layer == G0 then s.(free0 := s.free0 + 1)
    else s.(free1 := s.free1 + 1)
  }

  /** The overflow policy; `reject` says the arrival gets a 503. */
  function OverflowStep(cfg: Config, s: State): (r: (State, bool)) {
    if cfg.dropOldest then
      var i := FirstLive(s.q, s.futs);
      if i < |s.q| then
        (Pop(s, i + 1).(futs := SetState(s.futs, s.q[i], Dropped)), false)
      else
        (Pop(s, |s.q|), !cfg.block)
    else
      (s, !cfg.block)
  }

  function AcquireStep(cfg: Config, s: State, task: nat): (State, Outcome) {
    if cfg.g0Cap > 0 && s.free0 > 0 then (TakeTicket(s, G0, task), Admitted(G0))
    else if cfg.g1Cap > 0 && s.free1 > 0 then (TakeTicket(s, G1, task), Admitted(G1))
    else if cfg.maxQ <= 0 then (s, QueueDisabled)
    else
      var (s1, reject) := if |s.q| >= cfg.maxQ then OverflowStep(cfg, s) else (s, false);
      if reject then (s1, QueueFull)
      else
        var k := |s1.futs|;
        var s2 := s1.(futs := s1.futs + [Fut(task, Pending)]);
        (Put(cfg, s2, k), if |s2.q| < cfg.maxQ then Queued(k) else Suspended(k))
  }

  function ReleaseStep(cfg: Config, s: State, task: nat): State {
    if task !in s.holders then s
    else
      var layer := s.holders[task];
      var s1 := s.(holders := s.holders - {task});
      var i := FirstLive(s.q, s.futs);
      if i < |s.q| then
        Pop(s1, i + 1).(futs := SetState(s.futs, s.q[i], Granted(layer)))
      else
        GiveTicket(cfg, Pop(s1, |s.q|), layer)
  }

  /** Which events the environment may produce: a task has one outstanding acquire, a timeout fires
      only on a pending future whose owner is already waiting for it, a wakeup follows a grant. */
  ghost predicate Enabled(s: State, e: Event) {
    match e
    case Acquire(t) => !s.Outstanding(t)
    case Release(t) => true
    case Timeout(k) => s.Live(k) && k !in s.putters && k !in s.woken
    case Wakeup(k) => k < |s.futs| && s.futs[k].state.Granted?
    case PutResumes => s.woken != []
  }

  ghost function Step(cfg: Config, s: State, e: Event): State {
    if !Enabled(s, e) then s else
    match e
    case Acquire(t) => AcquireStep(cfg, s, t).0
    case Release(t) => ReleaseStep(cfg, s, t)
    case Timeout(k) => s.(futs := SetState(s.futs, k, TimedOut))
    case Wakeup(k) => WakeupStep(s, k)
    case PutResumes => Put(cfg, s.(woken := s.woken[1..]), s.woken[0])
  }

  function WakeupStep(s: State, k: nat): State
    requires k < |s.futs| && s.futs[k].state.Granted?
  {
    s.(holders := s.holders[s.futs[k].task := s.futs[k].state.layer], futs := SetState(s.futs, k, Resumed))
  }

  ghost function Run(cfg: Config, s: State, es: seq<Event>): State
    decreases |es|
  {
    if es == [] then s else Run(cfg, Step(cfg, s, es[0]), es[1..])
  }

  lemma RunFirst(cfg: Config, s: State, e: Event, es: seq<Event>)
    ensures Run(cfg, s, [e] + es) == Run(cfg, Step(cfg, s, e), es)
  {
    assert ([e] + es)[1..] == es;
  }

  lemma {:induction false} RunAppend(cfg: Config, s: State, es: seq<Event>, fs: seq<Event>)
    ensures Run(cfg, s, es + fs) == Run(cfg, Run(cfg, s, es), fs)
    decreases |es|
  {
    if es == [] {
      assert es + fs == fs;
    } else {
      RunAppend(cfg, Step(cfg, s, es[0]), es[1..], fs);
      assert (es + fs)[1..] == es[1..] + fs;
    }
  }

  // ---------------------------------------------------------------------------
  // Invariants
  // ---------------------------------------------------------------------------

  ghost function HeldOn(s: State, layer: Layer): set<nat> {
    set t | t in s.holders && s.holders[t] == layer
  }

  ghost function GrantedOn(s: State, layer: Layer): set<nat> {
    set k | 0 <= k < |s.futs| && s.futs[k].state == Granted(layer)
  }

  /** Free tickets, recorded holders and handed-over tickets not yet picked up add up to the cap. */
  ghost predicate TicketsConserved(cfg: Config, s: State) {
    forall layer :: s.Free(layer) + |HeldOn(s, layer)| + |GrantedOn(s, layer)| == cfg.Cap(layer)
  }

  ghost predicate OneAcquirePerTask(s: State) {
    && (forall k: nat :: s.Waiting(k) ==> s.futs[k].task !in s.holders)
    && (forall j: nat, k: nat :: s.Waiting(j) && s.Waiting(k) && s.futs[j].task == s.futs[k].task ==> j == k)
  }

  ghost predicate QueueWellFormed(cfg: Config, s: State) {
    && |s.q| <= (if cfg.maxQ > 0 then cfg.maxQ else 0)
    && (forall k: nat :: s.Parked(k) ==> k < |s.futs|)
    && (forall k: nat :: s.Live(k) ==> s.Parked(k))
  }

  ghost predicate Inv(cfg: Config, s: State) {
    && TicketsConserved(cfg, s)
    && OneAcquirePerTask(s)
    && QueueWellFormed(cfg, s)
  }

  ghost predicate Increasing(q: seq<nat>) {
    forall i, j :: 0 <= i < j < |q| ==> q[i] < q[j]
  }

  /** No request that queued earlier is still waiting once a later one was served or dropped. */
  ghost predicate Fifo(s: State) {
    forall j, k :: 0 <= j < k < |s.futs|
        && (s.futs[k].state.Granted? || s.futs[k].state == Resumed || s.futs[k].state == Dropped)
      ==> s.futs[j].state != Pending
  }

  /** What holds in addition when `put` cannot suspend. */
  ghost predicate OrderInv(s: State) {
    && s.putters == [] && s.woken == []
    && (s.q != [] ==> s.free0 == 0 && s.free1 == 0)
    && Increasing(s.q)
    && Fifo(s)
  }

  ghost predicate Stranded(s: State) {
    s.free0 + s.free1 > 0 && exists k :: k in s.q && s.Live(k)
  }

  // ---------------------------------------------------------------------------
  // Every run keeps the tickets
  // ---------------------------------------------------------------------------

  lemma InitInv(cfg: Config)
    ensures Inv(cfg, Init(cfg)) && OrderInv(Init(cfg))
  {
    forall layer ensures HeldOn(Init(cfg), layer) == {} && GrantedOn(Init(cfg), layer) == {} {}
  }

  lemma PopParked(s: State, n: nat, k: nat)
    requires n <= |s.q|
    ensures Pop(s, n).Parked(k) ==> s.Parked(k)
    ensures s.Parked(k) ==> Pop(s, n).Parked(k) || k in s.q[..n]
  {
    assert s.q == s.q[..n] + s.q[n..];
    var w := if n < |s.putters| then n else |s.putters|;
    assert s.putters == s.putters[..w] + s.putters[w..];
  }

  lemma PutParked(cfg: Config, s: State, k: nat, j: nat)
    ensures Put(cfg, s, k).Parked(j) <==> s.Parked(j) || j == k
  {}

  /** The two ticket sets of a state change only through the dictionary and the futures. */
  lemma SameTickets(cfg: Config, s: State, s': State)
    requires TicketsConserved(cfg, s) && s'.holders == s.holders && s'.free0 == s.free0 && s'.free1 == s.free1
    requires forall l :: GrantedOn(s', l) == GrantedOn(s, l)
    ensures TicketsConserved(cfg, s')
  {
    forall l ensures HeldOn(s', l) == HeldOn(s, l) {}
  }

  lemma HeldAdd(s: State, s': State, layer: Layer, task: nat, l: Layer)
    requires task !in s.holders && s'.holders == s.holders[task := layer]
    ensures HeldOn(s', l) == if l == layer then HeldOn(s, l) + {task} else HeldOn(s, l)
    ensures |HeldOn(s', l)| == |HeldOn(s, l)| + if l == layer then 1 else 0
  {
    assert HeldOn(s', l) == if l == layer then HeldOn(s, l) + {task} else HeldOn(s, l);
  }

  lemma HeldRemove(s: State, s': State, task: nat, l: Layer)
    requires task in s.holders && s'.holders == s.holders - {task}
    ensures |HeldOn(s', l)| == |HeldOn(s, l)| - if l == s.holders[task] then 1 else 0
  {
    assert task in HeldOn(s, s.holders[task]);
    assert HeldOn(s', l) == HeldOn(s, l) - {task};
  }

  lemma GrantedOthers(s: State, k: nat, l: Layer)
    requires k < |s.futs|
    ensures |GrantedOn(s, l)| == |GrantedOn(s, l) - {k}| + if s.futs[k].state == Granted(l) then 1 else 0
  {
    if s.futs[k].state == Granted(l) {
      assert k in GrantedOn(s, l);
    } else {
      assert GrantedOn(s, l) - {k} == GrantedOn(s, l);
    }
  }

  lemma SameOthers(s: State, s': State, k: nat, st: FutState, l: Layer)
    requires k < |s.futs| && s'.futs == SetState(s.futs, k, st)
    ensures GrantedOn(s', l) - {k} == GrantedOn(s, l) - {k}
  {}

  lemma GrantedSet(s: State, s': State, k: nat, st: FutState, l: Layer)
    requires k < |s.futs| && s'.futs == SetState(s.futs, k, st)
    ensures |GrantedOn(s', l)| + (if s.futs[k].state == Granted(l) then 1 else 0)
         == |GrantedOn(s, l)| + (if st == Granted(l) then 1 else 0)
  {
    GrantedOthers(s, k, l);
    GrantedOthers(s', k, l);
    SameOthers(s, s', k, st, l);
  }

  lemma TakeTicketInv(cfg: Config, s: State, layer: Layer, task: nat)
    requires Inv(cfg, s) && s.Free(layer) > 0 && !s.Outstanding(task)
    ensures Inv(cfg, TakeTicket(s, layer, task))
  {
    var s' := TakeTicket(s, layer, task);
    assert TicketsConserved(cfg, s') by {
      forall l ensures s'.Free(l) + |HeldOn(s', l)| + |GrantedOn(s', l)| == cfg.Cap(l) {
        HeldAdd(s, s', layer, task, l);
        assert GrantedOn(s', l) == GrantedOn(s, l);
        assert s.Free(l) + |HeldOn(s, l)| + |GrantedOn(s, l)| == cfg.Cap(l);
      }
    }
    assert QueueWellFormed(cfg, s') by {
      assert forall k: nat :: (s'.Live(k) == s.Live(k)) && (s'.Parked(k) == s.Parked(k));
    }
    assert OneAcquirePerTask(s') by {
      forall k: nat | s'.Waiting(k) ensures s'.futs[k].task !in s'.holders { assert s.Waiting(k); }
      forall j: nat, k: nat | s'.Waiting(j) && s'.Waiting(k) && s'.futs[j].task == s'.futs[k].task ensures j == k {
        assert s.Waiting(j) && s.Waiting(k);
      }
    }
  }

  /** A future that only leaves the waiting states disturbs no other request. */
  lemma FewerWaiting(s: State, s': State)
    requires OneAcquirePerTask(s) && s'.holders.Keys <= s.holders.Keys && |s'.futs| == |s.futs|
    requires forall k: nat :: s'.Waiting(k) ==> s.Waiting(k) && s'.futs[k].task == s.futs[k].task
    ensures OneAcquirePerTask(s')
  {
    forall k: nat | s'.Waiting(k) ensures s'.futs[k].task !in s'.holders { assert s.Waiting(k); }
    forall j: nat, k: nat | s'.Waiting(j) && s'.Waiting(k) && s'.futs[j].task == s'.futs[k].task ensures j == k {
      assert s.Waiting(j) && s.Waiting(k);
    }
  }

  /** Dropping or timing out a pending future moves no ticket. */
  lemma KillInv(cfg: Config, s: State, k: nat, st: FutState)
    requires TicketsConserved(cfg, s) && OneAcquirePerTask(s) && s.Live(k) && (st == Dropped || st == TimedOut)
    ensures var s' := s.(futs := SetState(s.futs, k, st));
            TicketsConserved(cfg, s') && OneAcquirePerTask(s')
  {
    var s' := s.(futs := SetState(s.futs, k, st));
    SameTickets(cfg, s, s') by { assert forall l :: GrantedOn(s', l) == GrantedOn(s, l); }
    FewerWaiting(s, s');
  }

  lemma CreateInv(cfg: Config, s: State, task: nat)
    requires TicketsConserved(cfg, s) && OneAcquirePerTask(s) && !s.Outstanding(task)
    ensures var s' := s.(futs := s.futs + [Fut(task, Pending)]);
            TicketsConserved(cfg, s') && OneAcquirePerTask(s')
  {
    var s' := s.(futs := s.futs + [Fut(task, Pending)]);
    SameTickets(cfg, s, s') by { assert forall l :: GrantedOn(s', l) == GrantedOn(s, l); }
    forall k: nat | s'.Waiting(k) ensures s'.futs[k].task !in s'.holders { assert k == |s.futs| || s.Waiting(k); }
    forall j: nat, k: nat | s'.Waiting(j) && s'.Waiting(k) && s'.futs[j].task == s'.futs[k].task ensures j == k {
      assert (j == |s.futs| || s.Waiting(j)) && (k == |s.futs| || s.Waiting(k));
    }
  }

  lemma OverflowInv(cfg: Config, s: State)
    requires Inv(cfg, s)
    ensures Inv(cfg, OverflowStep(cfg, s).0)
    ensures forall t: nat :: !s.Outstanding(t) ==> !OverflowStep(cfg, s).0.Outstanding(t)
  {
    if cfg.dropOldest {
      var i := FirstLive(s.q, s.futs);
      var s' := OverflowStep(cfg, s).0;
      var n := if i < |s.q| then i + 1 else |s.q|;
      var s1 := Pop(s, n);
      SameTickets(cfg, s, s1);
      FewerWaiting(s, s1);
      if i < |s.q| {
        assert s1.Live(s.q[i]);
        KillInv(cfg, s1, s.q[i], Dropped);
      }
      forall k: nat | s'.Parked(k) ensures k < |s'.futs| { PopParked(s, n, k); }
      forall k: nat | s'.Live(k) ensures s'.Parked(k) { assert s.Live(k); PopParked(s, n, k); }
      forall t: nat | s'.Outstanding(t) ensures s.Outstanding(t) {
        if t !in s'.holders {
          var k: nat :| s'.Waiting(k) && s'.futs[k].task == t;
          assert s.Waiting(k) && s.futs[k].task == t;
        }
      }
    }
  }

  lemma EnqueueInv(cfg: Config, s: State, task: nat)
    requires Inv(cfg, s) && !s.Outstanding(task)
    ensures Inv(cfg, Put(cfg, s.(futs := s.futs + [Fut(task, Pending)]), |s.futs|))
  {
    CreateInv(cfg, s, task);
    var k := |s.futs|;
    var s2 := s.(futs := s.futs + [Fut(task, Pending)]);
    var s3 := Put(cfg, s2, k);
    SameTickets(cfg, s2, s3);
    FewerWaiting(s2, s3);
    forall j: nat | s3.Parked(j) ensures j < |s3.futs| { PutParked(cfg, s2, k, j); assert s2.Parked(j) == s.Parked(j); }
    forall j: nat | s3.Live(j) ensures s3.Parked(j) {
      PutParked(cfg, s2, k, j);
      assert j == k || s.Live(j);
      assert s2.Parked(j) == s.Parked(j);
    }
  }

  lemma AcquireInv(cfg: Config, s: State, task: nat)
    requires Inv(cfg, s) && !s.Outstanding(task)
    ensures Inv(cfg, AcquireStep(cfg, s, task).0)
  {
    if cfg.g0Cap > 0 && s.free0 > 0 {
      TakeTicketInv(cfg, s, G0, task);
    } else if cfg.g1Cap > 0 && s.free1 > 0 {
      TakeTicketInv(cfg, s, G1, task);
    } else if cfg.maxQ > 0 {
      var (s1, reject) := if |s.q| >= cfg.maxQ then OverflowStep(cfg, s) else (s, false);
      OverflowInv(cfg, s);
      if !reject {
        EnqueueInv(cfg, s1, task);
      }
    }
  }

  lemma HandoverTickets(cfg: Config, s: State, task: nat)
    requires TicketsConserved(cfg, s) && task in s.holders && FirstLive(s.q, s.futs) < |s.q|
    ensures TicketsConserved(cfg, ReleaseStep(cfg, s, task))
  {
    var k := s.q[FirstLive(s.q, s.futs)];
    var s' := ReleaseStep(cfg, s, task);
    forall l ensures s'.Free(l) + |HeldOn(s', l)| + |GrantedOn(s', l)| == cfg.Cap(l) {
      HeldRemove(s, s', task, l);
      GrantedSet(s, s', k, Granted(s.holders[task]), l);
      assert s.Free(l) + |HeldOn(s, l)| + |GrantedOn(s, l)| == cfg.Cap(l);
    }
  }

  lemma HandoverParked(cfg: Config, s: State, task: nat)
    requires QueueWellFormed(cfg, s) && task in s.holders && FirstLive(s.q, s.futs) < |s.q|
    ensures QueueWellFormed(cfg, ReleaseStep(cfg, s, task))
  {
    var i := FirstLive(s.q, s.futs);
    var s', popped := ReleaseStep(cfg, s, task), Pop(s, i + 1);
    assert s'.q == popped.q && s'.putters == popped.putters && s'.woken == popped.woken;
    forall j: nat | s'.Parked(j) ensures j < |s'.futs| {
      assert popped.Parked(j);
      PopParked(s, i + 1, j);
    }
    forall j: nat | s'.Live(j) ensures s'.Parked(j) {
      assert s.Live(j);
      PopParked(s, i + 1, j);
      assert popped.Parked(j);
    }
  }

  lemma HandoverInv(cfg: Config, s: State, task: nat)
    requires Inv(cfg, s) && task in s.holders && FirstLive(s.q, s.futs) < |s.q|
    ensures Inv(cfg, ReleaseStep(cfg, s, task))
  {
    var i := FirstLive(s.q, s.futs);
    var s' := ReleaseStep(cfg, s, task);
    HandoverTickets(cfg, s, task);
    assert s.Live(s.q[i]) && s.Waiting(s.q[i]);
    FewerWaiting(s, s');
    HandoverParked(cfg, s, task);
  }

  lemma FreeTicketInv(cfg: Config, s: State, task: nat)
    requires Inv(cfg, s) && task in s.holders && FirstLive(s.q, s.futs) == |s.q|
    ensures Inv(cfg, ReleaseStep(cfg, s, task))
  {
    var s' := ReleaseStep(cfg, s, task);
    forall l ensures s'.Free(l) + |HeldOn(s', l)| + |GrantedOn(s', l)| == cfg.Cap(l) {
      HeldRemove(s, s', task, l);
      assert GrantedOn(s', l) == GrantedOn(s, l);
      assert task in HeldOn(s, s.holders[task]);
      assert s.Free(l) + |HeldOn(s, l)| + |GrantedOn(s, l)| == cfg.Cap(l);
    }
    FewerWaiting(s, s');
    forall j: nat | s'.Parked(j) ensures j < |s'.futs| { PopParked(s, |s.q|, j); }
    forall j: nat | s'.Live(j) ensures s'.Parked(j) { assert s.Live(j); PopParked(s, |s.q|, j); }
  }

  lemma WakeupInv(cfg: Config, s: State, k: nat)
    requires Inv(cfg, s) && k < |s.futs| && s.futs[k].state.Granted?
    ensures Inv(cfg, WakeupStep(s, k))
  {
    var layer, task := s.futs[k].state.layer, s.futs[k].task;
    var s' := WakeupStep(s, k);
    assert s.Waiting(k);
    assert TicketsConserved(cfg, s') by {
      forall l ensures s'.Free(l) + |HeldOn(s', l)| + |GrantedOn(s', l)| == cfg.Cap(l) {
        HeldAdd(s, s', layer, task, l);
        GrantedSet(s, s', k, Resumed, l);
        assert s.Free(l) + |HeldOn(s, l)| + |GrantedOn(s, l)| == cfg.Cap(l);
      }
    }
    assert OneAcquirePerTask(s') by {
      forall j: nat | s'.Waiting(j) ensures s'.futs[j].task !in s'.holders { assert s.Waiting(j); }
      forall i: nat, j: nat | s'.Waiting(i) && s'.Waiting(j) && s'.futs[i].task == s'.futs[j].task ensures i == j {
        assert s.Waiting(i) && s.Waiting(j);
      }
    }
    assert QueueWellFormed(cfg, s') by {
      assert forall j: nat :: s'.Live(j) == s.Live(j) && s'.Parked(j) == s.Parked(j);
    }
  }

  lemma PutResumesInv(cfg: Config, s: State)
    requires Inv(cfg, s) && s.woken != []
    ensures Inv(cfg, Put(cfg, s.(woken := s.woken[1..]), s.woken[0]))
  {
    var s1 := s.(woken := s.woken[1..]);
    var s' := Put(cfg, s1, s.woken[0]);
    SameTickets(cfg, s, s');
    FewerWaiting(s, s');
    assert s.woken == [s.woken[0]] + s.woken[1..];
    assert s.Parked(s.woken[0]);
    forall j: nat ensures s'.Parked(j) <==> s.Parked(j) { PutParked(cfg, s1, s.woken[0], j); }
    assert forall j: nat :: s'.Live(j) == s.Live(j);
  }

  lemma StepInv(cfg: Config, s: State, e: Event)
    requires Inv(cfg, s)
    ensures Inv(cfg, Step(cfg, s, e))
  {
    if Enabled(s, e) {
      match e
      case Acquire(t) => AcquireInv(cfg, s, t);
      case Release(t) =>
        if t in s.holders {
          if FirstLive(s.q, s.futs) < |s.q| { HandoverInv(cfg, s, t); } else { FreeTicketInv(cfg, s, t); }
        }
      case Timeout(k) =>
        KillInv(cfg, s, k, TimedOut);
        var s' := Step(cfg, s, e);
        assert forall j: nat :: s'.Parked(j) == s.Parked(j) && (s'.Live(j) ==> s.Live(j));
      case Wakeup(k) => WakeupInv(cfg, s, k);
      case PutResumes => PutResumesInv(cfg, s);
    }
  }

  /** Token conservation over every run: nothing local bounds the semaphores, yet no gate ever has
      more tickets out than its capacity. */
  lemma {:induction false} RunInv(cfg: Config, s: State, es: seq<Event>)
    requires Inv(cfg, s)
    ensures Inv(cfg, Run(cfg, s, es))
    decreases |es|
  {
    if es != [] {
      StepInv(cfg, s, es[0]);
      RunInv(cfg, Step(cfg, s, es[0]), es[1..]);
    }
  }

  lemma EntriesExist(cfg: Config, s: State)
    requires QueueWellFormed(cfg, s)
    ensures forall i :: 0 <= i < |s.q| ==> s.q[i] < |s.futs|
  {
    forall i | 0 <= i < |s.q| ensures s.q[i] < |s.futs| { assert s.Parked(s.q[i]); }
  }

  lemma TicketsWithinCap(cfg: Config, s: State)
    requires TicketsConserved(cfg, s)
    ensures s.free0 <= cfg.g0Cap && s.free1 <= cfg.g1Cap
  {
    assert s.Free(G0) + |HeldOn(s, G0)| + |GrantedOn(s, G0)| == cfg.Cap(G0);
    assert s.Free(G1) + |HeldOn(s, G1)| + |GrantedOn(s, G1)| == cfg.Cap(G1);
  }

  lemma HolderHasCap(cfg: Config, s: State, task: nat)
    requires TicketsConserved(cfg, s) && task in s.holders
    ensures cfg.Cap(s.holders[task]) > 0
  {
    var layer := s.holders[task];
    assert task in HeldOn(s, layer);
    assert s.Free(layer) + |HeldOn(s, layer)| + |GrantedOn(s, layer)| == cfg.Cap(layer);
  }

  /** Admitted requests (recorded or about to be) plus free tickets equal the capacity of each gate,
      so no more than g0Cap + g1Cap requests are ever admitted at once; the queue stays in bounds. */
  lemma TokenConservation(cfg: Config, es: seq<Event>)
    ensures var s := Run(cfg, Init(cfg), es);
            && (forall layer :: s.Free(layer) + |HeldOn(s, layer)| + |GrantedOn(s, layer)| == cfg.Cap(layer))
            && |s.holders| + |GrantedOn(s, G0)| + |GrantedOn(s, G1)| <= cfg.g0Cap + cfg.g1Cap
            && |s.q| <= if cfg.maxQ > 0 then cfg.maxQ else 0
  {
    InitInv(cfg);
    RunInv(cfg, Init(cfg), es);
    var s := Run(cfg, Init(cfg), es);
    assert s.holders.Keys == HeldOn(s, G0) + HeldOn(s, G1);
    assert HeldOn(s, G0) !! HeldOn(s, G1);
    assert s.Free(G0) + |HeldOn(s, G0)| + |GrantedOn(s, G0)| == cfg.g0Cap;
    assert s.Free(G1) + |HeldOn(s, G1)| + |GrantedOn(s, G1)| == cfg.g1Cap;
  }

  // ---------------------------------------------------------------------------
  // What acquires and releases mean
  // ---------------------------------------------------------------------------

  /** Which outcome an arrival gets, from the state before. */
  ghost predicate RightOutcome(cfg: Config, s: State, out: Outcome) {
    && (out == Admitted(G0) <==> s.free0 > 0)
    && (out == Admitted(G1) <==> s.free0 == 0 && s.free1 > 0)
    && (out == QueueDisabled <==> s.free0 == 0 && s.free1 == 0 && cfg.maxQ <= 0)
    && (out.Suspended? <==>
          s.free0 == 0 && s.free1 == 0 && cfg.maxQ > 0 && |s.q| == cfg.maxQ && !cfg.dropOldest && cfg.block)
  }

  /** And what it finds done: a ticket taken and recorded, a future at the end of the queue or of the
      suspended arrivals, or nothing. */
  ghost predicate RightEffect(s: State, task: nat, out: Outcome, s': State) {
    match out
    case Admitted(layer) =>
      && s'.Free(layer) == s.Free(layer) - 1 && (forall l :: l != layer ==> s'.Free(l) == s.Free(l))
      && s'.holders == s.holders[task := layer]
      && s'.q == s.q && s'.futs == s.futs && s'.putters == s.putters && s'.woken == s.woken
    case Queued(k) =>
      && NewFuture(s, task, k, s')
      && s'.q != [] && s'.q[|s'.q| - 1] == k && k !in s'.putters && k !in s'.woken
    case Suspended(k) =>
      && NewFuture(s, task, k, s')
      && s'.putters == s.putters + [k] && k !in s'.q && k !in s'.woken && s'.q == s.q && s'.woken == s.woken
    case QueueDisabled => s' == s
    case QueueFull => |s'.futs| == |s.futs| && NoTicketMoves(s, s')
  }

  ghost predicate NewFuture(s: State, task: nat, k: nat, s': State) {
    k == |s.futs| && |s'.futs| == k + 1 && s'.futs[k] == Fut(task, Pending) && NoTicketMoves(s, s')
  }

  ghost predicate NoTicketMoves(s: State, s': State) {
    s'.free0 == s.free0 && s'.free1 == s.free1 && s'.holders == s.holders
  }

  lemma OverflowEffect(cfg: Config, s: State)
    requires QueueWellFormed(cfg, s) && |s.q| >= cfg.maxQ > 0
    ensures var (s', reject) := OverflowStep(cfg, s);
            && NoTicketMoves(s, s') && |s'.futs| == |s.futs|
            && (forall k: nat :: s'.Parked(k) ==> k < |s.futs|)
            && (reject ==> !cfg.block)
            && (!reject ==> (cfg.PutCanBlock() && s' == s) || (cfg.dropOldest && |s'.q| < cfg.maxQ))
  {
    forall k: nat | OverflowStep(cfg, s).0.Parked(k) ensures k < |s.futs| {
      if cfg.dropOldest {
        var i := FirstLive(s.q, s.futs);
        PopParked(s, if i < |s.q| then i + 1 else |s.q|, k);
      }
    }
  }

  lemma EnqueueEffect(cfg: Config, s: State, task: nat)
    requires forall k: nat :: s.Parked(k) ==> k < |s.futs|
    ensures var k := |s.futs|;
            var s' := Put(cfg, s.(futs := s.futs + [Fut(task, Pending)]), k);
            && NewFuture(s, task, k, s') && k !in s'.woken && s'.woken == s.woken
            && (if |s.q| < cfg.maxQ then s'.q == s.q + [k] && k !in s'.putters
                else s'.putters == s.putters + [k] && k !in s'.q && s'.q == s.q)
  {
    assert !s.Parked(|s.futs|);
  }

  /** In every state the invariants allow, an arrival gets the right outcome and its effect. */
  lemma AcquireMeaning(cfg: Config, s: State, task: nat)
    requires Inv(cfg, s)
    ensures var (s', out) := AcquireStep(cfg, s, task);
            RightOutcome(cfg, s, out) && RightEffect(s, task, out, s')
  {
    TicketsWithinCap(cfg, s);
    if s.free0 == 0 && s.free1 == 0 && cfg.maxQ > 0 {
      var (s1, reject) := if |s.q| >= cfg.maxQ then OverflowStep(cfg, s) else (s, false);
      if |s.q| >= cfg.maxQ {
        OverflowEffect(cfg, s);
      }
      if !reject {
        EnqueueEffect(cfg, s1, task);
      }
    }
  }

  /** So after every run. */
  lemma OutcomesOverRuns(cfg: Config, es: seq<Event>, task: nat)
    ensures var s := Run(cfg, Init(cfg), es);
            var (s', out) := AcquireStep(cfg, s, task);
            RightOutcome(cfg, s, out) && RightEffect(s, task, out, s')
  {
    InitInv(cfg);
    RunInv(cfg, Init(cfg), es);
    AcquireMeaning(cfg, Run(cfg, Init(cfg), es), task);
  }

  /** What a release by a task with a ticket does: the first live entry of the queue, at place `i`, is
      handed the ticket and everything up to it leaves the queue; with no live entry the queue is
      emptied and the ticket is free. */
  ghost predicate RightRelease(s: State, task: nat, i: nat, s': State)
    requires task in s.holders && i <= |s.q|
  {
    var layer := s.holders[task];
    && s'.holders == s.holders - {task} && |s'.futs| == |s.futs|
    && (forall j :: 0 <= j < i ==> !s.Live(s.q[j]))
    && if i < |s.q| then
         && s.Live(s.q[i]) && s'.q == s.q[i + 1..] && s'.free0 == s.free0 && s'.free1 == s.free1
         && s'.futs[s.q[i]] == Fut(s.futs[s.q[i]].task, Granted(layer))
         && (forall k :: 0 <= k < |s.futs| && k != s.q[i] ==> s'.futs[k] == s.futs[k])
       else
         && s'.q == [] && s'.futs == s.futs
         && s'.Free(layer) == s.Free(layer) + 1 && (forall l :: l != layer ==> s'.Free(l) == s.Free(l))
  }

  lemma HandoverMeaning(cfg: Config, s: State, task: nat, i: nat)
    requires task in s.holders && i == FirstLive(s.q, s.futs) < |s.q|
    ensures RightRelease(s, task, i, ReleaseStep(cfg, s, task))
  {
    var k, layer := s.q[i], s.holders[task];
    var s' := ReleaseStep(cfg, s, task);
    assert s'.futs == SetState(s.futs, k, Granted(layer));
    assert s'.q == s.q[i + 1..];
  }

  lemma FreeingMeaning(cfg: Config, s: State, task: nat)
    requires task in s.holders && FirstLive(s.q, s.futs) == |s.q| && cfg.Cap(s.holders[task]) > 0
    ensures RightRelease(s, task, |s.q|, ReleaseStep(cfg, s, task))
  {
    var s' := ReleaseStep(cfg, s, task);
    assert s'.q == [] && s'.futs == s.futs;
  }

  lemma ReleaseMeaning(cfg: Config, s: State, task: nat) returns (i: nat)
    requires TicketsConserved(cfg, s) && task in s.holders
    ensures i <= |s.q| && RightRelease(s, task, i, ReleaseStep(cfg, s, task))
  {
    HolderHasCap(cfg, s, task);
    i := FirstLive(s.q, s.futs);
    if i < |s.q| {
      HandoverMeaning(cfg, s, task, i);
    } else {
      FreeingMeaning(cfg, s, task);
    }
  }

  /** After every run, in every configuration. */
  lemma ReleasesOverRuns(cfg: Config, es: seq<Event>, task: nat)
    ensures var s := Run(cfg, Init(cfg), es);
            var s' := ReleaseStep(cfg, s, task);
            if task in s.holders then exists i: nat :: i <= |s.q| && RightRelease(s, task, i, s') else s' == s
  {
    InitInv(cfg);
    RunInv(cfg, Init(cfg), es);
    var s := Run(cfg, Init(cfg), es);
    if task in s.holders {
      var i := ReleaseMeaning(cfg, s, task);
    }
  }

  // ---------------------------------------------------------------------------
  // The controller itself
  // ---------------------------------------------------------------------------

  lemma PopOneMore(s: State, n: nat)
    requires n < |s.q|
    ensures Pop(Pop(s, n), 1) == Pop(s, n + 1)
  {
    var w := if n < |s.putters| then n else |s.putters|;
    var p := s.putters[w..];
    if n < |s.putters| {
      assert s.putters[..n + 1] == s.putters[..n] + p[..1];
      assert s.putters[n + 1..] == p[1..];
      assert (s.woken + s.putters[..n]) + p[..1] == s.woken + (s.putters[..n] + p[..1]);
    } else {
      assert s.woken + s.putters + p[..0] == s.woken + s.putters;
    }
    assert s.q[n..][1..] == s.q[n + 1..];
  }

  lemma PopNone(s: State)
    ensures Pop(s, 0) == s
  {
    assert s.woken + s.putters[..0] == s.woken;
  }

  /** What the loop that looks for the first live entry sees next. */
  lemma NextEntry(s: State, n: nat)
    requires n <= FirstLive(s.q, s.futs) && n < |s.q| && s.q[n] < |s.futs|
    ensures |Pop(s, n).q| == |s.q| - n && Pop(s, n).q[0] == s.q[n] && Pop(s, n).futs == s.futs
    ensures s.futs[s.q[n]].state == Pending <==> n == FirstLive(s.q, s.futs)
  {}

  class QueueGate {
    const cfg: Config
    var g0: nat                     // tickets left in the Gate-0 semaphore
    var g1: nat                     // tickets left in the Gate-1 semaphore
    var q: seq<nat>
    var holders: map<nat, Layer>
    var futs: seq<Fut>
    var putters: seq<nat>
    var woken: seq<nat>

    ghost function Abs(): State
      reads this
    {
      State(g0, g1, q, holders, futs, putters, woken)
    }

    ghost predicate Valid()
      reads this
    {
      Inv(cfg, Abs())
    }

    constructor (cfg: Config)
      ensures Valid() && this.cfg == cfg && Abs() == Init(cfg)
    {
      this.cfg := cfg;
      g0, g1 := cfg.g0Cap, cfg.g1Cap;
      q, holders, futs, putters, woken := [], map[], [], [], [];
      new;
      InitInv(cfg);
    }

    /** `Queue.get` on a non-empty queue: no suspension, and one suspended putter is woken. */
    method Get() returns (k: nat)
      requires q != []
      modifies this
      ensures k == old(q)[0] && Abs() == Pop(old(Abs()), 1)
    {
      k := q[0];
      q := q[1..];
      if putters != [] {
        woken := woken + [putters[0]];
        putters := putters[1..];
      }
      assert old(putters) != [] ==> old(putters)[..1] == [old(putters)[0]];
      assert old(putters) == [] ==> old(woken) + old(putters)[..0] == old(woken);
    }

    method Enqueue(k: nat)
      modifies this
      ensures Abs() == Put(cfg, old(Abs()), k)
    {
      if |q| >= cfg.maxQ {
        putters := putters + [k];
      } else {
        q := q + [k];
      }
    }

    method TryDirectGate(layer: Layer, task: nat) returns (admitted: bool)
      modifies this
      ensures admitted == (cfg.Cap(layer) > 0 && old(Abs()).Free(layer) > 0)
      ensures Abs() == if admitted then TakeTicket(old(Abs()), layer, task) else old(Abs())
    {
      admitted := cfg.Cap(layer) > 0 && (if layer == G0 then g0 else g1) > 0;
      if admitted {
        if layer == G0 { g0 := g0 - 1; } else { g1 := g1 - 1; }
        holders := holders[task := layer];
      }
    }

    /** The loop both `release` and the overflow policy run: take entries off the queue up to and
        including the first one whose future is still pending. */
    method PopToLive() returns (found: bool, k: nat)
      requires forall i :: 0 <= i < |q| ==> q[i] < |futs|
      modifies this
      ensures var s := old(Abs());
              var i := FirstLive(s.q, s.futs);
              && found == (i < |s.q|)
              && (found ==> k == s.q[i] && Abs() == Pop(s, i + 1))
              && (!found ==> Abs() == Pop(s, |s.q|))
    {
      ghost var s := Abs();
      ghost var live := FirstLive(s.q, s.futs);
      ghost var n := 0;
      PopNone(s);
      found, k := false, 0;
      while q != []
        invariant n <= live && n <= |s.q| && |q| == |s.q| - n
        invariant Abs() == Pop(s, n)
        decreases |q|
      {
        NextEntry(s, n);
        PopOneMore(s, n);
        k := Get();
        if futs[k].state == Pending {
          found := true;
          return;
        }
        n := n + 1;
      }
    }

    method HandleQueueFull() returns (reject: bool)
      requires Valid()
      modifies this
      ensures (Abs(), reject) == OverflowStep(cfg, old(Abs()))
    {
      if !cfg.dropOldest {
        return !cfg.block;
      }
      EntriesExist(cfg, Abs());
      var dropped, k := PopToLive();
      if dropped {
        futs := SetState(futs, k, Dropped);
      }
      reject := !dropped && !cfg.block;
    }

    method Acquire(task: nat) returns (out: Outcome)
      requires Valid() && !Abs().Outstanding(task)
      modifies this
      ensures Valid() && (Abs(), out) == AcquireStep(cfg, old(Abs()), task)
      ensures RightOutcome(cfg, old(Abs()), out) && RightEffect(old(Abs()), task, out, Abs())
    {
      ghost var s := Abs();
      AcquireInv(cfg, s, task);
      AcquireMeaning(cfg, s, task);
      var direct := TryDirectGate(G0, task);
      if direct {
        return Admitted(G0);
      }
      direct := TryDirectGate(G1, task);
      if direct {
        return Admitted(G1);
      }
      if cfg.maxQ <= 0 {
        return QueueDisabled;
      }
      if |q| >= cfg.maxQ {
        var reject := HandleQueueFull();
        if reject {
          return QueueFull;
        }
      }
      var k := |futs|;
      futs := futs + [Fut(task, Pending)];
      out := if |q| < cfg.maxQ then Queued(k) else Suspended(k);
      Enqueue(k);
    }

    method GiveBack(layer: Layer)
      modifies this
      ensures Abs() == GiveTicket(cfg, old(Abs()), layer)
    {
      if cfg.Cap(layer) > 0 {
        if layer == G0 { g0 := g0 + 1; } else { g1 := g1 + 1; }
      }
    }

    method Release(task: nat)
      requires Valid()
      modifies this
      ensures Abs() == ReleaseStep(cfg, old(Abs()), task)
      ensures Valid()
    {
      ghost var s := Abs();
      if task in holders {
        var layer := holders[task];
        assert forall i :: 0 <= i < |q| ==> q[i] < |futs| by { EntriesExist(cfg, s); }
        holders := holders - {task};
        var found, k := PopToLive();
        if found {
          futs := SetState(futs, k, Granted(layer));
        } else {
          GiveBack(layer);
        }
      }
      assert Abs() == ReleaseStep(cfg, s, task);
      assert Inv(cfg, ReleaseStep(cfg, s, task)) by { StepInv(cfg, s, Event.Release(task)); }
    }

    /** The TimeoutError branch of `_wait_for_wakeup`. */
    method WaitTimesOut(k: nat)
      requires Valid() && Enabled(Abs(), Timeout(k))
      modifies this
      ensures Valid() && Abs() == Step(cfg, old(Abs()), Timeout(k))
    {
      StepInv(cfg, Abs(), Timeout(k));
      futs := SetState(futs, k, TimedOut);
    }

    /** The normal branch of `_wait_for_wakeup`, and `_inherit_occupy`. */
    method InheritOccupy(k: nat)
      requires Valid() && Enabled(Abs(), Wakeup(k))
      modifies this
      ensures Valid() && Abs() == Step(cfg, old(Abs()), Wakeup(k))
      ensures holders == old(holders)[old(futs)[k].task := old(futs)[k].state.layer]
    {
      StepInv(cfg, Abs(), Wakeup(k));
      holders := holders[futs[k].task := futs[k].state.layer];
      futs := SetState(futs, k, Resumed);
    }

    /** The oldest woken putter runs again inside `put`. */
    method PutResumes()
      requires Valid() && Enabled(Abs(), Event.PutResumes)
      modifies this
      ensures Valid() && Abs() == Step(cfg, old(Abs()), Event.PutResumes)
    {
      StepInv(cfg, Abs(), Event.PutResumes);
      var k := woken[0];
      woken := woken[1..];
      Enqueue(k);
    }
  }
}
