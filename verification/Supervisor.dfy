/** The child supervisor of the launcher (wings_control/wings_control.py): `ManagedProc` and
    `_restart_if_needed`, polled by the main loop. */
module Supervisor {
  import opened Common

  const CRASH_THRESHOLD := 30.0
  const MAX_BACKOFF := 60

  lemma {:induction false} PowTable(n: nat)
    ensures Pow2(0) == 1 && Pow2(1) == 2 && Pow2(2) == 4 && Pow2(3) == 8 && Pow2(4) == 16 && Pow2(5) == 32
    ensures n >= 6 ==> Pow2(n) >= 64
  {
    assert Pow2(2) == 4 && Pow2(4) == 16;
    if n > 6 {
      PowTable(n - 1);
    }
  }

  /** min(2^c, 60) seconds after the c-th crash of a streak. */
  function Backoff(crashes: nat): (b: nat)
    ensures b <= MAX_BACKOFF
    ensures crashes >= 1 ==> b >= 2
    ensures b == match crashes case 0 => 1 case 1 => 2 case 2 => 4 case 3 => 8 case 4 => 16 case 5 => 32 case _ => 60
  {
    PowTable(crashes);
    if Pow2(crashes) < MAX_BACKOFF then Pow2(crashes) else MAX_BACKOFF
  }

  /** A child the operating system did start: when, and how many crashes in a row preceded it. */
  datatype Launch = Launch(at: real, streak: nat)

  datatype Proc = Proc(up: bool, crashes: nat, lastStart: real, backoffUntil: real, launches: seq<Launch>)

  /** One poll: the clock when it is first read and when it is next read, whether the child has
      exited, and whether a start would succeed. */
  datatype Poll = Poll(t1: real, t2: real, exited: bool, startOk: bool)

  /** The main loop starts the child once without recording the time. */
  function Init(t0: real, startOk: bool): Proc {
    Proc(startOk, 0, 0.0, 0.0, if startOk then [Launch(t0, 0)] else [])
  }

  /** `_start`: a failed start leaves no child. */
  function Start(p: Proc, at: real, ok: bool): Proc {
    var q := p.(up := ok, lastStart := at);
    if ok then q.(launches := q.launches + [Launch(at, p.crashes)]) else q
  }

  function RestartIfNeeded(p: Proc, x: Poll): Proc {
    if !p.up then
      if p.backoffUntil != 0.0 && x.t1 < p.backoffUntil then p else Start(p, x.t2, x.startOk)
    else if !x.exited then p
    else
      var uptime := if p.lastStart != 0.0 then x.t1 - p.lastStart else 0.0;
      if uptime < CRASH_THRESHOLD then
        p.(up := false, crashes := p.crashes + 1, backoffUntil := x.t2 + Backoff(p.crashes + 1) as real)
      else
        Start(p.(up := false, crashes := 0), x.t2, x.startOk)
  }

  function Run(t0: real, startOk: bool, xs: seq<Poll>): Proc {
    if xs == [] then Init(t0, startOk)
    else RestartIfNeeded(Run(t0, startOk, xs[..|xs| - 1]), xs[|xs| - 1])
  }

  /** The time after everything observed so far. */
  function Now(t0: real, xs: seq<Poll>): real {
    if xs == [] then t0 else xs[|xs| - 1].t2
  }

  /** The clock is positive and never runs backwards. */
  ghost predicate Monotone(t0: real, xs: seq<Poll>) {
    if xs == [] then t0 > 0.0
    else
      var n := |xs| - 1;
      Monotone(t0, xs[..n]) && Now(t0, xs[..n]) <= xs[n].t1 <= xs[n].t2
  }

  // ---------------------------------------------------------------------------
  // What every run keeps
  // ---------------------------------------------------------------------------

  /** Least distance between a launch and the one before it. */
  function Gap(streak: nat): real {
    if streak == 0 then CRASH_THRESHOLD else Backoff(streak) as real
  }

  /** Each launch either continues the streak of the one before it or starts a new one. */
  ghost predicate SpacedLaunches(ls: seq<Launch>) {
    forall i :: 0 <= i < |ls| - 1 ==>
      && (ls[i + 1].streak == ls[i].streak + 1 || ls[i + 1].streak == 0)
      && ls[i + 1].at - ls[i].at >= Gap(ls[i + 1].streak)
  }

  ghost predicate Inv(p: Proc, now: real) {
    var ls := p.launches;
    && SpacedLaunches(ls)
    && p.lastStart <= now
    && (ls == [] ==> !p.up && p.crashes == 0 && p.backoffUntil == 0.0)
    && (ls != [] ==>
          var l := ls[|ls| - 1];
          && l.at <= now
          && (p.up ==> p.crashes == l.streak && (p.lastStart == l.at || p.lastStart == 0.0))
          && (!p.up && p.crashes == 0 ==> now - l.at >= CRASH_THRESHOLD)
          && (!p.up && p.crashes > 0 ==>
                p.crashes == l.streak + 1
                && p.backoffUntil - l.at >= Backoff(p.crashes) as real && p.backoffUntil > 0.0))
  }

  lemma SnocSpaced(ls: seq<Launch>, l: Launch)
    requires SpacedLaunches(ls)
    requires ls != [] ==>
      var last := ls[|ls| - 1];
      (l.streak == last.streak + 1 || l.streak == 0) && l.at - last.at >= Gap(l.streak)
    ensures SpacedLaunches(ls + [l])
  {}

  lemma CrashInv(p: Proc, x: Poll, now: real)
    requires Inv(p, now) && 0.0 < now <= x.t1 <= x.t2 && p.up
    ensures Inv(p.(up := false, crashes := p.crashes + 1, backoffUntil := x.t2 + Backoff(p.crashes + 1) as real), x.t2)
  {}

  lemma StableExitInv(p: Proc, x: Poll, now: real)
    requires Inv(p, now) && 0.0 < now <= x.t1 <= x.t2 && p.up
    requires p.lastStart != 0.0 && x.t1 - p.lastStart >= CRASH_THRESHOLD
    ensures Inv(Start(p.(up := false, crashes := 0), x.t2, x.startOk), x.t2)
  {
    SnocSpaced(p.launches, Launch(x.t2, 0));
  }

  lemma DownStartInv(p: Proc, x: Poll, now: real)
    requires Inv(p, now) && 0.0 < now <= x.t1 <= x.t2 && !p.up
    requires p.backoffUntil == 0.0 || x.t1 >= p.backoffUntil
    ensures Inv(Start(p, x.t2, x.startOk), x.t2)
  {
    SnocSpaced(p.launches, Launch(x.t2, p.crashes));
  }

  lemma PollInv(p: Proc, x: Poll, now: real)
    requires Inv(p, now) && 0.0 < now <= x.t1 <= x.t2
    ensures Inv(RestartIfNeeded(p, x), x.t2)
  {
    if !p.up {
      if p.backoffUntil == 0.0 || x.t1 >= p.backoffUntil {
        DownStartInv(p, x, now);
      }
    } else if x.exited {
      var uptime := if p.lastStart != 0.0 then x.t1 - p.lastStart else 0.0;
      if uptime < CRASH_THRESHOLD {
        CrashInv(p, x, now);
      } else {
        StableExitInv(p, x, now);
      }
    }
  }

  lemma {:induction false} RunInv(t0: real, startOk: bool, xs: seq<Poll>)
    requires Monotone(t0, xs)
    ensures Inv(Run(t0, startOk, xs), Now(t0, xs)) && Now(t0, xs) > 0.0
  {
    if xs != [] {
      var n := |xs| - 1;
      RunInv(t0, startOk, xs[..n]);
      PollInv(Run(t0, startOk, xs[..n]), xs[n], Now(t0, xs[..n]));
    }
  }

  // ---------------------------------------------------------------------------
  // Theorems
  // ---------------------------------------------------------------------------

  /** For any polls, exit times and failing starts: successive launches are at least 2 seconds apart,
      and a launch after the c-th crash of a streak at least min(2^c, 60) seconds after the last. */
  lemma LaunchSpacing(t0: real, startOk: bool, xs: seq<Poll>, i: nat)
    requires Monotone(t0, xs)
    requires i + 1 < |Run(t0, startOk, xs).launches|
    ensures var ls := Run(t0, startOk, xs).launches;
            && ls[i + 1].at - ls[i].at >= 2.0
            && (ls[i + 1].streak > 0 ==> ls[i + 1].at - ls[i].at >= Backoff(ls[i + 1].streak) as real)
  {
    RunInv(t0, startOk, xs);
  }

  lemma {:induction false} MonotonePrefix(t0: real, xs: seq<Poll>, ys: seq<Poll>)
    requires Monotone(t0, xs + ys)
    ensures Monotone(t0, xs)
  {
    if ys == [] {
      assert xs + ys == xs;
    } else {
      assert (xs + ys)[..|xs + ys| - 1] == xs + ys[..|ys| - 1];
      MonotonePrefix(t0, xs, ys[..|ys| - 1]);
    }
  }

  /** The poll finds that the child has crashed. */
  ghost predicate Crashes(t0: real, startOk: bool, xs: seq<Poll>, x: Poll) {
    var p := Run(t0, startOk, xs);
    p.up && x.exited && Run(t0, startOk, xs + [x]).crashes == p.crashes + 1
  }

  /** `p` is still in the backoff of `before`, or its next launch waited for the end of it. */
  ghost predicate WaitsOut(before: Proc, p: Proc) {
    && before.launches <= p.launches
    && if |p.launches| == |before.launches| then
         !p.up && p.crashes == before.crashes && p.backoffUntil == before.backoffUntil
       else
         var l := p.launches[|before.launches|];
         l.at >= before.backoffUntil && l.streak == before.crashes
  }

  lemma PollWaitsOut(before: Proc, p: Proc, x: Poll)
    requires WaitsOut(before, p) && before.backoffUntil > 0.0 && x.t1 <= x.t2
    ensures WaitsOut(before, RestartIfNeeded(p, x))
  {}

  lemma {:induction false} RunWaitsOut(t0: real, startOk: bool, xs: seq<Poll>, ys: seq<Poll>)
    requires Monotone(t0, xs + ys)
    requires var p := Run(t0, startOk, xs); !p.up && p.backoffUntil > 0.0
    ensures WaitsOut(Run(t0, startOk, xs), Run(t0, startOk, xs + ys))
  {
    if ys == [] {
      assert xs + ys == xs;
    } else {
      var n := |ys| - 1;
      assert (xs + ys)[..|xs| + n] == xs + ys[..n] && (xs + ys)[|xs| + n] == ys[n];
      RunWaitsOut(t0, startOk, xs, ys[..n]);
      PollWaitsOut(Run(t0, startOk, xs), Run(t0, startOk, xs + ys[..n]), ys[n]);
    }
  }

  /** Over every run: the launch that follows a crash waits min(2^c, 60) seconds from the moment the
      crash was seen, c being the length of the streak with it, however long the child had run. */
  lemma BackoffIsWaitedOut(t0: real, startOk: bool, xs: seq<Poll>, x: Poll, ys: seq<Poll>)
    requires Monotone(t0, xs + [x] + ys) && Crashes(t0, startOk, xs, x)
    ensures var before, after := Run(t0, startOk, xs + [x]), Run(t0, startOk, xs + [x] + ys);
            && before.launches == Run(t0, startOk, xs).launches <= after.launches
            && (|after.launches| > |before.launches| ==>
                  var l := after.launches[|before.launches|];
                  l.at >= x.t2 + Backoff(before.crashes) as real && l.streak == before.crashes)
  {
    MonotonePrefix(t0, xs + [x], ys);
    assert (xs + [x])[..|xs|] == xs;
    RunInv(t0, startOk, xs);
    RunWaitsOut(t0, startOk, xs + [x], ys);
  }

  /** The backoffs of the first c crashes together. */
  function StreakTime(c: nat): nat {
    if c == 0 then 0 else StreakTime(c - 1) + Backoff(c)
  }

  lemma {:induction false} StreakTimeClosed(c: nat)
    requires c >= 5
    ensures StreakTime(c) == 62 + 60 * (c - 5)
  {
    if c > 5 {
      StreakTimeClosed(c - 1);
    } else {
      assert StreakTime(1) == 2 && StreakTime(2) == 6 && StreakTime(3) == 14 && StreakTime(4) == 30;
    }
  }

  lemma {:induction false} StreakSpan(ls: seq<Launch>, i: nat)
    requires SpacedLaunches(ls) && i < |ls| && ls[0].streak == 0
    ensures ls[i].streak <= i
    ensures ls[i].at - ls[i - ls[i].streak].at >= StreakTime(ls[i].streak) as real
  {
    if i > 0 {
      StreakSpan(ls, i - 1);
    }
  }

  lemma {:induction false} FirstLaunchIsFresh(t0: real, startOk: bool, xs: seq<Poll>)
    requires Monotone(t0, xs) && Run(t0, startOk, xs).launches != []
    ensures Run(t0, startOk, xs).launches[0].streak == 0
  {
    if xs != [] {
      var n := |xs| - 1;
      RunInv(t0, startOk, xs[..n]);
      if Run(t0, startOk, xs[..n]).launches != [] {
        FirstLaunchIsFresh(t0, startOk, xs[..n]);
      }
    }
  }

  /** A child that keeps crashing: by the launch that follows c >= 5 crashes in a row, at least
      62 + 60 (c - 5) seconds have gone by since the launch the streak began with. */
  lemma CrashLoopIsSlow(t0: real, startOk: bool, xs: seq<Poll>, i: nat)
    requires Monotone(t0, xs)
    requires var ls := Run(t0, startOk, xs).launches; i < |ls| && ls[i].streak >= 5
    ensures var ls := Run(t0, startOk, xs).launches;
            var c := ls[i].streak;
            c <= i && ls[i].at - ls[i - c].at >= 62.0 + 60.0 * (c - 5) as real
  {
    RunInv(t0, startOk, xs);
    FirstLaunchIsFresh(t0, startOk, xs);
    var ls := Run(t0, startOk, xs).launches;
    StreakSpan(ls, i);
    StreakTimeClosed(ls[i].streak);
  }

  /** A running child's start time is known unless it is the one the main loop started itself. */
  ghost predicate Stamped(p: Proc, startOk: bool) {
    && (startOk ==> p.launches != [])
    && (p.up ==>
          && p.launches != []
          && p.lastStart == if startOk && |p.launches| == 1 then 0.0 else p.launches[|p.launches| - 1].at)
  }

  lemma {:induction false} RunStamped(t0: real, startOk: bool, xs: seq<Poll>)
    ensures Stamped(Run(t0, startOk, xs), startOk)
  {
    if xs != [] {
      RunStamped(t0, startOk, xs[..|xs| - 1]);
    }
  }

  lemma {:induction false} LaunchesHaveTimes(t0: real, startOk: bool, xs: seq<Poll>)
    requires Monotone(t0, xs)
    ensures Now(t0, xs) >= t0 > 0.0
    ensures forall i :: 0 <= i < |Run(t0, startOk, xs).launches| ==> Run(t0, startOk, xs).launches[i].at > 0.0
  {
    if xs != [] {
      LaunchesHaveTimes(t0, startOk, xs[..|xs| - 1]);
    }
  }

  /** Exactly which exits count as crashes: those of children that ran less than 30 seconds, and any exit
      of the child the main loop started itself, for want of a start time. */
  lemma CrashIff(t0: real, startOk: bool, xs: seq<Poll>, x: Poll)
    requires Monotone(t0, xs + [x]) && Run(t0, startOk, xs).up && x.exited
    ensures var p, p' := Run(t0, startOk, xs), Run(t0, startOk, xs + [x]);
            && p.launches != []
            && (p'.crashes == p.crashes + 1 <==>
                  (startOk && |p.launches| == 1) || x.t1 - p.launches[|p.launches| - 1].at < 30.0)
            && (p'.crashes == p.crashes + 1 || p'.crashes == 0)
  {
    assert (xs + [x])[..|xs|] == xs;
    RunStamped(t0, startOk, xs);
    LaunchesHaveTimes(t0, startOk, xs);
  }

  /** So an exit is judged by how long the child ran exactly unless it is the first exit of a child
      that was up from the start and ran 30.0 seconds. */
  lemma MisjudgedIff(t0: real, startOk: bool, xs: seq<Poll>, x: Poll)
    requires Monotone(t0, xs + [x]) && Run(t0, startOk, xs).up && x.exited
    ensures var p := Run(t0, startOk, xs);
            && p.launches != []
            && var ran := x.t1 - p.launches[|p.launches| - 1].at;
               (Crashes(t0, startOk, xs, x) <==> ran < 30.0)
               <==> !(startOk && |p.launches| == 1 && ran >= 30.0)
  {
    CrashIff(t0, startOk, xs, x);
  }

  /** The first exit of such a child, whenever it comes, costs two seconds of backoff. */
  lemma FirstExitIsACrash(t0: real, xs: seq<Poll>, x: Poll)
    requires Monotone(t0, xs + [x]) && x.exited && (forall i :: 0 <= i < |xs| ==> !xs[i].exited)
    ensures var p := Run(t0, true, xs + [x]);
            !p.up && p.crashes == 1 && p.backoffUntil == x.t2 + 2.0
  {
    assert (xs + [x])[..|xs|] == xs;
    StillUp(t0, xs);
    assert Pow2(1) == 2;
  }

  lemma {:induction false} StillUp(t0: real, xs: seq<Poll>)
    requires forall i :: 0 <= i < |xs| ==> !xs[i].exited
    ensures Run(t0, true, xs) == Init(t0, true)
  {
    if xs != [] {
      StillUp(t0, xs[..|xs| - 1]);
    }
  }

  // ---------------------------------------------------------------------------
  // A child that is down comes up again
  // ---------------------------------------------------------------------------

  lemma RunOneMore(t0: real, startOk: bool, xs: seq<Poll>, x: Poll)
    ensures Run(t0, startOk, xs + [x]) == RestartIfNeeded(Run(t0, startOk, xs), x)
  {
    assert (xs + [x])[..|xs|] == xs;
  }

  /** Over every run: a poll that finds the child down launches it, then and there, exactly if no backoff
      is running and the start succeeds; otherwise it stays down and nothing is launched. */
  lemma RelaunchIff(t0: real, startOk: bool, xs: seq<Poll>, x: Poll)
    requires !Run(t0, startOk, xs).up
    ensures var p, p' := Run(t0, startOk, xs), Run(t0, startOk, xs + [x]);
            && (p'.up <==> (p.backoffUntil == 0.0 || x.t1 >= p.backoffUntil) && x.startOk)
            && p'.launches == (if p'.up then p.launches + [Launch(x.t2, p.crashes)] else p.launches)
            && p'.crashes == p.crashes && p'.backoffUntil == p.backoffUntil
  {
    RunOneMore(t0, startOk, xs, x);
  }

  /** Polls at which a child in backoff until `until` cannot be brought up. */
  ghost predicate TooEarlyOrFailing(ys: seq<Poll>, until: real) {
    forall i :: 0 <= i < |ys| ==> ys[i].t1 < until || !ys[i].startOk
  }

  lemma {:induction false} StaysDown(t0: real, startOk: bool, xs: seq<Poll>, ys: seq<Poll>)
    requires var p := Run(t0, startOk, xs); !p.up && p.backoffUntil > 0.0 && TooEarlyOrFailing(ys, p.backoffUntil)
    ensures var p, q := Run(t0, startOk, xs), Run(t0, startOk, xs + ys);
            !q.up && q.launches == p.launches && q.crashes == p.crashes && q.backoffUntil == p.backoffUntil
  {
    if ys == [] {
      assert xs + ys == xs;
    } else {
      var n := |ys| - 1;
      StaysDown(t0, startOk, xs, ys[..n]);
      assert xs + ys == (xs + ys[..n]) + [ys[n]];
      RelaunchIff(t0, startOk, xs + ys[..n], ys[n]);
    }
  }

  lemma CrashState(t0: real, startOk: bool, xs: seq<Poll>, x: Poll)
    requires Monotone(t0, xs + [x]) && Crashes(t0, startOk, xs, x)
    ensures var p, q := Run(t0, startOk, xs), Run(t0, startOk, xs + [x]);
            && !q.up && q.crashes == p.crashes + 1 && q.launches == p.launches
            && q.backoffUntil == x.t2 + Backoff(q.crashes) as real && q.backoffUntil > 0.0
  {
    RunOneMore(t0, startOk, xs, x);
    RunInv(t0, startOk, xs + [x]);
  }

  /** After a crash seen at poll x, the c-th of its streak: the child stays down through all polls before
      x.t2 + min(2^c, 60) and all failing starts, and the first poll at or after that time whose start
      succeeds brings it up. */
  lemma ComesUpAfterBackoff(t0: real, startOk: bool, xs: seq<Poll>, x: Poll, ys: seq<Poll>, z: Poll)
    requires Monotone(t0, xs + [x]) && Crashes(t0, startOk, xs, x)
    requires var until := x.t2 + Backoff(Run(t0, startOk, xs).crashes + 1) as real;
             TooEarlyOrFailing(ys, until) && z.t1 >= until && z.startOk
    ensures var p := Run(t0, startOk, xs);
            var down, up := Run(t0, startOk, xs + [x] + ys), Run(t0, startOk, xs + [x] + ys + [z]);
            && !down.up && down.launches == p.launches
            && up.up && up.launches == p.launches + [Launch(z.t2, p.crashes + 1)]
  {
    CrashState(t0, startOk, xs, x);
    StaysDown(t0, startOk, xs + [x], ys);
    RelaunchIff(t0, startOk, xs + [x] + ys, z);
  }

  /** A child that exits after it ran 30 seconds is launched again at once, in a new streak, if the start
      succeeds. */
  lemma StableExitRelaunches(t0: real, startOk: bool, xs: seq<Poll>, x: Poll)
    requires Monotone(t0, xs + [x]) && Run(t0, startOk, xs).up && x.exited
    requires var ls := Run(t0, startOk, xs).launches;
             !(startOk && |ls| == 1) && ls != [] && x.t1 - ls[|ls| - 1].at >= 30.0
    ensures var p, q := Run(t0, startOk, xs), Run(t0, startOk, xs + [x]);
            && (q.up <==> x.startOk) && q.crashes == 0
            && q.launches == (if x.startOk then p.launches + [Launch(x.t2, 0)] else p.launches)
  {
    RunOneMore(t0, startOk, xs, x);
    RunStamped(t0, startOk, xs);
    LaunchesHaveTimes(t0, startOk, xs);
    assert (xs + [x])[..|xs|] == xs;
  }

  lemma RunningStays(t0: real, startOk: bool, xs: seq<Poll>, x: Poll)
    requires Run(t0, startOk, xs).up && !x.exited
    ensures Run(t0, startOk, xs + [x]) == Run(t0, startOk, xs)
  {
    RunOneMore(t0, startOk, xs, x);
  }

  lemma {:induction false} BackoffIsShort(t0: real, startOk: bool, xs: seq<Poll>)
    requires Monotone(t0, xs)
    ensures Run(t0, startOk, xs).backoffUntil <= Now(t0, xs) + 60.0 && Now(t0, xs) > 0.0
  {
    if xs != [] {
      BackoffIsShort(t0, startOk, xs[..|xs| - 1]);
    }
  }

  lemma {:induction false} NoExitNoBackoff(t0: real, startOk: bool, xs: seq<Poll>, ys: seq<Poll>)
    requires forall i :: 0 <= i < |ys| ==> !ys[i].exited
    ensures Run(t0, startOk, xs + ys).backoffUntil == Run(t0, startOk, xs).backoffUntil
  {
    if ys == [] {
      assert xs + ys == xs;
    } else {
      var n := |ys| - 1;
      NoExitNoBackoff(t0, startOk, xs, ys[..n]);
      assert xs + ys == (xs + ys[..n]) + [ys[n]];
      RunOneMore(t0, startOk, xs + ys[..n], ys[n]);
    }
  }

  /** Whatever has happened up to some moment, and however the polls go after it: a poll at least a
      minute later, with no exit seen in between, finds the child running or brings it up if a start
      succeeds. */
  lemma UpWithinAMinute(t0: real, startOk: bool, xs: seq<Poll>, ys: seq<Poll>, z: Poll)
    requires Monotone(t0, xs) && (forall i :: 0 <= i < |ys| ==> !ys[i].exited)
    requires z.t1 >= Now(t0, xs) + 60.0 && z.startOk && !z.exited
    ensures Run(t0, startOk, xs + ys + [z]).up
  {
    BackoffIsShort(t0, startOk, xs);
    NoExitNoBackoff(t0, startOk, xs, ys);
    if Run(t0, startOk, xs + ys).up {
      RunningStays(t0, startOk, xs + ys, z);
    } else {
      RelaunchIff(t0, startOk, xs + ys, z);
    }
  }

  // ---------------------------------------------------------------------------
  // The managed process
  // ---------------------------------------------------------------------------

  class ManagedProc {
    var up: bool
    var crashCount: nat
    var lastStartTs: real
    var backoffUntil: real
    var launches: seq<Launch>     // the children the operating system started

    ghost function Abs(): Proc
      reads this
    {
      Proc(up, crashCount, lastStartTs, backoffUntil, launches)
    }

    constructor (t0: real, startOk: bool)
      ensures Abs() == Init(t0, startOk)
    {
      up, crashCount, lastStartTs, backoffUntil := startOk, 0, 0.0, 0.0;
      launches := if startOk then [Launch(t0, 0)] else [];
    }

    method StartChild(at: real, ok: bool)
      modifies this
      ensures Abs() == Start(old(Abs()).(lastStart := at), at, ok)
    {
      lastStartTs := at;
      up := ok;
      if ok {
        launches := launches + [Launch(at, crashCount)];
      }
    }

    method PollOnce(x: Poll)
      modifies this
      ensures Abs() == RestartIfNeeded(old(Abs()), x)
    {
      if !up {
        if backoffUntil != 0.0 && x.t1 < backoffUntil {
          return;
        }
        StartChild(x.t2, x.startOk);
        return;
      }
      if !x.exited {
        return;
      }
      var uptime := if lastStartTs != 0.0 then x.t1 - lastStartTs else 0.0;
      up := false;
      if uptime < CRASH_THRESHOLD {
        crashCount := crashCount + 1;
        var backoff := Backoff(crashCount);
        backoffUntil := x.t2 + backoff as real;
      } else {
        crashCount := 0;
        StartChild(x.t2, x.startOk);
      }
    }
  }

  /** The main loop over a series of polls. */
  method Supervise(t0: real, startOk: bool, xs: seq<Poll>) returns (p: ManagedProc)
    ensures fresh(p) && p.Abs() == Run(t0, startOk, xs)
  {
    p := new ManagedProc(t0, startOk);
    for n := 0 to |xs|
      invariant fresh(p) && p.Abs() == Run(t0, startOk, xs[..n])
    {
      assert xs[..n + 1][..n] == xs[..n];
      p.PollOnce(xs[n]);
    }
    assert xs[..|xs|] == xs;
  }
}
