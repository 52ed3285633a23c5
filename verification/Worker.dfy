/** The worker's heartbeat loop (wings_control/distributed/worker.py) against the master's monitor:
    one timed run of both. */
module Worker {
  import opened Common
  import opened Monitor

  const HEARTBEAT_INTERVAL := 30
  const MAX_BACKOFF := 300
  const REQUEST_TIMEOUT := 10.0

  /** How long the worker waits after an attempt that left `failures` consecutive failures. */
  function Wait(failures: nat): (w: nat)
    ensures w == match failures case 0 => 30 case 1 => 60 case 2 => 120 case 3 => 240 case _ => 300
  {
    if failures == 0 then HEARTBEAT_INTERVAL
    else
      var w := HEARTBEAT_INTERVAL * Pow2(failures);
      PowAtLeast(failures);
      if w < MAX_BACKOFF then w else MAX_BACKOFF
  }

  lemma {:induction false} PowAtLeast(n: nat)
    ensures n >= 4 ==> Pow2(n) >= 16
    ensures n == 1 ==> Pow2(n) == 2
    ensures n == 2 ==> Pow2(n) == 4
    ensures n == 3 ==> Pow2(n) == 8
  {
    if n > 4 {
      PowAtLeast(n - 1);
    } else {
      assert Pow2(0) == 1 && Pow2(1) == 2 && Pow2(2) == 4 && Pow2(3) == 8 && Pow2(4) == 16;
    }
  }

  /** Failed attempts at the end of a history of outcomes. */
  function FailuresSince(ok: seq<bool>): nat {
    if ok == [] || ok[|ok| - 1] then 0 else 1 + FailuresSince(ok[..|ok| - 1])
  }

  /** `send_heartbeat`: the waits it chooses, for any sequence of request outcomes. */
  method SendHeartbeat(ok: seq<bool>) returns (waits: seq<nat>)
    ensures |waits| == |ok|
    ensures forall i :: 0 <= i < |ok| ==> waits[i] == Wait(FailuresSince(ok[..i + 1]))
  {
    var failures := 0;
    waits := [];
    for n := 0 to |ok|
      invariant failures == FailuresSince(ok[..n])
      invariant |waits| == n && forall i :: 0 <= i < n ==> waits[i] == Wait(FailuresSince(ok[..i + 1]))
    {
      assert ok[..n + 1][..n] == ok[..n];
      if ok[n] {
        failures := 0;
      } else {
        failures := failures + 1;
      }
      if failures > 0 {
        PowAtLeast(failures);
        var backoff := HEARTBEAT_INTERVAL * Pow2(failures);
        waits := waits + [if backoff < MAX_BACKOFF then backoff else MAX_BACKOFF];
      } else {
        waits := waits + [HEARTBEAT_INTERVAL];
      }
    }
  }

  // ---------------------------------------------------------------------------
  // Worker and monitor on one clock
  // ---------------------------------------------------------------------------

  /** From its registration until the first request the worker is `Registering`: an attempt the master
      has recorded may still look like a failure to the worker, which then tries again. */
  datatype Phase =
    | Registering(since: real)
    | Waiting(since: real, failures: nat)
    | Sending(since: real, failures: nat, delivered: bool)

  /** `table` holds at most the worker's own entry. */
  datatype State = State(now: real, worker: Phase, table: Table, lastRead: seq<real>)

  datatype Move =
    | Begin                      // a request starts
    | Deliver                    // the master records the heartbeat
    | Succeed                    // the request returns
    | Fail                       // the request raises, delivered or not
    | CheckNow(read: real)       // the monitor checks with an earlier clock reading

  const ID := "worker"

  /** What the environment may do: a registered worker sends its first heartbeat within `lag` seconds,
      a wait overshoots by at most `slack` seconds, and no more than `bound` requests fail in a row. */
  datatype Limits = Limits(bound: nat, slack: real, lag: real)

  ghost predicate Sane(l: Limits) {
    l.slack >= 0.0 && l.lag >= 0.0
  }

  function Failures(w: Phase): nat {
    if w.Registering? then 0 else w.failures
  }

  /** When the current phase ends at the latest. */
  function Deadline(w: Phase, l: Limits): real {
    match w
    case Registering(since) => since + l.lag
    case Waiting(since, f) => since + Wait(f) as real + l.slack
    case Sending(since, _, _) => since + REQUEST_TIMEOUT
  }

  function Apply(s: State, m: Move, at: real): State {
    match m
    case Begin => s.(now := at, worker := Sending(at, Failures(s.worker), false))
    case Deliver =>
      s.(now := at, table := Monitor.Step(s.table, Heartbeat(ID, at, 0.0)),
         worker := Sending(s.worker.since, Failures(s.worker), true))
    case Succeed => s.(now := at, worker := Waiting(at, 0))
    case Fail => s.(now := at, worker := Waiting(at, Failures(s.worker) + 1))
    case CheckNow(read) => s.(now := at, table := CheckTable(s.table, read), lastRead := [read])
  }

  /** Time passes until `at` and then `m` happens. */
  ghost predicate Possible(s: State, m: Move, at: real, l: Limits) {
    && s.now <= at <= Deadline(s.worker, l)
    && match m
       case Begin => s.worker.Registering? ||
            (s.worker.Waiting? && at >= s.worker.since + Wait(s.worker.failures) as real)
       case Deliver => s.worker.Sending?
       case Succeed => s.worker.Sending? && s.worker.delivered
       case Fail => s.worker.Sending? && s.worker.failures < l.bound
       case CheckNow(read) => read <= at && (s.lastRead != [] ==> read >= s.lastRead[0] + CHECK_INTERVAL)
  }

  /** The master has just registered the worker. */
  ghost predicate Started(s: State) {
    s.worker == Registering(s.now) && s.table == map[ID := Node(s.now, 0, 0.0)]
  }

  ghost predicate PossibleRun(s: State, ms: seq<(Move, real)>, l: Limits)
    decreases |ms|
  {
    ms == [] || (Possible(s, ms[0].0, ms[0].1, l) && PossibleRun(Apply(s, ms[0].0, ms[0].1), ms[1..], l))
  }

  ghost function After(s: State, ms: seq<(Move, real)>): State
    decreases |ms|
  {
    if ms == [] then s else After(Apply(s, ms[0].0, ms[0].1), ms[1..])
  }

  /** Whatever happens within these limits, the worker stays in the master's table. */
  ghost predicate NeverRemoved(l: Limits) {
    forall s: State, ms: seq<(Move, real)> :: Started(s) && PossibleRun(s, ms, l) ==> ID in After(s, ms).table
  }

  /** The longest silence before the next request starts, after `failures` failures in a row. */
  function LongestQuiet(failures: nat, l: Limits): real {
    if failures == 0 then
      var usual := REQUEST_TIMEOUT + Wait(0) as real + l.slack;
      if l.lag > usual then l.lag else usual
    else LongestQuiet(failures - 1, l) + REQUEST_TIMEOUT + Wait(failures) as real + l.slack
  }

  lemma {:induction false} QuietGrows(m: nat, n: nat, l: Limits)
    requires Sane(l) && m <= n
    ensures LongestQuiet(m, l) <= LongestQuiet(n, l)
    ensures m < n ==> LongestQuiet(m, l) < LongestQuiet(n, l)
    decreases n
  {
    if m < n {
      QuietGrows(m, n - 1, l);
    }
  }

  /** Silence so long that no 60th check can have come is harmless. */
  ghost predicate Tolerable(l: Limits) {
    LongestQuiet(l.bound, l) + REQUEST_TIMEOUT <= 1815.0
  }

  /** The worker's deadlines in terms of the last heartbeat the master recorded, and the monitor's
      counter in terms of the silence it has seen. */
  ghost predicate Inv(s: State, l: Limits) {
    && ID in s.table
    && CountedSilence(s.table, s.lastRead) && s.table[ID].missed < MAX_MISSED
    && Failures(s.worker) <= l.bound
    && Deadline(s.worker, l) - s.table[ID].lastHeartbeat
       <= LongestQuiet(Failures(s.worker), l) + (if s.worker.Sending? then REQUEST_TIMEOUT else 0.0)
    && (s.worker.Sending? && s.worker.delivered ==> s.worker.since <= s.table[ID].lastHeartbeat)
    && s.worker.since <= s.now
  }

  lemma MoveKeepsInv(s: State, m: Move, at: real, l: Limits)
    requires Sane(l) && Tolerable(l) && Inv(s, l) && Possible(s, m, at, l)
    ensures Inv(Apply(s, m, at), l)
  {
    QuietGrows(0, Failures(s.worker), l);
    if m.CheckNow? {
      QuietGrows(Failures(s.worker), l.bound, l);
      assert m.read - s.table[ID].lastHeartbeat <= 1815.0;
    }
  }

  lemma {:induction false} RunStaysListed(s: State, ms: seq<(Move, real)>, l: Limits)
    requires Sane(l) && Tolerable(l) && Inv(s, l) && PossibleRun(s, ms, l)
    ensures ID in After(s, ms).table
    decreases |ms|
  {
    if ms != [] {
      MoveKeepsInv(s, ms[0].0, ms[0].1, l);
      RunStaysListed(Apply(s, ms[0].0, ms[0].1), ms[1..], l);
    }
  }

  // ---------------------------------------------------------------------------
  // The worst run
  // ---------------------------------------------------------------------------

  /** Clock readings of a monitor whose 60th check comes just in time for the worst run. */
  function CheckAt(l: Limits, k: nat): real {
    var gap := LongestQuiet(l.bound, l) + REQUEST_TIMEOUT - 1815.0;
    45.0 + (if gap < 30.0 then gap else 30.0) + 30.0 * k as real
  }

  /** `k` checks have found the node late, and the worker uses up every limit it has. */
  ghost predicate Doomed(s: State, k: nat, l: Limits) {
    && k < 60 && s.table == map[ID := Node(0.0, k, 0.0)]
    && s.lastRead == (if k == 0 then [] else [CheckAt(l, k - 1)])
    && s.now <= CheckAt(l, k) && s.now <= Deadline(s.worker, l)
    && Failures(s.worker) <= l.bound
    && match s.worker
       case Registering(since) => since == 0.0 && l.lag == LongestQuiet(0, l)
       case Waiting(since, f) => Deadline(s.worker, l) == LongestQuiet(f, l)
       case Sending(since, f, delivered) =>
         if delivered then since == 0.0 && f == 0 && 40.0 + l.slack == LongestQuiet(0, l)
         else since == LongestQuiet(f, l)
  }

  function PhasesLeft(w: Phase, l: Limits): int {
    match w
    case Registering(_) => 2 * l.bound + 1
    case Waiting(_, f) => 2 * (l.bound - f) + 1
    case Sending(_, f, delivered) => if delivered then 2 * l.bound + 2 else 2 * (l.bound - f)
  }

  /** What the worker does when its phase ends. */
  function NextMove(w: Phase): Move {
    if !w.Sending? then Begin else if w.delivered then Succeed else Fail
  }

  /** The worker's phase ends before the next check. */
  lemma PhaseEnds(s: State, k: nat, l: Limits)
    requires Sane(l) && !Tolerable(l) && Doomed(s, k, l) && Deadline(s.worker, l) < CheckAt(l, k)
    ensures var at, m := Deadline(s.worker, l), NextMove(s.worker);
            && Possible(s, m, at, l) && Doomed(Apply(s, m, at), k, l)
            && 0 <= PhasesLeft(Apply(s, m, at).worker, l) < PhasesLeft(s.worker, l)
  {
    if s.worker.Sending? && !s.worker.delivered {
      assert CheckAt(l, k) <= CheckAt(l, 59) <= LongestQuiet(l.bound, l) + REQUEST_TIMEOUT;
      if s.worker.failures == l.bound {
        assert false;
      }
    }
  }

  /** The next check comes first and finds the node late. */
  lemma CheckComes(s: State, k: nat, l: Limits)
    requires Sane(l) && !Tolerable(l) && Doomed(s, k, l) && Deadline(s.worker, l) >= CheckAt(l, k)
    ensures var at := CheckAt(l, k);
            var s' := Apply(s, CheckNow(at), at);
            && Possible(s, CheckNow(at), at, l)
            && (if k + 1 < 60 then Doomed(s', k + 1, l) else ID !in s'.table)
  {
    var at := CheckAt(l, k);
    assert Late(s.table[ID], at);
    if k + 1 < 60 {
      assert CheckTable(s.table, at) == map[ID := Node(0.0, k + 1, 0.0)];
    }
  }

  lemma {:induction false} WorstRun(s: State, k: nat, l: Limits) returns (ms: seq<(Move, real)>)
    requires Sane(l) && !Tolerable(l) && Doomed(s, k, l)
    ensures PossibleRun(s, ms, l) && ID !in After(s, ms).table
    decreases 60 - k, PhasesLeft(s.worker, l)
  {
    var at, m := Deadline(s.worker, l), NextMove(s.worker);
    var rest := [];
    if at < CheckAt(l, k) {
      PhaseEnds(s, k, l);
      rest := WorstRun(Apply(s, m, at), k, l);
    } else {
      at := CheckAt(l, k);
      m := CheckNow(at);
      CheckComes(s, k, l);
      if k + 1 < 60 {
        rest := WorstRun(Apply(s, m, at), k + 1, l);
      }
    }
    ms := [(m, at)] + rest;
    assert ms[1..] == rest;
  }

  lemma WorstStart(l: Limits) returns (s: State, ms: seq<(Move, real)>)
    requires Sane(l) && !Tolerable(l)
    ensures Started(s) && PossibleRun(s, ms, l) && ID !in After(s, ms).table
  {
    s := State(0.0, Registering(0.0), map[ID := Node(0.0, 0, 0.0)], []);
    if l.lag == LongestQuiet(0, l) {
      ms := WorstRun(s, 0, l);
    } else {
      var s1 := Apply(s, Begin, 0.0);
      var s2 := Apply(s1, Deliver, 0.0);
      assert s2.table == s.table;
      var rest := WorstRun(s2, 0, l);
      ms := [(Begin, 0.0)] + ([(Deliver, 0.0)] + rest);
      assert ms[1..] == [(Deliver, 0.0)] + rest && ms[1..][1..] == rest;
    }
  }

  /** Exactly which limits keep every worker listed, over all interleavings of its requests with the
      monitor's checks: those under which it is never silent for more than 1815 seconds. */
  lemma NeverRemovedIff(l: Limits)
    requires Sane(l)
    ensures NeverRemoved(l) <==> Tolerable(l)
  {
    if Tolerable(l) {
      forall s: State, ms: seq<(Move, real)> | Started(s) && PossibleRun(s, ms, l) ensures ID in After(s, ms).table {
        QuietGrows(0, l.bound, l);
        RunStaysListed(s, ms, l);
      }
    } else {
      var s, ms := WorstStart(l);
      assert Started(s) && PossibleRun(s, ms, l);
    }
  }

  lemma QuietUpTo8(l: Limits)
    requires Sane(l)
    ensures var q := LongestQuiet(0, l);
            && LongestQuiet(5, l) == q + 1070.0 + 5.0 * l.slack
            && LongestQuiet(6, l) == q + 1380.0 + 6.0 * l.slack
            && LongestQuiet(7, l) == q + 1690.0 + 7.0 * l.slack
            && LongestQuiet(8, l) == q + 2000.0 + 8.0 * l.slack
  {
    var q := LongestQuiet(0, l);
    assert LongestQuiet(1, l) == q + 70.0 + l.slack;
    assert LongestQuiet(2, l) == q + 200.0 + 2.0 * l.slack;
    assert LongestQuiet(3, l) == q + 450.0 + 3.0 * l.slack;
    assert LongestQuiet(4, l) == q + 760.0 + 4.0 * l.slack;
  }

  /** A worker that starts its heartbeats within 40 seconds of its registration is safe exactly if no
      more than seven requests fail in a row, even when each wait overshoots by 9.375 seconds. */
  lemma SevenFailuresAreTheLimit(l: Limits)
    requires Sane(l) && l.slack <= 9.375 && l.lag <= 40.0
    ensures NeverRemoved(l) <==> l.bound <= 7
  {
    NeverRemovedIff(l);
    QuietUpTo8(l);
    if l.bound <= 7 { QuietGrows(l.bound, 7, l); } else { QuietGrows(8, l.bound, l); }
  }

  /** If every reply to its 30 registration attempts is lost but the first attempt was recorded, the
      heartbeats start up to 445 seconds late, and the limit is five. */
  lemma FiveAfterLostReplies(l: Limits)
    requires Sane(l) && l.slack <= 9.375 && l.lag == 30.0 * REQUEST_TIMEOUT + 29.0 * 5.0
    ensures NeverRemoved(l) <==> l.bound <= 5
  {
    NeverRemovedIff(l);
    QuietUpTo8(l);
    if l.bound <= 5 { QuietGrows(l.bound, 5, l); } else { QuietGrows(6, l.bound, l); }
  }

  // ---------------------------------------------------------------------------
  // How soon a silent worker is removed
  // ---------------------------------------------------------------------------

  /** The least time from a delivered heartbeat to the next request that can succeed, when `failures`
      undelivered requests fail at once in between: the waits alone. */
  function ShortestQuiet(failures: nat): nat {
    if failures == 0 then Wait(0) else ShortestQuiet(failures - 1) + Wait(failures)
  }

  /** Sum of the last `m` waits the loop chose. */
  function TotalWait(ok: seq<bool>, m: nat): nat
    requires m <= |ok|
  {
    if m == 0 then 0 else TotalWait(ok[..|ok| - 1], m - 1) + Wait(FailuresSince(ok))
  }

  /** After a success and `n` failures the loop has waited ShortestQuiet(n) since that success. */
  lemma {:induction false} WaitsAddUp(ok: seq<bool>, n: nat)
    requires n < |ok| && ok[|ok| - 1 - n] && (forall i :: |ok| - n <= i < |ok| ==> !ok[i])
    ensures FailuresSince(ok) == n && TotalWait(ok, n + 1) == ShortestQuiet(n)
  {
    if n > 0 {
      WaitsAddUp(ok[..|ok| - 1], n - 1);
    } else {
      assert TotalWait(ok[..|ok| - 1], 0) == 0;
    }
  }

  lemma {:induction false} PeriodsOf31(n: nat)
    ensures Periods(31.0, n) == 31.0 * n as real
  {
    if n > 0 {
      PeriodsOf31(n - 1);
    }
  }

  /** The clock readings of the checks in a run. */
  function CheckTimes(ms: seq<(Move, real)>): seq<real> {
    if ms == [] then [] else (if ms[0].0.CheckNow? then [ms[0].0.read] else []) + CheckTimes(ms[1..])
  }

  ghost predicate NothingDelivered(ms: seq<(Move, real)>) {
    forall i :: 0 <= i < |ms| ==> ms[i].0 != Deliver
  }

  lemma {:induction false} StaysRemoved(s: State, ms: seq<(Move, real)>)
    requires ID !in s.table
    ensures ID !in After(s, ms).table
    decreases |ms|
  {
    if ms != [] {
      StaysRemoved(Apply(s, ms[0].0, ms[0].1), ms[1..]);
    }
  }

  /** While nothing is delivered the checks alone decide whether the worker stays listed. */
  lemma {:induction false} ChecksDecide(s: State, ms: seq<(Move, real)>)
    requires ID in s.table && NothingDelivered(ms)
    ensures ID in After(s, ms).table <==> Checks(s.table[ID], CheckTimes(ms)) != []
    decreases |ms|
  {
    if ms != [] {
      var s' := Apply(s, ms[0].0, ms[0].1);
      if ms[0].0.CheckNow? {
        ChecksFirst(s.table[ID], ms[0].0.read, CheckTimes(ms[1..]));
        if Removed(s.table[ID], ms[0].0.read) {
          StaysRemoved(s', ms[1..]);
        } else {
          ChecksDecide(s', ms[1..]);
        }
      } else {
        assert CheckTimes(ms) == CheckTimes(ms[1..]);
        ChecksDecide(s', ms[1..]);
      }
    }
  }

  /** Since a success at time `from` no request has got through: the waits have gone by. */
  ghost predicate WaitedSince(w: Phase, from: real) {
    match w
    case Registering(_) => false
    case Waiting(since, f) => since >= from + (if f == 0 then 0 else ShortestQuiet(f - 1)) as real
    case Sending(since, f, delivered) => !delivered && since >= from + ShortestQuiet(f) as real
  }

  lemma {:induction false} WaitsGoBy(s: State, ms: seq<(Move, real)>, l: Limits, from: real)
    requires PossibleRun(s, ms, l) && NothingDelivered(ms) && WaitedSince(s.worker, from) && s.worker.since <= s.now
    ensures WaitedSince(After(s, ms).worker, from) && After(s, ms).worker.since <= After(s, ms).now
    decreases |ms|
  {
    if ms != [] {
      WaitsGoBy(Apply(s, ms[0].0, ms[0].1), ms[1..], l, from);
    }
  }

  /** The master has recorded the heartbeat whose request is still open. */
  ghost predicate Recorded(s: State) {
    && s.worker.Sending? && s.worker.delivered && ID in s.table
    && s.worker.since <= s.table[ID].lastHeartbeat <= s.now && s.table[ID].missed < MAX_MISSED
  }

  lemma {:induction false} QuietSum(n: nat)
    requires n >= 8
    ensures ShortestQuiet(n) >= 1950
  {
    if n > 8 {
      QuietSum(n - 1);
    } else {
      assert ShortestQuiet(4) == 750;
    }
  }

  /** Eight failures in a row with no heartbeat getting through, after one that succeeded: if the
      monitor checks at least every 31 seconds, the worker is out of the table when it tries again. */
  lemma EightFailuresRemove(s: State, at: real, ms: seq<(Move, real)>, l: Limits)
    requires Recorded(s) && PossibleRun(s, [(Succeed, at)] + ms, l) && NothingDelivered(ms)
    requires CheckTimes(ms) != [] && Regular(CheckTimes(ms), at, 31.0)
    requires var e := After(s, [(Succeed, at)] + ms);
             && e.worker.Sending? && e.worker.failures >= 8
             && e.now <= CheckTimes(ms)[|CheckTimes(ms)| - 1] + 31.0
    ensures ID !in After(s, [(Succeed, at)] + ms).table
  {
    var all := [(Succeed, at)] + ms;
    assert all[0] == (Succeed, at) && all[1..] == ms;
    var s1 := Apply(s, Succeed, at);
    WaitsGoBy(s1, ms, l, at);
    QuietSum(After(s1, ms).worker.failures);
    PeriodsOf31(59);
    LateLongEnough(s1.table[ID], CheckTimes(ms), at, 31.0);
    ChecksDecide(s1, ms);
  }
}
