/** The health state machine (wings_control/proxy/health_router.py): a fold over probe results,
    shown equal to a closed form of the probe history, and the sglang penalty score on top of it. */
module HealthRouter {
  import opened Common

  /** `timeoutMs` is HEALTH_TIMEOUT_MS, `failThreshold` FAIL_THRESHOLD, `failGraceMs` FAIL_GRACE_MS,
      `startupGraceMs` STARTUP_GRACE_MS; the last five are the SGLANG_* settings. */
  datatype Config = Config(timeoutMs: int, failThreshold: int, failGraceMs: int, startupGraceMs: int,
                           budget: real, pidGraceMs: int, decay: real, silenceMaxMs: int, timeoutMax: int)

  datatype ErrKind = NoError | ConnectError | ConnectTimeout | ReadTimeout | RequestError

  /** What one probe observed; `code` is 0 when no response arrived. */
  datatype Probe = Probe(code: int, err: ErrKind, latencyMs: int, pidAlive: bool, now: real) {
    predicate Ok() {
      code == 200
    }

    predicate IsReadTimeout() {
      code == 0 && err == ReadTimeout
    }
  }

  datatype State = State(status: int, everReady: bool, lastSuccess: Option<real>, failures: nat, backendOk: bool,
                         failScore: real, accumFailMs: int, timeouts: nat,
                         warmupExecuted: bool, warmups: nat)

  function Init(): State {
    State(0, false, None, 0, false, 0.0, 0, 0, false, 0)
  }

  predicate ShouldDegrade(cfg: Config, failures: int) {
    failures >= cfg.failThreshold && failures * cfg.timeoutMs >= cfg.failGraceMs
  }

  /** Python's int() of a real: truncation toward zero. */
  function Trunc(x: real): int {
    if x >= 0.0 then x.Floor else -((-x).Floor)
  }

  function Min(a: int, b: int): int {
    if a < b then a else b
  }

  // ---------------------------------------------------------------------------
  // One observation
  // ---------------------------------------------------------------------------

  /** Refresh the observation, then advance the main state machine; `warmups` counts the warm-up
      tasks created. */
  function Advance(cfg: Config, h: State, p: Probe): State {
    if p.Ok() then
      var warm := !h.everReady && !h.warmupExecuted;
      h.(backendOk := true, status := 1, everReady := true, failures := 0, lastSuccess := Some(p.now),
         warmupExecuted := h.warmupExecuted || warm, warmups := if warm then h.warmups + 1 else h.warmups)
    else if h.status == 1 then
      h.(backendOk := false, failures := h.failures + 1, status := if ShouldDegrade(cfg, h.failures + 1) then -1 else 1)
    else h.(backendOk := false)
  }

  function Weight(code: int, err: ErrKind): real {
    if code == 0 then
      match err
      case ConnectError => 1.0
      case ConnectTimeout => 0.75
      case ReadTimeout => 0.25
      case _ => 0.5
    else if code == 503 then 1.0
    else if 500 <= code < 600 then 0.5
    else 0.0
  }

  predicate PidGrace(cfg: Config, lastSuccess: Option<real>, p: Probe) {
    && p.pidAlive && !p.Ok() && p.IsReadTimeout()
    && lastSuccess.Some?
    && (p.now - lastSuccess.value) * 1000.0 <= cfg.pidGraceMs as real
  }

  function CountTimeout(h: State, p: Probe): State {
    h.(timeouts := if p.Ok() then 0 else if p.IsReadTimeout() then h.timeouts + 1 else h.timeouts)
  }

  function Decay(cfg: Config, h: State): State {
    h.(failScore := h.failScore * cfg.decay, accumFailMs := Trunc(h.accumFailMs as real * cfg.decay))
  }

  function Punish(cfg: Config, h: State, p: Probe): State {
    var w := Weight(p.code, p.err);
    if PidGrace(cfg, h.lastSuccess, p) || w <= 0.0 then h
    else h.(failScore := h.failScore + w,
            accumFailMs := h.accumFailMs + Trunc(w * Min(p.latencyMs, cfg.timeoutMs) as real))
  }

  /** The sglang bookkeeping that follows the main state machine. */
  function Penalise(cfg: Config, h: State, p: Probe): State {
    if p.Ok() then Decay(cfg, CountTimeout(h, p)) else Punish(cfg, CountTimeout(h, p), p)
  }

  function Tick(cfg: Config, sglang: bool, h: State, p: Probe): State {
    if sglang then Penalise(cfg, Advance(cfg, h, p), p) else Advance(cfg, h, p)
  }

  function Run(cfg: Config, sglang: bool, ps: seq<Probe>): State {
    if ps == [] then Init() else Tick(cfg, sglang, Run(cfg, sglang, ps[..|ps| - 1]), ps[|ps| - 1])
  }

  function MapHttpCode(cfg: Config, sglang: bool, h: State, firstSeen: real, now: real): int {
    if h.backendOk && h.everReady && h.status == 1 then 200
    else if !h.everReady then
      if Trunc((now - firstSeen) * 1000.0) < cfg.startupGraceMs then 201 else 502
    else if sglang then
      var since := if h.lastSuccess.Some? then (now - h.lastSuccess.value) * 1000.0 else 0.0;
      var silence := h.lastSuccess.Some? && since >= cfg.silenceMaxMs as real;
      var consecutive := h.lastSuccess.Some? && h.timeouts >= cfg.timeoutMax && since >= cfg.pidGraceMs as real;
      var budget := h.failScore >= cfg.budget || h.accumFailMs >= cfg.failGraceMs;
      if silence || consecutive || budget then 503 else 200
    else if ShouldDegrade(cfg, h.failures) then 503 else 200
  }

  // ---------------------------------------------------------------------------
  // The history in closed form
  // ---------------------------------------------------------------------------

  ghost predicate EverOk(ps: seq<Probe>) {
    exists i :: 0 <= i < |ps| && ps[i].Ok()
  }

  /** How many probes have failed since the last success. */
  function Trailing(ps: seq<Probe>): (k: nat)
    ensures k <= |ps|
    ensures forall i :: |ps| - k <= i < |ps| ==> !ps[i].Ok()
    ensures k < |ps| ==> ps[|ps| - 1 - k].Ok()
  {
    if ps == [] || ps[|ps| - 1].Ok() then 0 else 1 + Trailing(ps[..|ps| - 1])
  }

  /** The number of failures at which a ready backend is given up: the least n in 1..k that meets
      both thresholds, if there is one. */
  function GiveUpAt(cfg: Config, k: nat): (r: Option<nat>)
    ensures r.Some? ==> 1 <= r.value <= k && ShouldDegrade(cfg, r.value)
                        && forall n :: 1 <= n < r.value ==> !ShouldDegrade(cfg, n)
    ensures r == None ==> forall n :: 1 <= n <= k ==> !ShouldDegrade(cfg, n)
  {
    if k == 0 then None
    else
      var r := GiveUpAt(cfg, k - 1);
      if r.Some? then r else if ShouldDegrade(cfg, k) then Some(k) else None
  }

  lemma EverOkSnoc(ps: seq<Probe>)
    requires ps != []
    ensures EverOk(ps) <==> EverOk(ps[..|ps| - 1]) || ps[|ps| - 1].Ok()
  {
    var qs := ps[..|ps| - 1];
    if EverOk(qs) {
      var i :| 0 <= i < |qs| && qs[i].Ok();
      assert ps[i].Ok();
    }
    if EverOk(ps) && !ps[|ps| - 1].Ok() {
      var i :| 0 <= i < |ps| && ps[i].Ok();
      assert qs[i].Ok();
    }
  }

  /** The main fields after history `ps`: with `k` failures since the last success, a ready backend
      is given up at the first count that meets both thresholds, and the counter stops there. */
  ghost predicate Matches(cfg: Config, h: State, ps: seq<Probe>) {
    var k := Trailing(ps);
    && h.everReady == EverOk(ps)
    && h.backendOk == (ps != [] && ps[|ps| - 1].Ok())
    && (!EverOk(ps) ==> h.status == 0 && h.failures == 0 && h.lastSuccess == None
                        && !h.warmupExecuted && h.warmups == 0)
    && (EverOk(ps) ==>
          && k < |ps| && h.lastSuccess == Some(ps[|ps| - 1 - k].now) && h.warmupExecuted && h.warmups == 1
          && h.status == (if GiveUpAt(cfg, k) == None then 1 else -1)
          && h.failures == (if GiveUpAt(cfg, k) == None then k else GiveUpAt(cfg, k).value))
  }

  lemma PenaltyIsSeparate(cfg: Config, sglang: bool, h: State, p: Probe)
    ensures var a, b := Tick(cfg, sglang, h, p), Advance(cfg, h, p);
            a.status == b.status && a.everReady == b.everReady && a.lastSuccess == b.lastSuccess
            && a.failures == b.failures && a.backendOk == b.backendOk
            && a.warmupExecuted == b.warmupExecuted && a.warmups == b.warmups
  {}

  lemma AdvanceMatches(cfg: Config, h: State, ps: seq<Probe>)
    requires ps != [] && Matches(cfg, h, ps[..|ps| - 1])
    ensures Matches(cfg, Advance(cfg, h, ps[|ps| - 1]), ps)
  {
    var qs, p := ps[..|ps| - 1], ps[|ps| - 1];
    EverOkSnoc(ps);
    var k := Trailing(ps);
    if !p.Ok() && EverOk(ps) {
      assert k == Trailing(qs) + 1;
      assert ps[|ps| - 1 - k] == qs[|qs| - 1 - Trailing(qs)];
    }
  }

  /** The state machine refines the history, whichever engine is behind it.  In particular the
      warm-up is started once if any probe has succeeded, and never otherwise. */
  lemma {:induction false} RefinesHistory(cfg: Config, sglang: bool, ps: seq<Probe>)
    ensures Matches(cfg, Run(cfg, sglang, ps), ps)
  {
    if ps != [] {
      var h := Run(cfg, sglang, ps[..|ps| - 1]);
      RefinesHistory(cfg, sglang, ps[..|ps| - 1]);
      AdvanceMatches(cfg, h, ps);
      PenaltyIsSeparate(cfg, sglang, h, ps[|ps| - 1]);
    }
  }

  /** With a positive probe timeout the give-up point has the closed form
      max(1, FAIL_THRESHOLD, ceil(FAIL_GRACE_MS / HEALTH_TIMEOUT_MS)). */
  function GiveUpPoint(cfg: Config): int
    requires cfg.timeoutMs > 0
  {
    var byTime := (cfg.failGraceMs + cfg.timeoutMs - 1) / cfg.timeoutMs;
    var n := if cfg.failThreshold > byTime then cfg.failThreshold else byTime;
    if n > 1 then n else 1
  }

  lemma CeilDiv(n: int, g: int, t: int)
    requires t > 0
    ensures n * t >= g <==> n >= (g + t - 1) / t
  {
    var q := (g + t - 1) / t;
    assert g + t - 1 == q * t + (g + t - 1) % t;
    if n >= q {
      assert n * t >= q * t;
    } else {
      assert n * t <= (q - 1) * t == q * t - t;
    }
  }

  lemma GiveUpPointExact(cfg: Config, k: nat)
    requires cfg.timeoutMs > 0
    ensures GiveUpAt(cfg, k) == if k >= GiveUpPoint(cfg) then Some(GiveUpPoint(cfg)) else None
  {
    forall n: int
      ensures ShouldDegrade(cfg, n) <==> n >= cfg.failThreshold
                                                      && n >= (cfg.failGraceMs + cfg.timeoutMs - 1) / cfg.timeoutMs
    {
      CeilDiv(n, cfg.failGraceMs, cfg.timeoutMs);
    }
  }

  /** Status, counter and public code of a non-sglang backend as a function of the history: with k
      probes failed since the last success and N the give-up point, degraded and 503 exactly when
      k >= N, and the counter is min(k, N).  Before the first success the code depends only on the
      time since start. */
  lemma HealthCode(cfg: Config, ps: seq<Probe>, firstSeen: real, now: real)
    requires cfg.timeoutMs > 0
    ensures var h, k, n := Run(cfg, false, ps), Trailing(ps), GiveUpPoint(cfg);
            var code := MapHttpCode(cfg, false, h, firstSeen, now);
            && (EverOk(ps) ==>
                  && h.status == (if k >= n then -1 else 1)
                  && h.failures == Min(k, n)
                  && code == (if k >= n then 503 else 200))
            && (!EverOk(ps) ==>
                  h.status == 0 && code == if Trunc((now - firstSeen) * 1000.0) < cfg.startupGraceMs then 201 else 502)
  {
    RefinesHistory(cfg, false, ps);
    GiveUpPointExact(cfg, Trailing(ps));
  }

  /** Before the first success, whichever engine is behind it: 201 until the whole milliseconds since
      start reach the grace period, 502 from then on. */
  lemma StartupCode(cfg: Config, sglang: bool, ps: seq<Probe>, firstSeen: real, now: real)
    requires !EverOk(ps) && now >= firstSeen
    ensures var code := MapHttpCode(cfg, sglang, Run(cfg, sglang, ps), firstSeen, now);
            && (code == 201 || code == 502)
            && (code == 201 <==> (now - firstSeen) * 1000.0 < cfg.startupGraceMs as real)
  {
    RefinesHistory(cfg, sglang, ps);
    var t := (now - firstSeen) * 1000.0;
    assert Trunc(t) as real <= t < Trunc(t) as real + 1.0;
  }

  // ---------------------------------------------------------------------------
  // The sglang score
  // ---------------------------------------------------------------------------

  /** No more than `k` probes fail before the first success and between successes. */
  ghost predicate FailureRunsAtMost(ps: seq<Probe>, k: nat) {
    forall n :: 0 <= n <= |ps| ==> Trailing(ps[..n]) <= k
  }

  ghost predicate Latencies(ps: seq<Probe>) {
    forall i :: 0 <= i < |ps| ==> ps[i].latencyMs >= 0
  }

  function ReadTimeouts(ps: seq<Probe>): nat {
    if ps == [] then 0 else ReadTimeouts(ps[..|ps| - 1]) + if ps[|ps| - 1].IsReadTimeout() then 1 else 0
  }

  /** The probes after the last success. */
  function SinceSuccess(ps: seq<Probe>): seq<Probe> {
    ps[|ps| - Trailing(ps)..]
  }

  lemma SinceSuccessSnoc(ps: seq<Probe>)
    requires ps != [] && !ps[|ps| - 1].Ok()
    ensures SinceSuccess(ps) == SinceSuccess(ps[..|ps| - 1]) + [ps[|ps| - 1]]
  {
    assert Trailing(ps) == Trailing(ps[..|ps| - 1]) + 1;
  }

  lemma ReadTimeoutsSnoc(ps: seq<Probe>, p: Probe)
    ensures ReadTimeouts(ps + [p]) == ReadTimeouts(ps) + if p.IsReadTimeout() then 1 else 0
  {
    assert (ps + [p])[..|ps|] == ps;
  }

  lemma TimeoutsTick(cfg: Config, h: State, p: Probe)
    ensures Tick(cfg, true, h, p).timeouts == if p.Ok() then 0 else h.timeouts + if p.IsReadTimeout() then 1 else 0
  {}

  /** The field called consecutive_timeouts counts all read timeouts since the last success: other
      kinds of failure in between do not reset it. */
  lemma {:induction false} TimeoutsSinceSuccess(cfg: Config, ps: seq<Probe>)
    ensures Run(cfg, true, ps).timeouts == ReadTimeouts(SinceSuccess(ps))
  {
    if ps != [] {
      var qs, p := ps[..|ps| - 1], ps[|ps| - 1];
      TimeoutsSinceSuccess(cfg, qs);
      TimeoutsTick(cfg, Run(cfg, true, qs), p);
      if !p.Ok() {
        SinceSuccessSnoc(ps);
        ReadTimeoutsSnoc(SinceSuccess(qs), p);
      }
    }
  }

  /** Read timeouts at the very end of the history. */
  function TimeoutsInARow(ps: seq<Probe>): (k: nat)
    ensures k <= |ps|
  {
    if ps == [] || !ps[|ps| - 1].IsReadTimeout() then 0 else 1 + TimeoutsInARow(ps[..|ps| - 1])
  }

  /** After the first read timeout there are only read timeouts. */
  ghost predicate NothingBetween(ps: seq<Probe>) {
    forall i, j :: 0 <= i < j < |ps| && ps[i].IsReadTimeout() ==> ps[j].IsReadTimeout()
  }

  lemma {:induction false} NoReadTimeouts(ps: seq<Probe>)
    ensures ReadTimeouts(ps) == 0 <==> forall i :: 0 <= i < |ps| ==> !ps[i].IsReadTimeout()
    ensures TimeoutsInARow(ps) <= ReadTimeouts(ps)
  {
    if ps != [] {
      var n := |ps| - 1;
      NoReadTimeouts(ps[..n]);
      assert forall i :: 0 <= i < n ==> ps[i] == ps[..n][i];
    }
  }

  lemma {:induction false} InARowIff(ps: seq<Probe>)
    ensures ReadTimeouts(ps) == TimeoutsInARow(ps) <==> NothingBetween(ps)
  {
    if ps != [] {
      var n := |ps| - 1;
      var qs := ps[..n];
      InARowIff(qs);
      NoReadTimeouts(ps);
      NoReadTimeouts(qs);
      if ps[n].IsReadTimeout() {
        assert NothingBetween(ps) <==> NothingBetween(qs) by {
          if NothingBetween(qs) {
            forall i, j | 0 <= i < j < |ps| && ps[i].IsReadTimeout() ensures ps[j].IsReadTimeout() {
              if j < n { assert qs[i].IsReadTimeout() && qs[j].IsReadTimeout(); }
            }
          } else {
            var i, j :| 0 <= i < j < n && qs[i].IsReadTimeout() && !qs[j].IsReadTimeout();
            assert ps[i].IsReadTimeout() && !ps[j].IsReadTimeout();
          }
        }
      } else if ReadTimeouts(ps) != 0 {
        var i :| 0 <= i < |ps| && ps[i].IsReadTimeout();
        assert i < n && !ps[n].IsReadTimeout();
      }
    }
  }

  lemma {:induction false} RowEndsAtSuccess(ps: seq<Probe>)
    ensures TimeoutsInARow(ps) == TimeoutsInARow(SinceSuccess(ps))
  {
    if ps != [] && !ps[|ps| - 1].Ok() {
      RowEndsAtSuccess(ps[..|ps| - 1]);
      SinceSuccessSnoc(ps);
      var since := SinceSuccess(ps[..|ps| - 1]);
      assert (since + [ps[|ps| - 1]])[..|since|] == since;
    }
  }

  /** The field is what its name says, the number of read timeouts in a row, exactly if no other
      failure has followed a read timeout since the last success. */
  lemma TimeoutsAreConsecutiveIff(cfg: Config, ps: seq<Probe>)
    ensures Run(cfg, true, ps).timeouts == TimeoutsInARow(ps) <==> NothingBetween(SinceSuccess(ps))
  {
    TimeoutsSinceSuccess(cfg, ps);
    RowEndsAtSuccess(ps);
    InARowIff(SinceSuccess(ps));
  }

  const TIMED_OUT := Probe(0, ReadTimeout, 5000, true, 1.0)
  const BUSY := Probe(503, NoError, 20, true, 11.0)
  const TIMED_OUT_AGAIN := Probe(0, ReadTimeout, 5000, true, 21.0)

  /** A read timeout, a 503 and a read timeout again: the field says two although no two read timeouts
      came in a row. */
  lemma TimeoutsNotInARow(cfg: Config)
    ensures var ps := [TIMED_OUT, BUSY, TIMED_OUT_AGAIN];
            Run(cfg, true, ps).timeouts == 2 && TimeoutsInARow(ps) == 1
  {
    var one, two, ps := [TIMED_OUT], [TIMED_OUT, BUSY], [TIMED_OUT, BUSY, TIMED_OUT_AGAIN];
    assert ps[..2] == two && two[..1] == one && one[..0] == [];
    assert Run(cfg, true, one) == Tick(cfg, true, Init(), TIMED_OUT);
    assert Run(cfg, true, two) == Tick(cfg, true, Run(cfg, true, one), BUSY);
    assert Run(cfg, true, ps) == Tick(cfg, true, Run(cfg, true, two), TIMED_OUT_AGAIN);
    TimeoutsTick(cfg, Init(), TIMED_OUT);
    TimeoutsTick(cfg, Run(cfg, true, one), BUSY);
    TimeoutsTick(cfg, Run(cfg, true, two), TIMED_OUT_AGAIN);
    assert TimeoutsInARow(two) == 0;
  }

  // ---------------------------------------------------------------------------
  // The score as a function of the history
  // ---------------------------------------------------------------------------

  function LastSuccess(ps: seq<Probe>): Option<real> {
    if Trailing(ps) < |ps| then Some(ps[|ps| - 1 - Trailing(ps)].now) else None
  }

  /** What probe `p` adds to the score after history `ps`. */
  function Added(cfg: Config, ps: seq<Probe>, p: Probe): real {
    if p.Ok() || PidGrace(cfg, LastSuccess(ps), p) then 0.0 else Weight(p.code, p.err)
  }

  function Weights(cfg: Config, ps: seq<Probe>): (w: seq<real>)
    ensures |w| == |ps|
  {
    if ps == [] then []
    else var n := |ps| - 1; Weights(cfg, ps[..n]) + [Added(cfg, ps[..n], ps[n])]
  }

  function Successes(ps: seq<Probe>): (ok: seq<bool>)
    ensures |ok| == |ps|
  {
    if ps == [] then [] else Successes(ps[..|ps| - 1]) + [ps[|ps| - 1].Ok()]
  }

  function Count(ok: seq<bool>): nat {
    if ok == [] then 0 else Count(ok[..|ok| - 1]) + if ok[|ok| - 1] then 1 else 0
  }

  /** x * d ^ n */
  function Scaled(x: real, d: real, n: nat): real {
    if n == 0 then x else Scaled(x, d, n - 1) * d
  }

  /** The first `n` weights, each decayed once for every success that followed it. */
  function Decayed(d: real, w: seq<real>, ok: seq<bool>, n: nat): real
    requires n <= |w| == |ok|
  {
    if n == 0 then 0.0 else Decayed(d, w, ok, n - 1) + Scaled(w[n - 1], d, Count(ok[n..]))
  }

  lemma MulSum(x: real, y: real, d: real)
    ensures (x + y) * d == x * d + y * d
  {}

  lemma TermOneMore(d: real, x: real, ok: seq<bool>, success: bool)
    ensures Scaled(x, d, Count(ok + [success])) ==
          if success then Scaled(x, d, Count(ok)) * d else Scaled(x, d, Count(ok))
  {
    assert (ok + [success])[..|ok|] == ok;
  }

  lemma {:induction false} DecayedOneMore(d: real, w: seq<real>, ok: seq<bool>, x: real, success: bool, n: nat)
    requires n <= |w| == |ok|
    ensures Decayed(d, w + [x], ok + [success], n) == if success then Decayed(d, w, ok, n) * d else Decayed(d, w, ok, n)
  {
    if n > 0 {
      DecayedOneMore(d, w, ok, x, success, n - 1);
      assert (ok + [success])[n..] == ok[n..] + [success];
      TermOneMore(d, w[n - 1], ok[n..], success);
      MulSum(Decayed(d, w, ok, n - 1), Scaled(w[n - 1], d, Count(ok[n..])), d);
    }
  }

  /** The weights of all failures so far, each times the decay factor to the number of successes since. */
  function DecayedWeights(cfg: Config, ps: seq<Probe>): real {
    Decayed(cfg.decay, Weights(cfg, ps), Successes(ps), |ps|)
  }

  lemma LastTerm(d: real, w: seq<real>, ok: seq<bool>)
    requires |w| == |ok| > 0
    ensures Decayed(d, w, ok, |w|) == Decayed(d, w, ok, |w| - 1) + w[|w| - 1]
  {
    assert ok[|w|..] == [];
  }

  /** One probe's effect on the score: a failure adds its weight `w`, a success decays what is there. */
  function NextWeighted(cfg: Config, score: real, p: Probe, w: real): real {
    (if p.Ok() then score * cfg.decay else score) + w
  }

  lemma WeightsOneMore(cfg: Config, ps: seq<Probe>)
    requires ps != []
    ensures var qs, p := ps[..|ps| - 1], ps[|ps| - 1];
            DecayedWeights(cfg, ps) == NextWeighted(cfg, DecayedWeights(cfg, qs), p, Added(cfg, qs, p))
  {
    var n := |ps| - 1;
    LastTerm(cfg.decay, Weights(cfg, ps), Successes(ps));
    DecayedOneMore(cfg.decay, Weights(cfg, ps[..n]), Successes(ps[..n]), Added(cfg, ps[..n], ps[n]), ps[n].Ok(), n);
  }

  lemma ScoreStep(cfg: Config, h: State, p: Probe, w: real)
    requires w == if p.Ok() || PidGrace(cfg, h.lastSuccess, p) then 0.0 else Weight(p.code, p.err)
    ensures Tick(cfg, true, h, p).failScore == NextWeighted(cfg, h.failScore, p, w)
  {}

  lemma LastSuccessOfRun(cfg: Config, ps: seq<Probe>)
    ensures Run(cfg, true, ps).lastSuccess == LastSuccess(ps)
  {
    RefinesHistory(cfg, true, ps);
    LastSuccessMatches(cfg, Run(cfg, true, ps), ps);
  }

  /** The score is what the decayed weights of the failures add up to. */
  lemma {:induction false} ScoreClosedForm(cfg: Config, ps: seq<Probe>)
    ensures Run(cfg, true, ps).failScore == DecayedWeights(cfg, ps)
  {
    if ps != [] {
      var qs, p := ps[..|ps| - 1], ps[|ps| - 1];
      ScoreClosedForm(cfg, qs);
      WeightsOneMore(cfg, ps);
      LastSuccessOfRun(cfg, qs);
      ScoreStep(cfg, Run(cfg, true, qs), p, Added(cfg, qs, p));
      assert Run(cfg, true, ps) == Tick(cfg, true, Run(cfg, true, qs), p);
    }
  }

  /** One probe's effect on the accumulated failure time: a failure adds its latency times its weight
      `w`, a success decays the sum and drops the fraction of a millisecond. */
  function NextMs(cfg: Config, ms: int, p: Probe, w: real): int {
    if p.Ok() then Trunc(ms as real * cfg.decay) else ms + Trunc(w * Min(p.latencyMs, cfg.timeoutMs) as real)
  }

  /** Every success truncates, so there is no plain sum for the accumulated time of a history. */
  function AccumulatedMs(cfg: Config, ps: seq<Probe>): int {
    if ps == [] then 0
    else
      var qs, p := ps[..|ps| - 1], ps[|ps| - 1];
      NextMs(cfg, AccumulatedMs(cfg, qs), p, Added(cfg, qs, p))
  }

  lemma {:induction false} AccumulatedForm(cfg: Config, ps: seq<Probe>)
    ensures Run(cfg, true, ps).accumFailMs == AccumulatedMs(cfg, ps)
  {
    if ps != [] {
      var qs, p := ps[..|ps| - 1], ps[|ps| - 1];
      AccumulatedForm(cfg, qs);
      var h, w := Run(cfg, true, qs), Added(cfg, qs, p);
      LastSuccessOfRun(cfg, qs);
      AccumulatedStep(cfg, h, p, w);
      assert Run(cfg, true, ps) == Tick(cfg, true, h, p);
    }
  }

  lemma AccumulatedStep(cfg: Config, h: State, p: Probe, w: real)
    requires w == if p.Ok() || PidGrace(cfg, h.lastSuccess, p) then 0.0 else Weight(p.code, p.err)
    ensures Tick(cfg, true, h, p).accumFailMs == NextMs(cfg, h.accumFailMs, p, w)
  {
    var g := CountTimeout(Advance(cfg, h, p), p);
    assert g.accumFailMs == h.accumFailMs;
    if p.Ok() {
      assert Tick(cfg, true, h, p) == Decay(cfg, g);
    } else {
      assert g.lastSuccess == h.lastSuccess && Tick(cfg, true, h, p) == Punish(cfg, g, p);
      PunishTakes(cfg, g, p, w);
    }
  }

  lemma PunishTakes(cfg: Config, h: State, p: Probe, w: real)
    requires !p.Ok() && w == if PidGrace(cfg, h.lastSuccess, p) then 0.0 else Weight(p.code, p.err)
    ensures Punish(cfg, h, p).accumFailMs == NextMs(cfg, h.accumFailMs, p, w)
  {
    if PidGrace(cfg, h.lastSuccess, p) || Weight(p.code, p.err) <= 0.0 {
      assert w == 0.0 && Punish(cfg, h, p) == h;
      ZeroWeight(Min(p.latencyMs, cfg.timeoutMs) as real);
    } else {
      assert w == Weight(p.code, p.err);
    }
  }

  lemma ZeroWeight(x: real)
    ensures Trunc(0.0 * x) == 0
  {
    assert 0.0 * x == 0.0;
  }

  lemma LastSuccessMatches(cfg: Config, h: State, ps: seq<Probe>)
    requires Matches(cfg, h, ps)
    ensures h.lastSuccess == LastSuccess(ps)
  {
    if Trailing(ps) < |ps| {
      assert ps[|ps| - 1 - Trailing(ps)].Ok();
    }
  }

  lemma TruncBound(x: real)
    ensures x >= 0.0 ==> 0.0 <= Trunc(x) as real <= x
  {
    if x >= 0.0 {
      assert Trunc(x) == x.Floor && x.Floor >= 0;
      assert x.Floor as real <= x;
    }
  }

  lemma MulMono(x: real, y: real, z: real)
    requires x <= y && z >= 0.0
    ensures x * z <= y * z
  {}

  lemma MulMonoStrict(x: real, y: real, z: real)
    requires x < y && z > 0.0
    ensures x * z < y * z
  {}

  lemma ScaledLatency(w: real, x: int, t: int)
    requires 0.0 <= w <= 1.0 && 0 <= x <= t
    ensures 0.0 <= w * x as real <= t as real
  {
    MulMono(0.0, w, x as real);
    MulMono(w, 1.0, x as real);
  }

  /** What one failed probe adds. */
  lemma FailureAdds(cfg: Config, h: State, p: Probe)
    requires !p.Ok() && p.latencyMs >= 0 && cfg.timeoutMs > 0
    ensures var h' := Tick(cfg, true, h, p);
            && h.failScore <= h'.failScore <= h.failScore + 1.0
            && h.accumFailMs <= h'.accumFailMs <= h.accumFailMs + cfg.timeoutMs
  {
    var w := Weight(p.code, p.err);
    var x := Min(p.latencyMs, cfg.timeoutMs);
    ScaledLatency(w, x, cfg.timeoutMs);
    TruncBound(w * x as real);
  }

  lemma BoundFixpoint(d: real, k: nat, b: real)
    requires 0.0 < d < 1.0 && k >= 1 && b == k as real / (1.0 - d)
    ensures d * b + k as real == b && d * b > 0.0
  {
    assert b * (1.0 - d) == k as real;
    if b <= 0.0 { MulMono(b, 0.0, 1.0 - d); }
    MulMonoStrict(0.0, b, d);
  }

  /** A success: whatever is below b before it is below x = d * b after it. */
  lemma DecayStep(d: real, b: real, x: real, t: real, score: real, ms: real)
    requires 0.0 < d < 1.0 && t > 0.0 && x == d * b
    requires 0.0 <= score < b && 0.0 <= ms < b * t
    ensures 0.0 <= score * d < x
    ensures 0.0 <= ms * d < x * t
  {
    MulMonoStrict(score, b, d);
    MulMono(0.0, score, d);
    MulMonoStrict(ms, b * t, d);
    MulMono(0.0, ms, d);
    assert b * t * d == x * t;
  }

  /** The score is below x and the accumulated time below x probe timeouts. */
  ghost predicate Below(h: State, x: real, t: real) {
    0.0 <= h.failScore < x && 0.0 <= h.accumFailMs as real < x * t
  }

  lemma SuccessTick(cfg: Config, h: State, p: Probe)
    requires p.Ok()
    ensures var h' := Tick(cfg, true, h, p);
            h'.failScore == h.failScore * cfg.decay && h'.accumFailMs == Trunc(h.accumFailMs as real * cfg.decay)
  {}

  lemma SuccessBelow(cfg: Config, h: State, p: Probe, b: real, x: real)
    requires p.Ok() && 0.0 < cfg.decay < 1.0 && cfg.timeoutMs > 0 && x == cfg.decay * b
    requires Below(h, b, cfg.timeoutMs as real)
    ensures Below(Tick(cfg, true, h, p), x, cfg.timeoutMs as real)
  {
    SuccessTick(cfg, h, p);
    DecayStep(cfg.decay, b, x, cfg.timeoutMs as real, h.failScore, h.accumFailMs as real);
    TruncBound(h.accumFailMs as real * cfg.decay);
  }

  lemma OneMoreFailure(h: State, g: State, t: int, x: real, y: real)
    requires Below(h, x, t as real) && y == x + 1.0
    requires h.failScore <= g.failScore <= h.failScore + 1.0
    requires h.accumFailMs <= g.accumFailMs <= h.accumFailMs + t
    ensures Below(g, y, t as real)
  {
    assert y * t as real == x * t as real + t as real;
  }

  lemma FailureBelow(cfg: Config, h: State, p: Probe, x: real, y: real)
    requires !p.Ok() && p.latencyMs >= 0 && cfg.timeoutMs > 0 && y == x + 1.0
    requires Below(h, x, cfg.timeoutMs as real)
    ensures Below(Tick(cfg, true, h, p), y, cfg.timeoutMs as real)
  {
    FailureAdds(cfg, h, p);
    OneMoreFailure(h, Tick(cfg, true, h, p), cfg.timeoutMs, x, y);
  }

  lemma BelowMono(h: State, x: real, y: real, t: real)
    requires Below(h, x, t) && x <= y && t > 0.0
    ensures Below(h, y, t)
  {
    MulMono(x, y, t);
  }

  lemma ProbeBelow(cfg: Config, h: State, p: Probe, f: nat, k: nat, b: real, x: real)
    requires 0.0 < cfg.decay < 1.0 && cfg.timeoutMs > 0 && p.latencyMs >= 0
    requires x == cfg.decay * b && x + k as real == b && f <= k
    requires Below(h, x + f as real, cfg.timeoutMs as real)
    ensures Below(Tick(cfg, true, h, p), x + (if p.Ok() then 0 else f + 1) as real, cfg.timeoutMs as real)
  {
    if p.Ok() {
      BelowMono(h, x + f as real, b, cfg.timeoutMs as real);
      SuccessBelow(cfg, h, p, b, x);
    } else {
      FailureBelow(cfg, h, p, x + f as real, x + (f + 1) as real);
    }
  }

  /** With x = decay * b and x + k = b: a score below b decays below x, and k more failures of weight
      at most one bring it back below b. */
  lemma {:induction false} ScoreInvariant(cfg: Config, ps: seq<Probe>, k: nat, b: real, x: real)
    requires 0.0 < cfg.decay < 1.0 && cfg.timeoutMs > 0
    requires x == cfg.decay * b && x + k as real == b && x > 0.0
    requires FailureRunsAtMost(ps, k) && Latencies(ps)
    ensures Below(Run(cfg, true, ps), x + Trailing(ps) as real, cfg.timeoutMs as real)
  {
    if ps == [] {
      MulMonoStrict(0.0, x, cfg.timeoutMs as real);
    } else {
      var qs, p := ps[..|ps| - 1], ps[|ps| - 1];
      forall n | 0 <= n <= |qs| ensures Trailing(qs[..n]) <= k { assert qs[..n] == ps[..n]; }
      ScoreInvariant(cfg, qs, k, b, x);
      var g, f := Run(cfg, true, qs), Trailing(qs);
      assert f <= k by { assert ps[..|qs|] == qs; }
      ProbeBelow(cfg, g, p, f, k, b, x);
    }
  }

  /** However long the backend flaps, with at most k failures in a row the penalty stays below the
      geometric limit k / (1 - decay), and the accumulated time below that many probe timeouts. */
  lemma GeometricBound(cfg: Config, ps: seq<Probe>, k: nat, b: real)
    requires 0.0 < cfg.decay < 1.0 && cfg.timeoutMs > 0 && k >= 1
    requires FailureRunsAtMost(ps, k) && Latencies(ps)
    requires b == k as real / (1.0 - cfg.decay)
    ensures Below(Run(cfg, true, ps), b, cfg.timeoutMs as real)
  {
    var x := cfg.decay * b;
    BoundFixpoint(cfg.decay, k, b);
    ScoreInvariant(cfg, ps, k, b, x);
    assert Trailing(ps) <= k by { assert ps[..|ps|] == ps; }
    BelowMono(Run(cfg, true, ps), x + Trailing(ps) as real, b, cfg.timeoutMs as real);
  }

  /** The settings of a deployment that sets none of the environment variables. */
  const DEFAULTS := Config(5000, 5, 25000, 3600000, 6.0, 30000, 0.5, 60000, 8)

  predicate BudgetHit(cfg: Config, h: State) {
    h.failScore >= cfg.budget || h.accumFailMs >= cfg.failGraceMs
  }

  /** By default, two failures in a row, however often they recur, never use up the failure budget. */
  lemma DefaultBudgetHolds(ps: seq<Probe>)
    requires FailureRunsAtMost(ps, 2) && Latencies(ps)
    ensures !BudgetHit(DEFAULTS, Run(DEFAULTS, true, ps))
  {
    GeometricBound(DEFAULTS, ps, 2, 4.0);
  }

  function LastOk(ps: seq<Probe>): real
    requires Trailing(ps) < |ps|
  {
    ps[|ps| - 1 - Trailing(ps)].now
  }

  /** The public code of an sglang backend that was ready once, as a function of the history: 503
      exactly when the last probe failed and the last success is too long ago, or too many read
      timeouts have followed it, or the decayed weights of the failures or their accumulated time use
      up the budget. */
  lemma SglangCode(cfg: Config, ps: seq<Probe>, firstSeen: real, now: real)
    requires EverOk(ps)
    ensures Trailing(ps) < |ps|
    ensures var h, since := Run(cfg, true, ps), (now - LastOk(ps)) * 1000.0;
            MapHttpCode(cfg, true, h, firstSeen, now) ==
              if !ps[|ps| - 1].Ok() && (|| since >= cfg.silenceMaxMs as real
                                        || (ReadTimeouts(SinceSuccess(ps)) >= cfg.timeoutMax
                                            && since >= cfg.pidGraceMs as real)
                                        || DecayedWeights(cfg, ps) >= cfg.budget
                                        || AccumulatedMs(cfg, ps) >= cfg.failGraceMs)
              then 503 else 200
  {
    RefinesHistory(cfg, true, ps);
    TimeoutsSinceSuccess(cfg, ps);
    ScoreClosedForm(cfg, ps);
    AccumulatedForm(cfg, ps);
    if ps[|ps| - 1].Ok() {
      assert Trailing(ps) == 0 && GiveUpAt(cfg, 0) == None;
    }
  }

  lemma {:induction false} ReadTimeoutsBounded(ps: seq<Probe>)
    ensures ReadTimeouts(ps) <= |ps|
  {
    if ps != [] {
      ReadTimeoutsBounded(ps[..|ps| - 1]);
    }
  }

  /** So by default a backend that fails at most twice in a row is only ever reported down after a
      full minute without a success. */
  lemma DefaultCodeMeansSilence(ps: seq<Probe>, firstSeen: real, now: real)
    requires EverOk(ps) && FailureRunsAtMost(ps, 2) && Latencies(ps)
    ensures Trailing(ps) < |ps|
    ensures MapHttpCode(DEFAULTS, true, Run(DEFAULTS, true, ps), firstSeen, now) == 503
       <==> !ps[|ps| - 1].Ok() && (now - LastOk(ps)) * 1000.0 >= 60000.0
  {
    SglangCode(DEFAULTS, ps, firstSeen, now);
    DefaultBudgetHolds(ps);
    ScoreClosedForm(DEFAULTS, ps);
    AccumulatedForm(DEFAULTS, ps);
    ReadTimeoutsBounded(SinceSuccess(ps));
    assert ps[..|ps|] == ps;
  }

  /** The `n`-th probe of a series ten seconds apart. */
  function Healthy(n: nat): Probe {
    Probe(200, NoError, 20, true, 10.0 * n as real)
  }

  /** The backend answers 503 after 4.9 seconds. */
  function Unavailable(n: nat): Probe {
    Probe(503, NoError, 4900, true, 10.0 * n as real)
  }

  /** Such probes, no more than `k` failures in a row. */
  ghost predicate Series(ps: seq<Probe>, k: nat) {
    FailureRunsAtMost(ps, k) && forall i :: 0 <= i < |ps| ==> ps[i] == Healthy(i) || ps[i] == Unavailable(i)
  }

  lemma RunsSnoc(ps: seq<Probe>, p: Probe, k: nat)
    requires FailureRunsAtMost(ps, k) && (p.Ok() || Trailing(ps) < k)
    ensures FailureRunsAtMost(ps + [p], k) && Trailing(ps + [p]) == if p.Ok() then 0 else Trailing(ps) + 1
  {
    assert (ps + [p])[..|ps|] == ps;
    forall n | 0 <= n <= |ps| + 1 ensures Trailing((ps + [p])[..n]) <= k {
      if n <= |ps| {
        assert (ps + [p])[..n] == ps[..n];
      } else {
        assert (ps + [p])[..n] == ps + [p];
      }
    }
  }

  lemma Failure(cfg: Config, ps: seq<Probe>, k: nat) returns (qs: seq<Probe>)
    requires Series(ps, k) && Trailing(ps) < k
    ensures Series(qs, k) && Trailing(qs) == Trailing(ps) + 1
    ensures Run(cfg, true, qs) == Tick(cfg, true, Run(cfg, true, ps), Unavailable(|ps|))
  {
    var p := Unavailable(|ps|);
    qs := ps + [p];
    RunsSnoc(ps, p, k);
    assert qs[..|ps|] == ps;
  }

  lemma FailureTick(cfg: Config, h: State, n: nat)
    ensures var h' := Tick(cfg, true, h, Unavailable(n));
            h'.failScore == h.failScore + 1.0 && h'.accumFailMs == h.accumFailMs + Min(4900, cfg.timeoutMs)
  {
    assert Trunc(1.0 * Min(4900, cfg.timeoutMs) as real) == Min(4900, cfg.timeoutMs);
  }

  lemma Recovery(cfg: Config, ps: seq<Probe>, k: nat) returns (qs: seq<Probe>)
    requires Series(ps, k)
    ensures Series(qs, k) && Trailing(qs) == 0
    ensures Run(cfg, true, qs) == Tick(cfg, true, Run(cfg, true, ps), Healthy(|ps|))
  {
    var p := Healthy(|ps|);
    qs := ps + [p];
    RunsSnoc(ps, p, k);
    assert qs[..|ps|] == ps;
  }

  lemma RecoveryScore(cfg: Config, h: State, n: nat)
    ensures Tick(cfg, true, h, Healthy(n)).failScore == NextScore(cfg.decay, 0, h.failScore)
  {
    SuccessTick(cfg, h, Healthy(n));
  }

  /** `n` failures in a row. */
  lemma {:induction false} Outage(cfg: Config, ps: seq<Probe>, k: nat, n: nat) returns (qs: seq<Probe>)
    requires Series(ps, k) && Trailing(ps) + n <= k
    ensures Series(qs, k) && Trailing(qs) == Trailing(ps) + n
    ensures Run(cfg, true, qs).failScore == Run(cfg, true, ps).failScore + n as real
    decreases n
  {
    qs := ps;
    if n > 0 {
      FailureTick(cfg, Run(cfg, true, ps), |ps|);
      qs := Failure(cfg, ps, k);
      qs := Outage(cfg, qs, k, n - 1);
    }
  }

  lemma OneFailure(ps: seq<Probe>) returns (qs: seq<Probe>)
    requires Series(ps, 3) && Trailing(ps) < 3
    ensures Series(qs, 3) && Trailing(qs) == Trailing(ps) + 1
    ensures Run(DEFAULTS, true, qs).accumFailMs == Run(DEFAULTS, true, ps).accumFailMs + 4900
  {
    FailureTick(DEFAULTS, Run(DEFAULTS, true, ps), |ps|);
    qs := Failure(DEFAULTS, ps, 3);
  }

  /** Three failures at the default settings. */
  lemma OutageOfThree(ps: seq<Probe>) returns (qs: seq<Probe>)
    requires Series(ps, 3) && Trailing(ps) == 0
    ensures Series(qs, 3) && Run(DEFAULTS, true, qs).accumFailMs == Run(DEFAULTS, true, ps).accumFailMs + 14700
  {
    qs := OneFailure(ps);
    qs := OneFailure(qs);
    qs := OneFailure(qs);
  }

  lemma SeriesIsPlain(ps: seq<Probe>, k: nat)
    requires Series(ps, k)
    ensures Latencies(ps) && forall i, j :: 0 <= i < j < |ps| ==> ps[i].now < ps[j].now
  {}

  // ---------------------------------------------------------------------------
  // The score budget for all settings
  // ---------------------------------------------------------------------------

  /** Runs of at most `k` failures can never use up the score budget. */
  ghost predicate ScoreHolds(cfg: Config, k: nat) {
    forall ps :: FailureRunsAtMost(ps, k) && Latencies(ps) ==> Run(cfg, true, ps).failScore < cfg.budget
  }

  /** The score after one success and `k` failures more. */
  function NextScore(d: real, k: nat, score: real): real {
    score * d + k as real
  }

  /** Below the budget every round adds at least `gain`. */
  ghost predicate Gains(d: real, k: nat, budget: real, gain: real) {
    forall score: real :: score < budget ==> NextScore(d, k, score) >= score + gain
  }

  lemma MulDiff(x: real, y: real, z: real)
    ensures (x - y) * z == x * z - y * z
  {}

  /** What a round adds gets less as the score grows, so below the budget it adds at least what it adds
      there. */
  lemma GainsBelowBudget(d: real, k: nat, budget: real)
    requires 0.0 < d < 1.0
    ensures Gains(d, k, budget, NextScore(d, k, budget) - budget)
  {
    forall score: real | score < budget
      ensures NextScore(d, k, score) >= score + (NextScore(d, k, budget) - budget)
    {
      MulMono(d, 1.0, budget - score);
      MulDiff(budget, score, d);
    }
  }

  lemma GainIsPositive(d: real, k: nat, limit: real, budget: real)
    requires 0.0 < d < 1.0 && d * limit + k as real == limit && budget < limit
    ensures NextScore(d, k, budget) > budget
  {
    MulMonoStrict(d, 1.0, limit - budget);
    MulDiff(limit, budget, d);
  }

  /** `n` times `gain` */
  function Times(gain: real, n: nat): real {
    if n == 0 then 0.0 else Times(gain, n - 1) + gain
  }

  lemma {:induction false} TimesIsProduct(gain: real, n: nat)
    ensures Times(gain, n) == gain * n as real
  {
    if n > 0 {
      TimesIsProduct(gain, n - 1);
      assert gain * n as real == gain * (n - 1) as real + gain;
    }
  }

  lemma Archimedes(gain: real, x: real) returns (n: nat)
    requires gain > 0.0
    ensures Times(gain, n) >= x
  {
    n := if x <= 0.0 then 0 else (x / gain).Floor + 1;
    TimesIsProduct(gain, n);
    if x > 0.0 {
      assert x / gain <= n as real;
      MulMono(x / gain, n as real, gain);
    }
  }

  lemma Round(cfg: Config, ps: seq<Probe>, k: nat) returns (qs: seq<Probe>)
    requires Series(ps, k)
    ensures Series(qs, k) && Run(cfg, true, qs).failScore == NextScore(cfg.decay, k, Run(cfg, true, ps).failScore)
  {
    RecoveryScore(cfg, Run(cfg, true, ps), |ps|);
    qs := Recovery(cfg, ps, k);
    qs := Outage(cfg, qs, k, k);
  }

  lemma {:induction false} ReachBudget(cfg: Config, k: nat, gain: real, ps: seq<Probe>, n: nat) returns (qs: seq<Probe>)
    requires Gains(cfg.decay, k, cfg.budget, gain)
    requires Series(ps, k) && Run(cfg, true, ps).failScore + Times(gain, n) >= cfg.budget
    ensures Series(qs, k) && Run(cfg, true, qs).failScore >= cfg.budget
    decreases n
  {
    qs := ps;
    if Run(cfg, true, ps).failScore < cfg.budget {
      qs := Round(cfg, ps, k);
      qs := ReachBudget(cfg, k, gain, qs, n - 1);
    }
  }

  /** For every decay factor and budget: no history with at most k failures in a row uses up the score
      budget exactly if the geometric limit k / (1 - decay) is no greater than it. */
  lemma ScoreBudgetIff(cfg: Config, k: nat)
    requires 0.0 < cfg.decay < 1.0 && cfg.timeoutMs > 0 && k >= 1
    ensures ScoreHolds(cfg, k) <==> k as real / (1.0 - cfg.decay) <= cfg.budget
  {
    var limit := k as real / (1.0 - cfg.decay);
    if limit <= cfg.budget {
      forall ps | FailureRunsAtMost(ps, k) && Latencies(ps) ensures Run(cfg, true, ps).failScore < cfg.budget {
        GeometricBound(cfg, ps, k, limit);
      }
    } else {
      BoundFixpoint(cfg.decay, k, limit);
      var ps := BudgetSpent(cfg, k, limit);
      assert FailureRunsAtMost(ps, k) && Latencies(ps);
    }
  }

  lemma BudgetSpent(cfg: Config, k: nat, limit: real) returns (ps: seq<Probe>)
    requires 0.0 < cfg.decay < 1.0 && cfg.decay * limit + k as real == limit && limit > cfg.budget
    ensures FailureRunsAtMost(ps, k) && Latencies(ps) && Run(cfg, true, ps).failScore >= cfg.budget
  {
    var gain := NextScore(cfg.decay, k, cfg.budget) - cfg.budget;
    GainIsPositive(cfg.decay, k, limit, cfg.budget);
    GainsBelowBudget(cfg.decay, k, cfg.budget);
    var n := Archimedes(gain, cfg.budget);
    ps := ReachBudget(cfg, k, gain, [], n);
    SeriesIsPlain(ps, k);
  }

  lemma HalfOf(ms: int)
    requires ms >= 0
    ensures Trunc(ms as real * 0.5) == ms / 2
  {}

  lemma HalfAfterRecovery(ps: seq<Probe>) returns (qs: seq<Probe>)
    requires Series(ps, 3) && Run(DEFAULTS, true, ps).accumFailMs >= 0
    ensures Series(qs, 3) && Trailing(qs) == 0
    ensures Run(DEFAULTS, true, qs).accumFailMs == Run(DEFAULTS, true, ps).accumFailMs / 2
  {
    HalfOf(Run(DEFAULTS, true, ps).accumFailMs);
    SuccessTick(DEFAULTS, Run(DEFAULTS, true, ps), Healthy(|ps|));
    qs := Recovery(DEFAULTS, ps, 3);
  }

  /** Two is the exact limit at the default settings: with runs of three failures, 503 answers after
      4.9 seconds, a backend that recovers in between uses up the failure budget on the third run. */
  lemma ThreeFailuresSpendTheBudget() returns (ps: seq<Probe>)
    ensures FailureRunsAtMost(ps, 3) && Latencies(ps)
    ensures forall i, j :: 0 <= i < j < |ps| ==> ps[i].now < ps[j].now
    ensures BudgetHit(DEFAULTS, Run(DEFAULTS, true, ps))
  {
    ps := OutageOfThree([]);
    ps := HalfAfterRecovery(ps);
    ps := OutageOfThree(ps);
    ps := HalfAfterRecovery(ps);
    ps := OutageOfThree(ps);
    SeriesIsPlain(ps, 3);
  }

  // ---------------------------------------------------------------------------
  // What each kind of failure costs
  // ---------------------------------------------------------------------------

  /** A refused connection, or an answer 503. */
  predicate Refused(p: Probe) {
    (p.code == 0 && p.err == ConnectError) || p.code == 503
  }

  predicate ConnectTimedOut(p: Probe) {
    p.code == 0 && p.err == ConnectTimeout
  }

  predicate ReadTimedOut(p: Probe) {
    p.code == 0 && p.err == ReadTimeout
  }

  /** Any other request error, or any other 5xx. */
  predicate OtherTrouble(p: Probe) {
    (p.code == 0 && (p.err == RequestError || p.err == NoError)) || 500 <= p.code <= 502 || 504 <= p.code <= 599
  }

  /** A read timeout of a live process, no later than pidGraceMs after the last success. */
  predicate Excused(cfg: Config, last: Option<real>, p: Probe) {
    ReadTimedOut(p) && p.pidAlive && last.Some? && 1000.0 * p.now <= 1000.0 * last.value + cfg.pidGraceMs as real
  }

  /** The score `p` costs, in hundredths. */
  function Cost(cfg: Config, last: Option<real>, p: Probe): nat {
    if Refused(p) then 100
    else if ConnectTimedOut(p) then 75
    else if ReadTimedOut(p) && !Excused(cfg, last, p) then 25
    else if OtherTrouble(p) then 50
    else 0
  }

  lemma TruncTowardZero(x: real)
    ensures x >= 0.0 ==> Trunc(x) as real <= x < Trunc(x) as real + 1.0
    ensures x <= 0.0 ==> x <= Trunc(x) as real < x + 1.0
  {}

  lemma TruncIs(x: real, n: int)
    requires n >= 0 && n as real <= x < n as real + 1.0
    ensures Trunc(x) == n
  {
    TruncTowardZero(x);
  }

  /** Hundredths of a whole number of milliseconds, rounded down. */
  lemma TruncHundredths(c: nat, w: real, m: int)
    requires m >= 0 && 100.0 * w == c as real
    ensures Trunc(w * m as real) == c * m / 100
  {
    var q := c * m / 100;
    assert 100 * q <= c * m < 100 * q + 100;
    assert 100.0 * (w * m as real) == (100.0 * w) * m as real == (c * m) as real;
    assert (100 * q) as real <= 100.0 * (w * m as real) < (100 * q + 100) as real;
    assert c * m >= 0;
    TruncIs(w * m as real, q);
  }

  lemma CostIsAdded(cfg: Config, ps: seq<Probe>, p: Probe)
    requires p.code != 200
    ensures 100.0 * Added(cfg, ps, p) == Cost(cfg, LastSuccess(ps), p) as real
  {
    var last := LastSuccess(ps);
    if ReadTimedOut(p) && p.pidAlive && last.Some? {
      assert (p.now - last.value) * 1000.0 == 1000.0 * p.now - 1000.0 * last.value;
    }
  }

  lemma TimeCosts(cfg: Config, before: int, p: Probe, w: real, c: nat)
    requires !p.Ok() && p.latencyMs >= 0 && cfg.timeoutMs > 0 && 100.0 * w == c as real
    ensures NextMs(cfg, before, p, w)
         == before + c * (if p.latencyMs <= cfg.timeoutMs then p.latencyMs else cfg.timeoutMs) / 100
  {
    TruncHundredths(c, w, Min(p.latencyMs, cfg.timeoutMs));
  }

  lemma ScoreCosts(cfg: Config, before: real, p: Probe, w: real, c: nat)
    requires !p.Ok() && 100.0 * w == c as real
    ensures NextWeighted(cfg, before, p, w) == before + c as real / 100.0
  {}

  lemma ScoreOneMore(cfg: Config, ps: seq<Probe>, p: Probe)
    ensures Run(cfg, true, ps + [p]).failScore
         == NextWeighted(cfg, Run(cfg, true, ps).failScore, p, Added(cfg, ps, p))
  {
    assert (ps + [p])[..|ps|] == ps;
    ScoreClosedForm(cfg, ps);
    ScoreClosedForm(cfg, ps + [p]);
    WeightsOneMore(cfg, ps + [p]);
  }

  lemma TimeOneMore(cfg: Config, ps: seq<Probe>, p: Probe)
    ensures Run(cfg, true, ps + [p]).accumFailMs
         == NextMs(cfg, Run(cfg, true, ps).accumFailMs, p, Added(cfg, ps, p))
  {
    assert (ps + [p])[..|ps|] == ps;
    AccumulatedForm(cfg, ps);
    AccumulatedForm(cfg, ps + [p]);
  }

  /** After every history: what one more failure adds to the score... */
  lemma OneFailureScores(cfg: Config, ps: seq<Probe>, p: Probe)
    requires p.code != 200
    ensures Run(cfg, true, ps + [p]).failScore
         == Run(cfg, true, ps).failScore + Cost(cfg, LastSuccess(ps), p) as real / 100.0
  {
    ScoreOneMore(cfg, ps, p);
    CostIsAdded(cfg, ps, p);
    ScoreCosts(cfg, Run(cfg, true, ps).failScore, p, Added(cfg, ps, p), Cost(cfg, LastSuccess(ps), p));
  }

  /** ... and, in whole milliseconds of its latency cut off at the probe timeout, to the accumulated
      time. */
  lemma OneFailureTakes(cfg: Config, ps: seq<Probe>, p: Probe)
    requires p.code != 200 && p.latencyMs >= 0 && cfg.timeoutMs > 0
    ensures var ms := if p.latencyMs <= cfg.timeoutMs then p.latencyMs else cfg.timeoutMs;
            Run(cfg, true, ps + [p]).accumFailMs
              == Run(cfg, true, ps).accumFailMs + Cost(cfg, LastSuccess(ps), p) * ms / 100
  {
    TimeOneMore(cfg, ps, p);
    CostIsAdded(cfg, ps, p);
    TimeCosts(cfg, Run(cfg, true, ps).accumFailMs, p, Added(cfg, ps, p), Cost(cfg, LastSuccess(ps), p));
  }

  /** Status 200 and nothing else is a success, with its consequences for the state. */
  lemma SuccessIs200(cfg: Config, sglang: bool, ps: seq<Probe>, p: Probe)
    ensures var g, h := Run(cfg, sglang, ps), Run(cfg, sglang, ps + [p]);
            && (h.backendOk <==> p.code == 200)
            && (p.code == 200 ==> h.status == 1 && h.everReady && h.failures == 0 && h.lastSuccess == Some(p.now))
            && (p.code != 200 ==> h.lastSuccess == g.lastSuccess && h.everReady == g.everReady)
  {
    assert (ps + [p])[..|ps|] == ps;
  }

  ghost predicate AllFail(fs: seq<Probe>) {
    forall i :: 0 <= i < |fs| ==> fs[i].code != 200
  }

  function TotalCost(cfg: Config, last: Option<real>, fs: seq<Probe>): nat {
    if fs == [] then 0 else TotalCost(cfg, last, fs[..|fs| - 1]) + Cost(cfg, last, fs[|fs| - 1])
  }

  lemma {:induction false} SameLastSuccess(ps: seq<Probe>, fs: seq<Probe>)
    requires AllFail(fs)
    ensures LastSuccess(ps + fs) == LastSuccess(ps)
  {
    if fs == [] {
      assert ps + fs == ps;
    } else {
      var n := |fs| - 1;
      SameLastSuccess(ps, fs[..n]);
      assert (ps + fs)[..|ps| + n] == ps + fs[..n];
      assert Trailing(ps + fs) == Trailing(ps + fs[..n]) + 1;
    }
  }

  /** A run of failures of any kinds after any history: the costs of its probes add up. */
  lemma {:induction false} FailuresAddUp(cfg: Config, ps: seq<Probe>, fs: seq<Probe>)
    requires AllFail(fs)
    ensures 100.0 * Run(cfg, true, ps + fs).failScore
         == 100.0 * Run(cfg, true, ps).failScore + TotalCost(cfg, LastSuccess(ps), fs) as real
  {
    if fs == [] {
      assert ps + fs == ps;
    } else {
      var n := |fs| - 1;
      FailuresAddUp(cfg, ps, fs[..n]);
      SameLastSuccess(ps, fs[..n]);
      assert ps + fs == (ps + fs[..n]) + [fs[n]];
      OneFailureScores(cfg, ps + fs[..n], fs[n]);
    }
  }

  lemma {:induction false} EqualCosts(cfg: Config, last: Option<real>, fs: seq<Probe>, c: nat)
    requires forall i :: 0 <= i < |fs| ==> Cost(cfg, last, fs[i]) == c
    ensures TotalCost(cfg, last, fs) == |fs| * c
  {
    if fs != [] {
      EqualCosts(cfg, last, fs[..|fs| - 1], c);
      assert |fs| * c == (|fs| - 1) * c + c;
    }
  }

  /** Failures of equal cost c, in hundredths, from a history without penalty. */
  lemma EqualFailures(cfg: Config, ps: seq<Probe>, fs: seq<Probe>, c: nat)
    requires Run(cfg, true, ps).failScore == 0.0 && AllFail(fs)
    requires forall i :: 0 <= i < |fs| ==> Cost(cfg, LastSuccess(ps), fs[i]) == c
    ensures 100.0 * Run(cfg, true, ps + fs).failScore == (|fs| * c) as real
  {
    FailuresAddUp(cfg, ps, fs);
    EqualCosts(cfg, LastSuccess(ps), fs, c);
  }

  ghost predicate All(fs: seq<Probe>, kind: Probe -> bool) {
    forall i :: 0 <= i < |fs| ==> kind(fs[i])
  }

  /** Exactly how many refused connections or answers 503 alone use up a budget of n... */
  lemma RefusedNeeded(cfg: Config, ps: seq<Probe>, fs: seq<Probe>, n: nat)
    requires Run(cfg, true, ps).failScore == 0.0 && All(fs, Refused)
    ensures Run(cfg, true, ps + fs).failScore >= n as real <==> |fs| >= n
  {
    EqualFailures(cfg, ps, fs, 100);
  }

  /** ... how many connect timeouts: 4 n / 3, rounded up... */
  lemma ConnectTimeoutsNeeded(cfg: Config, ps: seq<Probe>, fs: seq<Probe>, n: nat)
    requires Run(cfg, true, ps).failScore == 0.0 && All(fs, ConnectTimedOut)
    ensures Run(cfg, true, ps + fs).failScore >= n as real <==> |fs| >= (4 * n + 2) / 3
  {
    EqualFailures(cfg, ps, fs, 75);
  }

  /** ... how many read timeouts outside the grace period... */
  lemma ReadTimeoutsNeeded(cfg: Config, ps: seq<Probe>, fs: seq<Probe>, n: nat)
    requires Run(cfg, true, ps).failScore == 0.0
    requires All(fs, p => ReadTimedOut(p) && !Excused(cfg, LastSuccess(ps), p))
    ensures Run(cfg, true, ps + fs).failScore >= n as real <==> |fs| >= 4 * n
  {
    EqualFailures(cfg, ps, fs, 25);
  }

  /** ... and how many other request errors or other 5xx. */
  lemma OtherTroubleNeeded(cfg: Config, ps: seq<Probe>, fs: seq<Probe>, n: nat)
    requires Run(cfg, true, ps).failScore == 0.0 && All(fs, OtherTrouble)
    ensures Run(cfg, true, ps + fs).failScore >= n as real <==> |fs| >= 2 * n
  {
    EqualFailures(cfg, ps, fs, 50);
  }

  /** Answers with any other status, and read timeouts in the grace period, never do. */
  lemma FreeOfCharge(cfg: Config, ps: seq<Probe>, fs: seq<Probe>)
    requires Run(cfg, true, ps).failScore == 0.0
    requires All(fs, p => Excused(cfg, LastSuccess(ps), p)
                          || (p.code != 0 && p.code != 200 && !(500 <= p.code <= 599)))
    ensures Run(cfg, true, ps + fs).failScore == 0.0
  {
    EqualFailures(cfg, ps, fs, 0);
  }

  /** A read timeout in the grace period costs nothing at all; one that comes later, or whose process is
      gone, costs a quarter. */
  lemma GraceIsExact(cfg: Config, ps: seq<Probe>, p: Probe)
    requires p.code == 0 && p.err == ReadTimeout && p.latencyMs >= 0 && cfg.timeoutMs > 0 && LastSuccess(ps).Some?
    ensures var g, h := Run(cfg, true, ps), Run(cfg, true, ps + [p]);
            var ms := if p.latencyMs <= cfg.timeoutMs then p.latencyMs else cfg.timeoutMs;
            if p.pidAlive && 1000.0 * (p.now - LastSuccess(ps).value) <= cfg.pidGraceMs as real then
              h.failScore == g.failScore && h.accumFailMs == g.accumFailMs
            else
              h.failScore == g.failScore + 0.25 && h.accumFailMs == g.accumFailMs + ms / 4
  {
    OneFailureScores(cfg, ps, p);
    OneFailureTakes(cfg, ps, p);
    assert 1000.0 * (p.now - LastSuccess(ps).value) == 1000.0 * p.now - 1000.0 * LastSuccess(ps).value;
  }

  /** The `i`-th refused connection, answered after two milliseconds, five seconds apart. */
  function Refusal(i: nat): Probe {
    Probe(0, ConnectError, 2, true, 5.0 * (i + 1) as real)
  }

  function Refusals(n: nat): seq<Probe> {
    seq(n, i requires 0 <= i < n => Refusal(i))
  }

  const UP := Probe(200, NoError, 2, true, 0.0)

  lemma JustUp()
    ensures Run(DEFAULTS, true, [UP]).failScore == 0.0 && Run(DEFAULTS, true, [UP]).accumFailMs == 0
  {
    assert [UP][..0] == [];
    assert Run(DEFAULTS, true, [UP]) == Tick(DEFAULTS, true, Init(), UP);
    SuccessTick(DEFAULTS, Init(), UP);
    assert Trunc(0.0 * 0.5) == 0;
  }

  lemma OneRefusalScores(ps: seq<Probe>, i: nat)
    ensures Run(DEFAULTS, true, ps + [Refusal(i)]).failScore == Run(DEFAULTS, true, ps).failScore + 1.0
  {
    assert Cost(DEFAULTS, LastSuccess(ps), Refusal(i)) == 100;
    OneFailureScores(DEFAULTS, ps, Refusal(i));
  }

  lemma OneRefusalTakes(ps: seq<Probe>, i: nat)
    ensures Run(DEFAULTS, true, ps + [Refusal(i)]).accumFailMs == Run(DEFAULTS, true, ps).accumFailMs + 2
  {
    assert Cost(DEFAULTS, LastSuccess(ps), Refusal(i)) == 100;
    OneFailureTakes(DEFAULTS, ps, Refusal(i));
  }

  lemma UpAndRefusals(n: nat)
    ensures n == 0 ==> [UP] + Refusals(n) == [UP]
    ensures n > 0 ==> [UP] + Refusals(n) == ([UP] + Refusals(n - 1)) + [Refusal(n - 1)]
  {
    if n > 0 {
      assert Refusals(n) == Refusals(n - 1) + [Refusal(n - 1)];
    }
  }

  lemma {:induction false} RefusalsScore(n: nat)
    ensures Run(DEFAULTS, true, [UP] + Refusals(n)).failScore == n as real
  {
    UpAndRefusals(n);
    if n == 0 {
      JustUp();
    } else {
      RefusalsScore(n - 1);
      OneRefusalScores([UP] + Refusals(n - 1), n - 1);
    }
  }

  lemma {:induction false} RefusalsTake(n: nat)
    ensures Run(DEFAULTS, true, [UP] + Refusals(n)).accumFailMs == 2 * n
  {
    UpAndRefusals(n);
    if n == 0 {
      JustUp();
    } else {
      RefusalsTake(n - 1);
      OneRefusalTakes([UP] + Refusals(n - 1), n - 1);
    }
  }

  lemma {:induction false} RefusalsTrail(n: nat)
    ensures Trailing([UP] + Refusals(n)) == n
  {
    var all := [UP] + Refusals(n);
    UpAndRefusals(n);
    if n > 0 {
      RefusalsTrail(n - 1);
      assert all[..n] == [UP] + Refusals(n - 1);
    }
  }

  /** At the default settings, within a minute of the last success: a backend that refuses connections
      is reported 503 from the sixth refusal on, and 200 before. */
  lemma SixRefusals(n: nat, firstSeen: real, now: real)
    requires now < 60.0
    ensures MapHttpCode(DEFAULTS, true, Run(DEFAULTS, true, [UP] + Refusals(n)), firstSeen, now)
         == if n >= 6 then 503 else 200
  {
    var ps := [UP] + Refusals(n);
    RefusalsScore(n);
    RefusalsTake(n);
    RefusalsTrail(n);
    assert ps[0].Ok();
    SglangCode(DEFAULTS, ps, firstSeen, now);
    ScoreClosedForm(DEFAULTS, ps);
    AccumulatedForm(DEFAULTS, ps);
    NoReadTimeouts(SinceSuccess(ps));
  }

  // ---------------------------------------------------------------------------
  // The state dictionary
  // ---------------------------------------------------------------------------

  class HealthState {
    var status: int                  // 0 starting, 1 ready, -1 degraded
    var everReady: bool
    var lastSuccess: Option<real>
    var failures: nat
    var backendOk: bool
    var failScore: real
    var accumFailMs: int
    var timeouts: nat
    var warmupExecuted: bool
    var warmups: nat                 // warm-up tasks created

    ghost function Abs(): State
      reads this
    {
      State(status, everReady, lastSuccess, failures, backendOk, failScore,
            accumFailMs, timeouts, warmupExecuted, warmups)
    }

    constructor ()
      ensures Abs() == Init()
    {
      status, everReady, lastSuccess, failures, backendOk := 0, false, None, 0, false;
      failScore, accumFailMs, timeouts, warmupExecuted, warmups := 0.0, 0, 0, false, 0;
    }

    method AdvanceStateMachine(cfg: Config, p: Probe)
      modifies this
      ensures Abs() == Advance(cfg, old(Abs()), p)
    {
      backendOk := p.Ok();
      if backendOk {
        var firstTimeReady := !everReady;
        status := 1;
        everReady := true;
        failures := 0;
        lastSuccess := Some(p.now);
        if firstTimeReady && !warmupExecuted {
          warmupExecuted := true;
          warmups := warmups + 1;
        }
      } else if status == 1 {
        failures := failures + 1;
        if ShouldDegrade(cfg, failures) {
          status := -1;
        }
      }
    }

    method UpdateConsecutiveTimeouts(p: Probe)
      modifies this`timeouts
      ensures Abs() == CountTimeout(old(Abs()), p)
    {
      if !p.Ok() && p.IsReadTimeout() {
        timeouts := timeouts + 1;
      } else {
        timeouts := if p.Ok() then 0 else timeouts;
      }
    }

    method HandleSuccessCase(cfg: Config)
      modifies this`failScore, this`accumFailMs
      ensures Abs() == Decay(cfg, old(Abs()))
    {
      failScore := failScore * cfg.decay;
      accumFailMs := Trunc(accumFailMs as real * cfg.decay);
    }

    method HandleFailureCase(cfg: Config, p: Probe)
      modifies this`failScore, this`accumFailMs
      ensures Abs() == Punish(cfg, old(Abs()), p)
    {
      if !PidGrace(cfg, lastSuccess, p) {
        var w := Weight(p.code, p.err);
        if w > 0.0 {
          failScore := failScore + w;
          accumFailMs := accumFailMs + Trunc(w * Min(p.latencyMs, cfg.timeoutMs) as real);
        }
      }
    }

    method HandleSglangSpecifics(cfg: Config, p: Probe)
      modifies this
      ensures Abs() == Penalise(cfg, old(Abs()), p)
    {
      UpdateConsecutiveTimeouts(p);
      if p.Ok() {
        HandleSuccessCase(cfg);
      } else {
        HandleFailureCase(cfg, p);
      }
    }

    method TickObserveAndAdvance(cfg: Config, sglang: bool, p: Probe)
      modifies this
      ensures Abs() == Tick(cfg, sglang, old(Abs()), p)
    {
      AdvanceStateMachine(cfg, p);
      if sglang {
        HandleSglangSpecifics(cfg, p);
      }
    }
  }

  /** The monitor loop over a history of probes leaves the dictionary the fold describes. */
  method MonitorLoop(cfg: Config, sglang: bool, ps: seq<Probe>) returns (h: HealthState)
    ensures fresh(h) && h.Abs() == Run(cfg, sglang, ps)
  {
    h := new HealthState();
    for n := 0 to |ps|
      invariant fresh(h) && h.Abs() == Run(cfg, sglang, ps[..n])
    {
      assert ps[..n + 1][..n] == ps[..n];
      h.TickObserveAndAdvance(cfg, sglang, ps[n]);
    }
    assert ps[..|ps|] == ps;
  }
}
