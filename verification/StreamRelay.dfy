/** The streaming relay `_stream_gen` (wings_control/proxy/gateway.py): how chunks of a backend
    response are buffered, flushed and passed on.  Clock readings, jitter and the point where the
    client disconnects are inputs. */
module StreamRelay {
  import opened Common

  newtype byte = b: int | 0 <= b < 256
  type Bytes = seq<byte>

  datatype Config = Config(fastPath: int, firstFlush: int, firstFlushMs: real, streamFlush: int,
                           streamFlushMs: real, maxConn: int, delimFlush: bool)
  {
    /** max(STREAM_FLUSH_BYTES, int(MAX_CONN / 4)); the conversion truncates toward zero. */
    function DynBase(): int {
      var quarter := if maxConn >= 0 then maxConn / 4 else -(-maxConn / 4);
      if streamFlush > quarter then streamFlush else quarter
    }

    function MaxJitter(): int {
      if DynBase() / 8 > 1 then DynBase() / 8 else 1
    }
  }

  /** One chunk from the backend, with what the relay observes while handling it. */
  datatype Arrival = Arrival(chunk: Bytes, disconnected: bool, now: real, jitter: int)

  datatype State = State(buf: Bytes, lastFlush: real, firstDone: bool, stopped: bool, out: seq<Bytes>)

  predicate HasDelim(b: Bytes) {
    exists i :: 0 <= i < |b| - 1 && b[i] == 10 && b[i + 1] == 10
  }

  predicate ShouldFlushFirstPacket(cfg: Config, buf: Bytes, firstDone: bool, now: real, lastFlush: real) {
    && !firstDone
    && (|buf| >= cfg.firstFlush
        || (cfg.delimFlush && HasDelim(buf))
        || (cfg.firstFlushMs != 0.0 && now - lastFlush >= cfg.firstFlushMs))
  }

  predicate ShouldFlush(cfg: Config, buf: Bytes, dynBytes: int, lastFlush: real, now: real) {
    |buf| >= dynBytes || (cfg.delimFlush && HasDelim(buf)) || now - lastFlush >= cfg.streamFlushMs
  }

  function Init(t0: real): State {
    State([], t0, false, false, [])
  }

  function Step(cfg: Config, s: State, a: Arrival): State {
    if s.stopped || a.chunk == [] then s
    else if a.disconnected then s.(stopped := true)
    else if !s.firstDone && |a.chunk| <= cfg.fastPath then s.(out := s.out + [a.chunk], firstDone := true)
    else
      var b := s.buf + a.chunk;
      if ShouldFlushFirstPacket(cfg, b, s.firstDone, a.now, s.lastFlush) then
        s.(out := s.out + [b], buf := [], firstDone := true, lastFlush := a.now)
      else if ShouldFlush(cfg, b, cfg.DynBase() + a.jitter, s.lastFlush, a.now) then
        s.(out := s.out + [b], buf := [], lastFlush := a.now)
      else s.(buf := b)
  }

  function Run(cfg: Config, t0: real, xs: seq<Arrival>): State {
    if xs == [] then Init(t0) else Step(cfg, Run(cfg, t0, xs[..|xs| - 1]), xs[|xs| - 1])
  }

  /** All yields, with the residue the `finally` block sends. */
  function Output(cfg: Config, t0: real, xs: seq<Arrival>): seq<Bytes> {
    var s := Run(cfg, t0, xs);
    if s.buf == [] then s.out else s.out + [s.buf]
  }

  /** The chunks the relay accepts: the non-empty ones before the client is seen to be gone. */
  function Consumed(xs: seq<Arrival>): seq<Bytes> {
    if xs == [] then []
    else if xs[0].chunk == [] then Consumed(xs[1..])
    else if xs[0].disconnected then []
    else [xs[0].chunk] + Consumed(xs[1..])
  }

  function Flatten(cs: seq<Bytes>): Bytes {
    if cs == [] then [] else cs[0] + Flatten(cs[1..])
  }

  ghost predicate Stops(xs: seq<Arrival>) {
    exists i :: 0 <= i < |xs| && xs[i].chunk != [] && xs[i].disconnected
  }

  /** The clock never runs backwards and the jitter is in the range `randint` draws from. */
  ghost predicate Plausible(cfg: Config, t0: real, xs: seq<Arrival>) {
    && (forall i :: 0 <= i < |xs| ==> t0 <= xs[i].now && 0 <= xs[i].jitter <= cfg.MaxJitter())
    && (forall i, j :: 0 <= i < j < |xs| ==> xs[i].now <= xs[j].now)
  }

  // ---------------------------------------------------------------------------
  // Sequences
  // ---------------------------------------------------------------------------

  lemma {:induction false} FlattenAppend(a: seq<Bytes>, b: seq<Bytes>)
    ensures Flatten(a + b) == Flatten(a) + Flatten(b)
  {
    if a == [] {
      assert a + b == b;
    } else {
      FlattenAppend(a[1..], b);
      assert (a + b)[0] == a[0] && (a + b)[1..] == a[1..] + b;
      Assoc(a[0], Flatten(a[1..]), Flatten(b));
    }
  }

  lemma FlattenOne(c: Bytes)
    ensures Flatten([c]) == c
  {
    assert Flatten([c]) == c + Flatten([c][1..]);
  }

  lemma FlattenSnoc(a: seq<Bytes>, c: Bytes)
    ensures Flatten(a + [c]) == Flatten(a) + c
  {
    FlattenAppend(a, [c]);
    FlattenOne(c);
  }

  lemma {:induction false} ConsumedSnoc(xs: seq<Arrival>, a: Arrival)
    ensures Consumed(xs + [a]) ==
            if Stops(xs) || a.chunk == [] || a.disconnected then Consumed(xs) else Consumed(xs) + [a.chunk]
  {
    if xs == [] {
      assert Consumed([a]) == if a.chunk == [] || a.disconnected then [] else [a.chunk] + Consumed([a][1..]);
    } else {
      assert (xs + [a])[0] == xs[0] && (xs + [a])[1..] == xs[1..] + [a];
      ConsumedSnoc(xs[1..], a);
      if xs[0].chunk == [] || !xs[0].disconnected {
        assert Stops(xs) <==> Stops(xs[1..]) by {
          if Stops(xs) {
            var i :| 0 <= i < |xs| && xs[i].chunk != [] && xs[i].disconnected;
            assert xs[1..][i - 1] == xs[i];
          }
        }
      }
    }
  }

  // ---------------------------------------------------------------------------
  // Shape of the relay's state
  // ---------------------------------------------------------------------------

  /** Chunks c[i..j] were overtaken by chunk c[j]. */
  function Moved(c: seq<Bytes>, i: nat, j: nat): Bytes
    requires i <= j < |c|
  {
    Flatten(c[..i]) + c[j] + Flatten(c[i..j]) + Flatten(c[j + 1..])
  }

  /** What had to be true for bytes to stay in the buffer. */
  ghost predicate Residual(cfg: Config, s: State, last: real) {
    s.buf != [] ==>
      && |s.buf| < cfg.DynBase() + cfg.MaxJitter()
      && (cfg.delimFlush ==> !HasDelim(s.buf))
      && last - s.lastFlush < cfg.streamFlushMs
      && (!s.firstDone ==> |s.buf| < cfg.firstFlush
                           && (cfg.firstFlushMs != 0.0 ==> last - s.lastFlush < cfg.firstFlushMs))
  }

  /** The chunk an overtaking needs is short, and what it overtakes is longer than the fast path
      takes but shorter than the first flush. */
  ghost predicate Overtaking(cfg: Config, c: seq<Bytes>, i: nat, j: nat) {
    && i < j < |c|
    && 0 < |c[j]| <= cfg.fastPath < |Flatten(c[i..j])| < cfg.firstFlush
    && |Flatten(c[i..j])| < cfg.DynBase() + cfg.MaxJitter()
    && cfg.streamFlushMs > 0.0 && cfg.firstFlushMs >= 0.0
    && (cfg.delimFlush ==> !HasDelim(Flatten(c[i..j])))
  }

  /** `i` chunks are out, the rest is buffered; or the first packet is out and at most one chunk of
      the stream was moved. */
  ghost predicate Shape(cfg: Config, s: State, c: seq<Bytes>, i: nat, j: nat) {
    if !s.firstDone then
      && i <= |c| && Flatten(s.out) == Flatten(c[..i]) && s.buf == Flatten(c[i..])
      && (forall k :: i <= k < |c| ==> |c[k]| > cfg.fastPath && c[k] != [])
    else
      || Sent(s) == Flatten(c)
      || (Overtaking(cfg, c, i, j) && Sent(s) == Moved(c, i, j))
  }

  /** The greatest clock reading used so far is no less than the last flush. */
  ghost predicate ClockOk(t0: real, xs: seq<Arrival>, s: State) {
    t0 <= s.lastFlush && (forall i :: 0 <= i < |xs| ==> t0 <= xs[i].now) &&
    (s.lastFlush == t0 || exists i :: 0 <= i < |xs| && s.lastFlush == xs[i].now)
  }

  lemma {:induction false} RunClock(cfg: Config, t0: real, xs: seq<Arrival>)
    requires Plausible(cfg, t0, xs)
    ensures ClockOk(t0, xs, Run(cfg, t0, xs))
    ensures Run(cfg, t0, xs).stopped <==> Stops(xs)
  {
    if xs != [] {
      var n := |xs| - 1;
      RunClock(cfg, t0, xs[..n]);
      var s := Run(cfg, t0, xs[..n]);
      var s' := Run(cfg, t0, xs);
      assert Stops(xs) <==> Stops(xs[..n]) || (xs[n].chunk != [] && xs[n].disconnected) by {
        if Stops(xs[..n]) {
          var i :| 0 <= i < n && xs[..n][i].chunk != [] && xs[..n][i].disconnected;
          assert xs[i] == xs[..n][i];
        }
      }
      if s'.lastFlush == s.lastFlush && s.lastFlush != t0 {
        var i :| 0 <= i < n && s.lastFlush == xs[..n][i].now;
        assert s'.lastFlush == xs[i].now;
      }
    }
  }

  lemma LastFlushNotLater(cfg: Config, t0: real, xs: seq<Arrival>, a: Arrival)
    requires Plausible(cfg, t0, xs + [a])
    ensures Plausible(cfg, t0, xs) && Run(cfg, t0, xs).lastFlush <= a.now
  {
    assert forall i :: 0 <= i < |xs| ==> (xs + [a])[i] == xs[i];
    assert (xs + [a])[|xs|] == a;
    RunClock(cfg, t0, xs);
  }

  /** One more chunk on the tail of an already reordered stream. */
  lemma MovedSnoc(cfg: Config, c: seq<Bytes>, d: Bytes, i: nat, j: nat)
    requires Overtaking(cfg, c, i, j)
    ensures Overtaking(cfg, c + [d], i, j) && Moved(c + [d], i, j) == Moved(c, i, j) + d
  {
    assert (c + [d])[..i] == c[..i] && (c + [d])[i..j] == c[i..j] && (c + [d])[j + 1..] == c[j + 1..] + [d];
    FlattenSnoc(c[j + 1..], d);
  }

  lemma StepResidual(cfg: Config, s: State, a: Arrival)
    requires 0 <= a.jitter <= cfg.MaxJitter() && s.lastFlush <= a.now
    requires !s.stopped && a.chunk != [] && !a.disconnected
    requires s.firstDone || |a.chunk| > cfg.fastPath
    ensures Residual(cfg, Step(cfg, s, a), a.now)
  {}

  /** Everything received so far that is out or still in the buffer. */
  function Sent(s: State): Bytes {
    Flatten(s.out) + s.buf
  }

  lemma FlattenSplit(c: seq<Bytes>, i: nat)
    requires i <= |c|
    ensures Flatten(c) == Flatten(c[..i]) + Flatten(c[i..])
  {
    assert c == c[..i] + c[i..];
    FlattenAppend(c[..i], c[i..]);
  }

  lemma BufferedSent(cfg: Config, s: State, a: Arrival)
    requires !s.stopped && a.chunk != [] && !a.disconnected && (s.firstDone || |a.chunk| > cfg.fastPath)
    ensures Sent(Step(cfg, s, a)) == Sent(s) + a.chunk
  {
    Assoc(Flatten(s.out), s.buf, a.chunk);
    FlattenSnoc(s.out, s.buf + a.chunk);
    var all := Flatten(s.out) + (s.buf + a.chunk);
    assert all + [] == all;
  }

  /** A chunk that goes through the buffer once the first packet is out. */
  lemma BufferedAfterFirst(cfg: Config, s: State, a: Arrival, c: seq<Bytes>, i: nat, j: nat)
    requires Shape(cfg, s, c, i, j) && !s.stopped && a.chunk != [] && !a.disconnected && s.firstDone
    ensures Shape(cfg, Step(cfg, s, a), c + [a.chunk], i, j)
  {
    BufferedSent(cfg, s, a);
    FlattenSnoc(c, a.chunk);
    if Sent(s) != Flatten(c) {
      MovedSnoc(cfg, c, a.chunk, i, j);
    }
  }

  /** Before that, a chunk may empty the buffer... */
  lemma FlushedBeforeFirst(cfg: Config, s: State, a: Arrival, c: seq<Bytes>, i: nat, j: nat) returns (i': nat)
    requires Shape(cfg, s, c, i, j) && !s.stopped && a.chunk != [] && !a.disconnected && !s.firstDone
    requires |a.chunk| > cfg.fastPath && Step(cfg, s, a).buf == []
    ensures Shape(cfg, Step(cfg, s, a), c + [a.chunk], i', j)
  {
    var s' := Step(cfg, s, a);
    var c' := c + [a.chunk];
    i' := |c'|;
    FlattenSplit(c, i);
    assert Sent(s') == Flatten(c') by {
      BufferedSent(cfg, s, a);
      FlattenSnoc(c, a.chunk);
    }
    assert c'[..i'] == c' && c'[i'..] == [];
    assert Flatten(s'.out) + [] == Flatten(s'.out);
  }

  /** ... or add to it. */
  lemma HeldBeforeFirst(cfg: Config, s: State, a: Arrival, c: seq<Bytes>, i: nat, j: nat)
    requires Shape(cfg, s, c, i, j) && !s.stopped && a.chunk != [] && !a.disconnected && !s.firstDone
    requires |a.chunk| > cfg.fastPath && Step(cfg, s, a).buf != []
    ensures Shape(cfg, Step(cfg, s, a), c + [a.chunk], i, j)
  {
    var c' := c + [a.chunk];
    assert c'[..i] == c[..i] && c'[i..] == c[i..] + [a.chunk];
    FlattenSnoc(c[i..], a.chunk);
  }

  /** A short first chunk that skips a buffer holding nothing. */
  lemma FastInOrder(cfg: Config, s: State, a: Arrival, c: seq<Bytes>)
    requires Flatten(s.out) == Flatten(c) && s.buf == []
    requires !s.stopped && a.chunk != [] && !a.disconnected && !s.firstDone && |a.chunk| <= cfg.fastPath
    ensures Shape(cfg, Step(cfg, s, a), c + [a.chunk], 0, 0)
  {
    FlattenSnoc(s.out, a.chunk);
    FlattenSnoc(c, a.chunk);
    assert Flatten(s.out + [a.chunk]) + [] == Flatten(s.out + [a.chunk]);
  }

  /** A short first chunk that overtakes what is buffered. */
  lemma FastOvertakes(cfg: Config, s: State, a: Arrival, c: seq<Bytes>, i: nat, last: real)
    requires i < |c| && Flatten(s.out) == Flatten(c[..i]) && s.buf == Flatten(c[i..]) && |c[i]| > cfg.fastPath
    requires Residual(cfg, s, last) && s.lastFlush <= last
    requires !s.stopped && a.chunk != [] && !a.disconnected && !s.firstDone && |a.chunk| <= cfg.fastPath
    ensures Shape(cfg, Step(cfg, s, a), c + [a.chunk], i, |c|)
  {
    var c' := c + [a.chunk];
    FlattenSnoc(s.out, a.chunk);
    assert c'[..i] == c[..i] && c'[i..|c|] == c[i..] && c'[|c| + 1..] == [];
    assert |s.buf| >= |c[i]| by { assert c[i..][0] == c[i]; }
    var front := Flatten(c[..i]) + a.chunk + s.buf;
    assert front + [] == front;
  }

  lemma NextShape(cfg: Config, s: State, a: Arrival, c: seq<Bytes>, i: nat, j: nat, last: real)
    returns (i': nat, j': nat)
    requires Shape(cfg, s, c, i, j) && Residual(cfg, s, last) && s.lastFlush <= last
    requires !s.stopped && a.chunk != [] && !a.disconnected
    ensures Shape(cfg, Step(cfg, s, a), c + [a.chunk], i', j')
  {
    i', j' := i, j;
    if s.firstDone {
      BufferedAfterFirst(cfg, s, a, c, i, j);
    } else if |a.chunk| > cfg.fastPath {
      if Step(cfg, s, a).buf == [] {
        i' := FlushedBeforeFirst(cfg, s, a, c, i, j);
      } else {
        HeldBeforeFirst(cfg, s, a, c, i, j);
      }
    } else if i < |c| {
      FastOvertakes(cfg, s, a, c, i, last);
      j' := |c|;
    } else {
      assert c[..i] == c && c[i..] == [];
      FastInOrder(cfg, s, a, c);
      i', j' := 0, 0;
    }
  }

  lemma NextResidual(cfg: Config, s: State, a: Arrival, last: real) returns (last': real)
    requires Residual(cfg, s, last) && s.lastFlush <= last
    requires 0 <= a.jitter <= cfg.MaxJitter() && s.lastFlush <= a.now
    ensures Residual(cfg, Step(cfg, s, a), last') && Step(cfg, s, a).lastFlush <= last'
  {
    last' := last;
    if !s.stopped && a.chunk != [] && !a.disconnected && (s.firstDone || |a.chunk| > cfg.fastPath) {
      StepResidual(cfg, s, a);
      last' := a.now;
    }
  }

  lemma {:induction false} RunShape(cfg: Config, t0: real, xs: seq<Arrival>) returns (i: nat, j: nat, last: real)
    requires Plausible(cfg, t0, xs)
    ensures Shape(cfg, Run(cfg, t0, xs), Consumed(xs), i, j)
    ensures Residual(cfg, Run(cfg, t0, xs), last) && Run(cfg, t0, xs).lastFlush <= last
  {
    if xs == [] {
      i, j, last := 0, 0, t0;
    } else {
      var ys, a := xs[..|xs| - 1], xs[|xs| - 1];
      assert xs == ys + [a];
      LastFlushNotLater(cfg, t0, ys, a);
      i, j, last := RunShape(cfg, t0, ys);
      RunClock(cfg, t0, ys);
      ConsumedSnoc(ys, a);
      var s := Run(cfg, t0, ys);
      if !s.stopped && a.chunk != [] && !a.disconnected {
        i, j := NextShape(cfg, s, a, Consumed(ys), i, j, last);
      }
      last := NextResidual(cfg, s, a, last);
    }
  }

  // ---------------------------------------------------------------------------
  // Theorems
  // ---------------------------------------------------------------------------

  /** For every chunking, timing, jitter and disconnect point, what the client receives is exactly
      what was consumed, with at most one chunk moved forward: a chunk the fast path takes, past a
      run of whole chunks that together are longer than it and shorter than FIRST_FLUSH_BYTES. */
  lemma RelayCharacterisation(cfg: Config, t0: real, xs: seq<Arrival>)
    requires Plausible(cfg, t0, xs)
    ensures var sent, c := Flatten(Output(cfg, t0, xs)), Consumed(xs);
            || sent == Flatten(c)
            || exists i: nat, j: nat :: Overtaking(cfg, c, i, j) && sent == Moved(c, i, j)
  {
    var i, j, last := RunShape(cfg, t0, xs);
    var s, c := Run(cfg, t0, xs), Consumed(xs);
    FlattenSnoc(s.out, s.buf);
    assert Flatten(s.out) + [] == Flatten(s.out);
    assert Flatten(Output(cfg, t0, xs)) == Sent(s);
    if !s.firstDone {
      FlattenSplit(c, i);
    }
  }

  /** After every iteration the residue is below the largest dynamic threshold, and with delimiter
      flushing on it never contains a complete event. */
  lemma ResidueBound(cfg: Config, t0: real, xs: seq<Arrival>)
    requires Plausible(cfg, t0, xs)
    ensures var buf := Run(cfg, t0, xs).buf;
            && (buf == [] || |buf| < cfg.DynBase() + cfg.MaxJitter())
            && (cfg.delimFlush ==> !HasDelim(buf))
  {
    var i, j, last := RunShape(cfg, t0, xs);
  }

  /** The settings under which a chunk can overtake another. */
  predicate CanReorder(cfg: Config) {
    && 1 <= cfg.fastPath < cfg.firstFlush - 1
    && cfg.fastPath + 1 < cfg.DynBase() + cfg.MaxJitter()
    && cfg.streamFlushMs > 0.0
    && cfg.firstFlushMs >= 0.0
  }

  /** The settings of a deployment that sets none of the environment variables. */
  const DEFAULTS := Config(128, 256, 0.0, 8192, 0.006, 2048, true)

  ghost predicate InOrder(cfg: Config, t0: real, xs: seq<Arrival>) {
    Flatten(Output(cfg, t0, xs)) == Flatten(Consumed(xs))
  }

  /** One chunk just too long for the fast path, then one short chunk, at the same instant. */
  lemma ReorderingRun(cfg: Config) returns (xs: seq<Arrival>)
    requires CanReorder(cfg)
    ensures Plausible(cfg, 0.0, xs) && !InOrder(cfg, 0.0, xs)
    ensures |xs| == 2 && |xs[0].chunk| == cfg.fastPath + 1 && |xs[1].chunk| == 1
  {
    var long: Bytes := seq(cfg.fastPath + 1, _ => 97);
    var short: Bytes := [98];
    var a := Arrival(long, false, 0.0, cfg.MaxJitter());
    var b := Arrival(short, false, 0.0, cfg.MaxJitter());
    xs := [a, b];
    assert xs[..1] == [a] && [a][..0] == [] && xs[1..] == [b] && [b][1..] == [];
    assert [] + long == long;
    assert Run(cfg, 0.0, [a]) == Step(cfg, Init(0.0), a);
    var s := Run(cfg, 0.0, xs);
    assert s.out == [short] && s.buf == long;
    assert Output(cfg, 0.0, xs) == [short, long];
    assert Flatten([short, long])[0] == 98;
    assert Consumed(xs) == [long] + Consumed([b]);
    assert Flatten(Consumed(xs))[0] == 97;
  }

  /** The relay keeps every stream in order exactly when the settings rule overtaking out. */
  lemma OrderPreservedIff(cfg: Config)
    ensures (forall t0: real, xs: seq<Arrival> :: Plausible(cfg, t0, xs) ==> InOrder(cfg, t0, xs)) <==> !CanReorder(cfg)
  {
    if CanReorder(cfg) {
      var xs := ReorderingRun(cfg);
    } else {
      forall t0: real, xs: seq<Arrival> | Plausible(cfg, t0, xs) ensures InOrder(cfg, t0, xs) {
        RelayCharacterisation(cfg, t0, xs);
      }
    }
  }

  /** At the default settings a chunk of 129 bytes and then one of a single byte come out swapped. */
  lemma DefaultsReorder() returns (xs: seq<Arrival>)
    ensures Plausible(DEFAULTS, 0.0, xs) && |xs| == 2 && |xs[0].chunk| == 129 && |xs[1].chunk| == 1
    ensures !InOrder(DEFAULTS, 0.0, xs)
  {
    xs := ReorderingRun(DEFAULTS);
  }

  // ---------------------------------------------------------------------------
  // When bytes are passed on and when they are held
  // ---------------------------------------------------------------------------

  /** The dynamic threshold starts at the larger of STREAM_FLUSH_BYTES and a quarter of the connection
      limit, cut off toward zero, and grows by at most an eighth of that, or one. */
  lemma ThresholdIs(cfg: Config)
    ensures var d, j := cfg.DynBase(), cfg.MaxJitter();
            && d >= cfg.streamFlush
            && (cfg.maxConn >= 0 ==> 4 * d + 4 > cfg.maxConn && (d == cfg.streamFlush || 4 * d <= cfg.maxConn))
            && (cfg.maxConn < 0 ==> 4 * d >= cfg.maxConn && (d == cfg.streamFlush || 4 * d - 4 < cfg.maxConn))
            && j >= 1 && 8 * j + 8 > d && (j == 1 || 8 * j <= d)
  {}

  lemma DefaultThreshold()
    ensures DEFAULTS.DynBase() == 8192 && DEFAULTS.MaxJitter() == 1024
  {}

  /** There is reason to pass `b` on before anything else has been. */
  ghost predicate FirstReason(cfg: Config, b: Bytes, waited: real) {
    || |b| >= cfg.firstFlush
    || (cfg.delimFlush && HasDelim(b))
    || (cfg.firstFlushMs != 0.0 && waited >= cfg.firstFlushMs)
  }

  ghost predicate Reason(cfg: Config, b: Bytes, threshold: int, waited: real) {
    || |b| >= threshold
    || (cfg.delimFlush && HasDelim(b))
    || waited >= cfg.streamFlushMs
  }

  /** A delimiter is two newlines in a row, anywhere. */
  lemma DelimAnywhere(b: Bytes)
    ensures HasDelim(b) <==> exists p: Bytes, q: Bytes :: b == p + [10, 10] + q
  {
    if i :| 0 <= i < |b| - 1 && b[i] == 10 && b[i + 1] == 10 {
      assert b == b[..i] + [10, 10] + b[i + 2..];
    }
    if p: Bytes, q: Bytes :| b == p + [10, 10] + q {
      assert b[|p|] == 10 && b[|p| + 1] == 10;
    }
  }

  /** After every run, what becomes of the next chunk: a short first one is passed on by itself, any
      other goes behind what is held, and all of that is passed on exactly if there is a reason to.
      Otherwise it is held, before the first packet and after it. */
  lemma PassedOnIff(cfg: Config, t0: real, xs: seq<Arrival>, a: Arrival)
    requires !Run(cfg, t0, xs).stopped && a.chunk != [] && !a.disconnected
    ensures var s, s' := Run(cfg, t0, xs), Run(cfg, t0, xs + [a]);
            var b, waited := s.buf + a.chunk, a.now - s.lastFlush;
            if !s.firstDone && |a.chunk| <= cfg.fastPath then
              s' == s.(out := s.out + [a.chunk], firstDone := true)
            else if !s.firstDone && FirstReason(cfg, b, waited) then
              s' == State([], a.now, true, false, s.out + [b])
            else if Reason(cfg, b, cfg.DynBase() + a.jitter, waited) then
              s' == State([], a.now, s.firstDone, false, s.out + [b])
            else
              s' == s.(buf := b)
  {
    assert (xs + [a])[..|xs|] == xs;
  }

  // ---------------------------------------------------------------------------
  // The generator
  // ---------------------------------------------------------------------------

  lemma {:induction false} StoppedStays(cfg: Config, t0: real, xs: seq<Arrival>, n: nat)
    requires n <= |xs| && Run(cfg, t0, xs[..n]).stopped
    ensures Run(cfg, t0, xs) == Run(cfg, t0, xs[..n])
  {
    if n < |xs| {
      var m := |xs| - 1;
      assert xs[..m][..n] == xs[..n];
      StoppedStays(cfg, t0, xs[..m], n);
    } else {
      assert xs[..n] == xs;
    }
  }

  method StreamGen(cfg: Config, t0: real, xs: seq<Arrival>) returns (out: seq<Bytes>)
    ensures out == Output(cfg, t0, xs)
  {
    var buf: Bytes := [];
    var lastFlush := t0;
    var firstDone := false;
    var dynBase := cfg.DynBase();
    out := [];
    var n := 0;
    while n < |xs|
      invariant n <= |xs|
      invariant Run(cfg, t0, xs[..n]) == State(buf, lastFlush, firstDone, false, out)
    {
      var a := xs[n];
      assert xs[..n + 1][..n] == xs[..n];
      n := n + 1;
      if a.chunk == [] {
        continue;
      }
      if a.disconnected {
        StoppedStays(cfg, t0, xs, n);
        break;
      }
      if !firstDone && |a.chunk| <= cfg.fastPath {
        out := out + [a.chunk];
        firstDone := true;
        continue;
      }
      buf := buf + a.chunk;
      if ShouldFlushFirstPacket(cfg, buf, firstDone, a.now, lastFlush) {
        out := out + [buf];
        buf := [];
        firstDone := true;
        lastFlush := a.now;
        continue;
      }
      if ShouldFlush(cfg, buf, dynBase + a.jitter, lastFlush, a.now) {
        out := out + [buf];
        buf := [];
        lastFlush := a.now;
      }
    }
    assert xs[..|xs|] == xs;
    if buf != [] {
      out := out + [buf];
    }
  }
}
