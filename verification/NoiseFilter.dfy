/** The line filter put around stdout and stderr, `_LineFilterIO` (wings_control/utils/noise_filter.py).
    Whether a line matches one of the noise patterns is a parameter. */
module NoiseFilter {
  import opened Common

  /** str.find("\n"), with |s| for "not found". */
  function Find(s: string): (n: nat)
    ensures n <= |s|
    ensures n < |s| ==> s[n] == '\n'
    ensures forall i :: 0 <= i < n ==> s[i] != '\n'
  {
    if s == "" || s[0] == '\n' then 0 else 1 + Find(s[1..])
  }

  /** What follows the last newline of a text, and its lines up to there. */
  function Tail(t: string): string {
    if t == "" || t[|t| - 1] == '\n' then "" else Tail(t[..|t| - 1]) + [t[|t| - 1]]
  }

  function Lines(t: string): seq<string> {
    if t == "" then []
    else if t[|t| - 1] == '\n' then Lines(t[..|t| - 1]) + [Tail(t[..|t| - 1]) + "\n"]
    else Lines(t[..|t| - 1])
  }

  function Kept(noisy: string -> bool, lines: seq<string>): string {
    if lines == [] then "" else (if noisy(lines[0]) then "" else lines[0]) + Kept(noisy, lines[1..])
  }

  datatype State = State(buf: string, sent: string, closed: bool)

  datatype Op = Write(text: string) | Flush | Close

  function FlushStep(noisy: string -> bool, s: State): State {
    if s.closed then s else State("", s.sent + (if noisy(s.buf) then "" else s.buf), false)
  }

  function WriteStep(noisy: string -> bool, s: State, text: string): State {
    if s.closed then s
    else State(Tail(s.buf + text), s.sent + Kept(noisy, Lines(s.buf + text)), false)
  }

  function Step(noisy: string -> bool, s: State, op: Op): State {
    match op
    case Write(text) => WriteStep(noisy, s, text)
    case Flush => FlushStep(noisy, s)
    case Close => FlushStep(noisy, s).(closed := true)
  }

  function Run(noisy: string -> bool, ops: seq<Op>): State {
    if ops == [] then State("", "", false)
    else Step(noisy, Run(noisy, ops[..|ops| - 1]), ops[|ops| - 1])
  }

  // ---------------------------------------------------------------------------
  // The batch form
  // ---------------------------------------------------------------------------

  /** A text without a newline is all tail. */
  lemma {:induction false} NoNewline(t: string)
    requires '\n' !in t
    ensures Lines(t) == [] && Tail(t) == t
  {
    if t != "" {
      NoNewline(t[..|t| - 1]);
    }
  }

  lemma {:induction false} TailHasNoNewline(t: string)
    ensures forall i :: 0 <= i < |Tail(t)| ==> Tail(t)[i] != '\n'
  {
    if t != "" && t[|t| - 1] != '\n' {
      TailHasNoNewline(t[..|t| - 1]);
    }
  }

  /** Filtering a text in two writes is filtering it in one. */
  lemma {:induction false} LinesConcat(a: string, b: string)
    ensures Lines(a + b) == Lines(a) + Lines(Tail(a) + b)
    ensures Tail(a + b) == Tail(Tail(a) + b)
    decreases |b|
  {
    if b == "" {
      assert a + b == a && Tail(a) + b == Tail(a);
      TailHasNoNewline(a);
      NoNewline(Tail(a));
    } else {
      var b', c := b[..|b| - 1], b[|b| - 1];
      LinesConcat(a, b');
      assert (a + b)[..|a + b| - 1] == a + b' && (Tail(a) + b)[..|Tail(a) + b| - 1] == Tail(a) + b';
    }
  }

  lemma LoneLine(body: string)
    requires forall i :: 0 <= i < |body| ==> body[i] != '\n'
    ensures Lines(body + "\n") == [body + "\n"] && Tail(body + "\n") == ""
  {
    NoNewline(body);
    var line := body + "\n";
    assert line[..|line| - 1] == body;
    assert [] + [line] == [line];
  }

  /** Taking the first line off a text, as the scan does. */
  lemma TakeLine(t: string)
    requires Find(t) < |t|
    ensures var line, rest := t[..Find(t) + 1], t[Find(t) + 1..];
            Lines(t) == [line] + Lines(rest) && Tail(t) == Tail(rest)
  {
    var n := Find(t);
    var line, rest := t[..n + 1], t[n + 1..];
    LoneLine(t[..n]);
    assert t[..n] + "\n" == line;
    assert t == line + rest;
    LinesConcat(line, rest);
    assert Tail(line) + rest == rest;
    assert Lines(t) == Lines(line) + Lines(rest);
  }

  lemma KeptFirst(noisy: string -> bool, line: string, lines: seq<string>)
    ensures Kept(noisy, [line] + lines) == (if noisy(line) then "" else line) + Kept(noisy, lines)
  {
    assert ([line] + lines)[1..] == lines;
  }

  lemma {:induction false} KeptConcat(noisy: string -> bool, a: seq<string>, b: seq<string>)
    ensures Kept(noisy, a + b) == Kept(noisy, a) + Kept(noisy, b)
  {
    if a == [] {
      assert a + b == b;
    } else {
      KeptConcat(noisy, a[1..], b);
      assert (a + b)[0] == a[0] && (a + b)[1..] == a[1..] + b;
      Assoc(if noisy(a[0]) then "" else a[0], Kept(noisy, a[1..]), Kept(noisy, b));
    }
  }

  /** Nothing is lost: complete lines and tail make up the text. */
  lemma {:induction false} LinesAreTheText(t: string)
    ensures Kept(_ => false, Lines(t)) + Tail(t) == t
  {
    if t != "" {
      var t', c := t[..|t| - 1], t[|t| - 1];
      LinesAreTheText(t');
      if c == '\n' {
        var line := Tail(t') + "\n";
        KeptConcat(_ => false, Lines(t'), [line]);
        KeptFirst(_ => false, line, []);
        assert [line] + [] == [line] && line + "" == line;
        Assoc(Kept(_ => false, Lines(t')), Tail(t'), "\n");
      } else {
        Assoc(Kept(_ => false, Lines(t')), Tail(t'), [c]);
      }
    }
  }

  predicate Closed(ops: seq<Op>) {
    ops != [] && (ops[|ops| - 1].Close? || Closed(ops[..|ops| - 1]))
  }

  /** The text written since the last flush, and the texts between earlier flushes. */
  function Current(ops: seq<Op>): string {
    if ops == [] then ""
    else
      var n := |ops| - 1;
      if Closed(ops[..n]) then ""
      else match ops[n]
           case Write(text) => Current(ops[..n]) + text
           case _ => ""
  }

  function Flushed(ops: seq<Op>): seq<string> {
    if ops == [] then []
    else
      var n := |ops| - 1;
      if Closed(ops[..n]) || ops[n].Write? then Flushed(ops[..n])
      else Flushed(ops[..n]) + [Current(ops[..n])]
  }

  /** What one text between two flushes comes to: its lines, and its tail as one more line. */
  function Filtered(noisy: string -> bool, text: string): string {
    Kept(noisy, Lines(text) + [Tail(text)])
  }

  function FilteredAll(noisy: string -> bool, texts: seq<string>): string {
    if texts == [] then "" else FilteredAll(noisy, texts[..|texts| - 1]) + Filtered(noisy, texts[|texts| - 1])
  }

  /** For every sequence of operations: what has reached the stream is the batch filtering of the
      texts between flushes and of the complete lines written since, and the buffer is the rest.  How
      the text was cut into writes does not matter. */
  lemma {:induction false} EqualsBatch(noisy: string -> bool, ops: seq<Op>)
    ensures Batch(noisy, ops, Run(noisy, ops))
  {
    if ops != [] {
      var before, op := ops[..|ops| - 1], ops[|ops| - 1];
      EqualsBatch(noisy, before);
      var s, done := Run(noisy, before), FilteredAll(noisy, Flushed(before));
      if Closed(before) {
      } else if op.Write? {
        FilterWrite(noisy, s, done, Current(before), op.text);
      } else {
        FilterFlush(noisy, s, done, Current(before), op);
        FilteredAllSnoc(noisy, Flushed(before), Current(before));
      }
    }
  }

  ghost predicate Batch(noisy: string -> bool, ops: seq<Op>, s: State) {
    && s.closed == Closed(ops)
    && (s.closed ==> Current(ops) == "")
    && Holds(noisy, s, FilteredAll(noisy, Flushed(ops)), Current(ops))
  }

  /** The stream has received `done` and the complete lines of `cur`; the rest of it is buffered. */
  ghost predicate Holds(noisy: string -> bool, s: State, done: string, cur: string) {
    s.buf == Tail(cur) && s.sent == done + Kept(noisy, Lines(cur))
  }

  lemma FilterWrite(noisy: string -> bool, s: State, done: string, cur: string, text: string)
    requires Holds(noisy, s, done, cur) && !s.closed
    ensures Holds(noisy, WriteStep(noisy, s, text), done, cur + text)
  {
    LinesConcat(cur, text);
    KeptConcat(noisy, Lines(cur), Lines(Tail(cur) + text));
    Assoc(done, Kept(noisy, Lines(cur)), Kept(noisy, Lines(Tail(cur) + text)));
  }

  lemma FilteredText(noisy: string -> bool, text: string)
    ensures Filtered(noisy, text) == Kept(noisy, Lines(text)) + if noisy(Tail(text)) then "" else Tail(text)
  {
    KeptConcat(noisy, Lines(text), [Tail(text)]);
    assert [Tail(text)][1..] == [];
  }

  lemma FilterFlush(noisy: string -> bool, s: State, done: string, cur: string, op: Op)
    requires Holds(noisy, s, done, cur) && !s.closed && !op.Write?
    ensures Holds(noisy, Step(noisy, s, op), done + Filtered(noisy, cur), "")
  {
    FilteredText(noisy, cur);
    Assoc(done, Kept(noisy, Lines(cur)), if noisy(Tail(cur)) then "" else Tail(cur));
  }

  lemma FilteredAllSnoc(noisy: string -> bool, texts: seq<string>, text: string)
    ensures FilteredAll(noisy, texts + [text]) == FilteredAll(noisy, texts) + Filtered(noisy, text)
  {
    assert (texts + [text])[..|texts|] == texts;
  }

  // ---------------------------------------------------------------------------
  // What a write returns
  // ---------------------------------------------------------------------------

  function WriteCount(noisy: string -> bool, s: State, text: string): nat {
    var out := Kept(noisy, Lines(s.buf + text));
    if s.closed then 0 else if out != "" then |out| else |text|
  }

  /** The documentation has a write return 0 when every line was filtered out.  On an open stream that
      takes nothing in, it does so only for the empty text. */
  lemma ZeroWhenFilteredIff(noisy: string -> bool, s: State, text: string)
    requires !s.closed && WriteStep(noisy, s, text).sent == s.sent
    ensures WriteCount(noisy, s, text) == 0 <==> text == ""
  {
    assert |s.sent + Kept(noisy, Lines(s.buf + text))| == |s.sent| + |Kept(noisy, Lines(s.buf + text))|;
  }

  /** One line of noise: nothing is written and its length comes back. */
  lemma FilteredLineCounts(noisy: string -> bool, body: string)
    requires (forall i :: 0 <= i < |body| ==> body[i] != '\n') && noisy(body + "\n")
    ensures var s := State("", "", false);
            WriteStep(noisy, s, body + "\n") == s && WriteCount(noisy, s, body + "\n") == |body| + 1
  {
    var line := body + "\n";
    assert "" + line == line;
    LoneLine(body);
    KeptFirst(noisy, line, []);
    assert [line] + [] == [line] && Kept(noisy, [line]) == "";
  }

  // ---------------------------------------------------------------------------
  // The stream wrapper
  // ---------------------------------------------------------------------------

  /** One line of the scan. */
  lemma ScanOne(noisy: string -> bool, out: string, t: string)
    requires Find(t) < |t|
    ensures var line, rest := t[..Find(t) + 1], t[Find(t) + 1..];
            out + Kept(noisy, Lines(t)) == (if noisy(line) then out else out + line) + Kept(noisy, Lines(rest))
  {
    var line, rest := t[..Find(t) + 1], t[Find(t) + 1..];
    TakeLine(t);
    KeptFirst(noisy, line, Lines(rest));
    Assoc(out, if noisy(line) then "" else line, Kept(noisy, Lines(rest)));
    assert out + "" == out;
  }

  /** The scan inside `write`: take complete lines off the front until no newline is left. */
  method Scan(noisy: string -> bool, text: string) returns (out: string, rest: string)
    ensures out == Kept(noisy, Lines(text)) && rest == Tail(text)
  {
    out, rest := "", text;
    assert out + Kept(noisy, Lines(rest)) == Kept(noisy, Lines(text));
    while Find(rest) < |rest|
      invariant Tail(rest) == Tail(text)
      invariant out + Kept(noisy, Lines(rest)) == Kept(noisy, Lines(text))
      decreases |rest|
    {
      var nl := Find(rest);
      var line := rest[..nl + 1];
      TakeLine(rest);
      ScanOne(noisy, out, rest);
      rest := rest[nl + 1..];
      if !noisy(line) {
        out := out + line;
      }
    }
    NoNewline(rest);
    assert out + "" == out;
  }

  class LineFilterIO {
    const noisy: string -> bool
    var buf: string
    var sent: string        // everything written to the underlying stream
    var closed: bool

    ghost function Abs(): State
      reads this
    {
      State(buf, sent, closed)
    }

    constructor (noisy: string -> bool)
      ensures this.noisy == noisy && Abs() == Run(noisy, [])
    {
      this.noisy := noisy;
      buf, sent, closed := "", "", false;
    }

    /** Returns the length written to the underlying stream, or the length of `text` when nothing was. */
    method Write(text: string) returns (count: nat)
      modifies this
      ensures Abs() == WriteStep(noisy, old(Abs()), text)
      ensures count == WriteCount(noisy, old(Abs()), text)
      ensures old(closed) ==> count == 0
      ensures !old(closed) ==> count == if sent != old(sent) then |sent| - |old(sent)| else |text|
    {
      if closed {
        return 0;
      }
      var out;
      out, buf := Scan(noisy, buf + text);
      sent := sent + out;
      count := if out != "" then |out| else |text|;
    }

    method Flush()
      modifies this
      ensures Abs() == FlushStep(noisy, old(Abs()))
    {
      if closed {
        return;
      }
      if buf != "" {
        var tail := buf;
        buf := "";
        if !noisy(tail) {
          sent := sent + tail;
        }
      }
    }

    method Close()
      modifies this
      ensures Abs() == Step(noisy, old(Abs()), Op.Close)
    {
      if !closed {
        Flush();
        closed := true;
      }
    }
  }
}
