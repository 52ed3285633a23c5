/** Reassembly of server-sent events from raw chunks, `_process_chunk_response` and
    `_process_combine_response` (wings_control/rag_acc/stream_collector.py).  JSON decoding of one
    data line is a parameter. */
module SseLines {
  import opened Common

  /** The line boundaries str.splitlines recognises. */
  predicate IsBreak(c: char) {
    c in "\n\r\U{0B}\U{0C}\U{1C}\U{1D}\U{1E}\U{85}\U{2028}\U{2029}"
  }

  /** The characters str.strip removes. */
  predicate IsSpace(c: char) {
    IsBreak(c) || c in " \t\U{1F}\U{A0}\U{1680}\U{202F}\U{205F}\U{3000}" || '\U{2000}' <= c <= '\U{200A}'
  }

  /** Length of the first line of `s` with its terminator; a carriage return and a newline are one
      terminator. */
  function FirstLine(s: string): (n: nat)
    requires s != ""
    ensures 0 < n <= |s|
  {
    if !IsBreak(s[0]) then (if |s| == 1 then 1 else 1 + FirstLine(s[1..]))
    else if s[0] == '\r' && |s| > 1 && s[1] == '\n' then 2
    else 1
  }

  /** str.splitlines(True) */
  function SplitLines(s: string): seq<string> {
    if s == "" then [] else [s[..FirstLine(s)]] + SplitLines(s[FirstLine(s)..])
  }

  function Strip(s: string): string {
    if s != "" && IsSpace(s[0]) then Strip(s[1..])
    else if s != "" && IsSpace(s[|s| - 1]) then Strip(s[..|s| - 1])
    else s
  }

  /** What the inner loop does with one line: nothing, stop, or hand on an event. */
  datatype LineResult<E> = Skip | Done | Event(event: E)

  function ProcessLine<E>(parse: string -> Option<E>, line: string): LineResult<E> {
    var l := Strip(line);
    if !("data: " <= l) then Skip
    else if l[6..] == "[DONE]" then Done
    else match parse(l[6..])
         case Some(e) => Event(e)
         case None => Skip
  }

  /** The loops below only need to know what is done with each line. */
  type LineReader<!E> = string -> LineResult<E>

  function Reader<E>(parse: string -> Option<E>): LineReader<E> {
    (line: string) => ProcessLine(parse, line)
  }

  /** The inner loop over the lines of one chunk: `[DONE]` leaves this loop only. */
  function LineEvents<E>(reader: LineReader<E>, lines: seq<string>): seq<E> {
    if lines == [] then []
    else match reader(lines[0])
         case Skip => LineEvents(reader, lines[1..])
         case Done => []
         case Event(e) => [e] + LineEvents(reader, lines[1..])
  }

  predicate EndsLine(s: string) {
    s != "" && s[|s| - 1] == '\n'
  }

  /** Lines handed on and the text kept for later, after splitting `s`; `text` is the newest chunk. */
  function Cut(s: string, text: string): (seq<string>, string)
    requires text != "" ==> s != ""
    requires text == "" ==> SplitLines(s) != []
  {
    var lines := SplitLines(s);
    if EndsLine(text) then (lines, "") else (lines[..|lines| - 1], lines[|lines| - 1])
  }

  datatype State<E> = State(buffer: string, events: seq<E>, failed: bool)

  /** One chunk of decoded text.  An empty chunk pops from an empty list unless text is buffered:
      the generator then ends with an IndexError. */
  function Step<E>(reader: LineReader<E>, st: State<E>, text: string): State<E> {
    if st.failed || (text == "" && st.buffer == "") then st.(failed := true)
    else
      var (lines, rest) := Cut(st.buffer + text, text);
      State(rest, st.events + LineEvents(reader, lines), false)
  }

  function Run<E>(reader: LineReader<E>, chunks: seq<string>): State<E> {
    if chunks == [] then State("", [], false)
    else Step(reader, Run(reader, chunks[..|chunks| - 1]), chunks[|chunks| - 1])
  }

  // ---------------------------------------------------------------------------
  // Splitting a text in two
  // ---------------------------------------------------------------------------

  /** The lines of a text that are handed on, and the tail that is not. */
  function Complete(t: string): seq<string> {
    if t == "" || EndsLine(t) then SplitLines(t) else SplitLines(t)[..|SplitLines(t)| - 1]
  }

  function Rest(t: string): string {
    if t == "" || EndsLine(t) then "" else SplitLines(t)[|SplitLines(t)| - 1]
  }

  function Concat(chunks: seq<string>): string {
    if chunks == [] then "" else Concat(chunks[..|chunks| - 1]) + chunks[|chunks| - 1]
  }

  lemma {:induction false} FirstLinePrefix(s: string, t: string)
    requires s != ""
    ensures FirstLine(s) < |s| ==> FirstLine(s + t) == FirstLine(s)
    ensures FirstLine(s) == |s| && EndsLine(s) ==> FirstLine(s + t) == |s|
    ensures FirstLine(s) == |s| ==> FirstLine(s + t) >= |s|
  {
    if !IsBreak(s[0]) && |s| > 1 {
      FirstLinePrefix(s[1..], t);
      assert (s + t)[1..] == s[1..] + t;
    }
  }

  lemma SplitOnce(s: string, t: string)
    requires s != "" && FirstLine(s) < |s|
    ensures SplitLines(s) == [s[..FirstLine(s)]] + SplitLines(s[FirstLine(s)..])
    ensures SplitLines(s + t) == [s[..FirstLine(s)]] + SplitLines(s[FirstLine(s)..] + t)
  {
    var n := FirstLine(s);
    FirstLinePrefix(s, t);
    assert (s + t)[..n] == s[..n] && (s + t)[n..] == s[n..] + t;
  }

  lemma OneLine(s: string)
    requires s != "" && FirstLine(s) == |s|
    ensures SplitLines(s) == [s]
  {
    assert s[..|s|] == s && s[|s|..] == "";
  }

  lemma SplitWholeLine(s: string, t: string)
    requires EndsLine(s) && FirstLine(s) == |s|
    ensures SplitLines(s + t) == SplitLines(s) + SplitLines(t)
  {
    FirstLinePrefix(s, t);
    OneLine(s);
    assert (s + t)[..|s|] == s && (s + t)[|s|..] == t;
  }

  /** A chunk that follows a finished line is split on its own. */
  lemma {:induction false} SplitAfterNewline(s: string, t: string)
    requires EndsLine(s)
    ensures SplitLines(s + t) == SplitLines(s) + SplitLines(t)
  {
    var n := FirstLine(s);
    if n < |s| {
      SplitOnce(s, t);
      SplitAfterNewline(s[n..], t);
      Assoc([s[..n]], SplitLines(s[n..]), SplitLines(t));
    } else {
      SplitWholeLine(s, t);
    }
  }

  lemma OneLineMore(first: string, lines: seq<string>, tail: seq<string>)
    requires lines != []
    ensures var l := [first] + lines;
            l[|l| - 1] == lines[|lines| - 1] && l[..|l| - 1] + tail == [first] + (lines[..|lines| - 1] + tail)
  {
    assert ([first] + lines)[..|lines|] == [first] + lines[..|lines| - 1];
  }

  /** Otherwise it only affects the line the text so far ends in. */
  lemma {:induction false} SplitInsideLine(s: string, t: string)
    requires s != ""
    ensures var l := SplitLines(s); SplitLines(s + t) == l[..|l| - 1] + SplitLines(l[|l| - 1] + t)
  {
    var n := FirstLine(s);
    if n < |s| {
      SplitOnce(s, t);
      SplitInsideLine(s[n..], t);
      var m := SplitLines(s[n..]);
      OneLineMore(s[..n], m, SplitLines(m[|m| - 1] + t));
    } else {
      OneLine(s);
      assert [s][..0] == [] && [] + SplitLines(s + t) == SplitLines(s + t);
    }
  }

  /** The kept tail is one line. */
  lemma {:induction false} RestIsOneLine(s: string)
    requires s != ""
    ensures var l := SplitLines(s)[|SplitLines(s)| - 1]; l != "" && FirstLine(l) == |l| && EndsLine(l) == EndsLine(s)
  {
    var n := FirstLine(s);
    if n < |s| {
      RestIsOneLine(s[n..]);
    } else {
      assert s[..n] == s && SplitLines(s[n..]) == [];
    }
  }

  lemma {:induction false} ConcatFirst(line: string, lines: seq<string>)
    ensures Concat([line] + lines) == line + Concat(lines)
  {
    if lines == [] {
      assert [line] + lines == [line] && [line][..0] == [];
      assert Concat([line]) == "" + line && line + "" == line;
    } else {
      var n := |lines| - 1;
      ConcatFirst(line, lines[..n]);
      assert ([line] + lines)[..n + 1] == [line] + lines[..n];
      Assoc(line, Concat(lines[..n]), lines[n]);
    }
  }

  /** Splitting loses no text. */
  lemma {:induction false} SplitIsTheText(t: string)
    ensures Concat(SplitLines(t)) == t
  {
    if t != "" {
      var n := FirstLine(t);
      SplitIsTheText(t[n..]);
      ConcatFirst(t[..n], SplitLines(t[n..]));
      assert t[..n] + t[n..] == t;
    }
  }

  /** Before its end a line holds no newline. */
  lemma {:induction false} NewlineEndsLine(s: string, i: nat)
    requires s != "" && i < FirstLine(s) - 1
    ensures s[i] != '\n'
  {
    if !IsBreak(s[0]) && i > 0 {
      NewlineEndsLine(s[1..], i - 1);
    }
  }

  /** Nothing is lost and nothing unfinished is handed on: the complete lines and the tail make up the
      text, and the tail contains no newline. */
  lemma LinesAndTail(t: string)
    ensures Concat(Complete(t)) + Rest(t) == t
    ensures forall i :: 0 <= i < |Rest(t)| ==> Rest(t)[i] != '\n'
  {
    SplitIsTheText(t);
    if t == "" || EndsLine(t) {
      assert Concat(Complete(t)) + "" == t;
    } else {
      var r := Rest(t);
      RestIsOneLine(t);
      forall i | 0 <= i < |r| ensures r[i] != '\n' {
        if i < |r| - 1 { NewlineEndsLine(r, i); }
      }
    }
  }

  /** The lines chunk `t` completes after text `s`. */
  function NewLines(s: string, t: string): seq<string>
    requires t != ""
  {
    Cut(Rest(s) + t, t).0
  }

  lemma SplitWhole(s: string, t: string)
    requires t != ""
    ensures SplitLines(s + t) == Complete(s) + SplitLines(Rest(s) + t)
  {
    if s == "" {
      assert s + t == t && Rest(s) + t == t;
    } else if EndsLine(s) {
      SplitAfterNewline(s, t);
      assert Rest(s) + t == t;
    } else {
      SplitInsideLine(s, t);
    }
  }

  lemma WithoutLast(a: seq<string>, b: seq<string>)
    requires b != []
    ensures (a + b)[..|a + b| - 1] == a + b[..|b| - 1] && (a + b)[|a + b| - 1] == b[|b| - 1]
  {}

  /** One more chunk: the lines it completes are those the whole text has more. */
  lemma CompleteConcat(s: string, t: string)
    requires t != ""
    ensures Complete(s + t) == Complete(s) + NewLines(s, t)
    ensures Rest(s + t) == Cut(Rest(s) + t, t).1
  {
    assert EndsLine(s + t) == EndsLine(t);
    SplitWhole(s, t);
    if !EndsLine(t) {
      WithoutLast(Complete(s), SplitLines(Rest(s) + t));
    }
  }

  // ---------------------------------------------------------------------------
  // The machine against the whole text
  // ---------------------------------------------------------------------------

  ghost predicate NonEmpty(chunks: seq<string>) {
    forall i :: 0 <= i < |chunks| ==> chunks[i] != ""
  }

  lemma StepOnText<E>(reader: LineReader<E>, st: State<E>, s: string, t: string)
    requires !st.failed && st.buffer == Rest(s) && t != ""
    ensures Step(reader, st, t) == State(Rest(s + t), st.events + LineEvents(reader, NewLines(s, t)), false)
  {
    CompleteConcat(s, t);
  }

  /** A kept tail cut again with nothing new is a tail still. */
  lemma CutNothing(s: string)
    requires Rest(s) != ""
    ensures Cut(Rest(s) + "", "") == ([], Rest(s))
  {
    RestIsOneLine(s);
    OneLine(Rest(s));
    assert Rest(s) + "" == Rest(s);
  }

  lemma StepOnNothing<E>(reader: LineReader<E>, st: State<E>, s: string)
    requires !st.failed && st.buffer == Rest(s)
    ensures Step(reader, st, "") == st.(failed := Rest(s) == "")
  {
    if Rest(s) != "" {
      CutNothing(s);
      assert st.events + [] == st.events;
    }
  }

  /** An empty chunk arrived while no partial line was kept. */
  predicate PopsEmpty(chunks: seq<string>) {
    chunks != [] &&
    var n := |chunks| - 1;
    PopsEmpty(chunks[..n]) || (chunks[n] == "" && Rest(Concat(chunks[..n])) == "")
  }

  /** The lines the inner loop is given over a whole run. */
  function Processed<E>(reader: LineReader<E>, chunks: seq<string>): seq<string> {
    if chunks == [] then []
    else
      var n := |chunks| - 1;
      var st, t := Run(reader, chunks[..n]), chunks[n];
      Processed(reader, chunks[..n]) +
      if st.failed || (t == "" && st.buffer == "") then [] else Cut(st.buffer + t, t).0
  }

  lemma {:induction false} TailAndLines<E>(reader: LineReader<E>, chunks: seq<string>)
    ensures Run(reader, chunks).failed <==> PopsEmpty(chunks)
    ensures !Run(reader, chunks).failed ==>
              Run(reader, chunks).buffer == Rest(Concat(chunks))
              && Processed(reader, chunks) == Complete(Concat(chunks))
  {
    if chunks != [] {
      var n := |chunks| - 1;
      var cs, t := chunks[..n], chunks[n];
      TailAndLines(reader, cs);
      var st, s := Run(reader, cs), Concat(cs);
      if !st.failed {
        if t != "" {
          StepOnText(reader, st, s, t);
          CompleteConcat(s, t);
        } else {
          StepOnNothing(reader, st, s);
          assert s + "" == s;
          if Rest(s) != "" {
            CutNothing(s);
          }
        }
      }
    }
  }

  /** Whatever the chunking: the generator fails exactly when an empty chunk arrives while no partial
      line is kept.  Until then the lines it has processed are the complete lines of the text so far,
      they and the buffer together are that text, and the buffer contains no newline. */
  lemma KeepsTheTail<E>(reader: LineReader<E>, chunks: seq<string>)
    ensures Run(reader, chunks).failed <==> PopsEmpty(chunks)
    ensures !PopsEmpty(chunks) ==>
              var text, buffer := Concat(chunks), Run(reader, chunks).buffer;
              && buffer == Rest(text) && Processed(reader, chunks) == Complete(text)
              && Concat(Processed(reader, chunks)) + buffer == text
              && forall i :: 0 <= i < |buffer| ==> buffer[i] != '\n'
  {
    TailAndLines(reader, chunks);
    LinesAndTail(Concat(chunks));
  }

  /** The events of all complete lines, `[DONE]` or not. */
  function AllEvents<E>(reader: LineReader<E>, lines: seq<string>): seq<E> {
    if lines == [] then []
    else match reader(lines[0])
         case Event(e) => [e] + AllEvents(reader, lines[1..])
         case _ => AllEvents(reader, lines[1..])
  }

  ghost predicate NothingAfterDone<E>(reader: LineReader<E>, lines: seq<string>) {
    forall i, j :: 0 <= i < j < |lines| && reader(lines[i]).Done? ==> !reader(lines[j]).Event?
  }

  function FirstEvent<E>(reader: LineReader<E>, line: string): seq<E> {
    match reader(line)
    case Event(e) => [e]
    case _ => []
  }

  lemma AllEventsFirst<E>(reader: LineReader<E>, lines: seq<string>)
    requires lines != []
    ensures AllEvents(reader, lines) == FirstEvent(reader, lines[0]) + AllEvents(reader, lines[1..])
  {
    assert [] + AllEvents(reader, lines[1..]) == AllEvents(reader, lines[1..]);
  }

  lemma {:induction false} AllEventsConcat<E>(reader: LineReader<E>, a: seq<string>, b: seq<string>)
    ensures AllEvents(reader, a + b) == AllEvents(reader, a) + AllEvents(reader, b)
  {
    if a == [] {
      assert a + b == b;
    } else {
      assert (a + b)[0] == a[0] && (a + b)[1..] == a[1..] + b;
      AllEventsConcat(reader, a[1..], b);
      AllEventsFirst(reader, a);
      AllEventsFirst(reader, a + b);
      Assoc(FirstEvent(reader, a[0]), AllEvents(reader, a[1..]), AllEvents(reader, b));
    }
  }

  lemma {:induction false} NoEventLines<E>(reader: LineReader<E>, lines: seq<string>)
    ensures AllEvents(reader, lines) == [] <==> forall i :: 0 <= i < |lines| ==> !reader(lines[i]).Event?
  {
    if lines != [] {
      NoEventLines(reader, lines[1..]);
      if forall i :: 0 <= i < |lines| - 1 ==> !reader(lines[1..][i]).Event? {
        assert forall i :: 0 < i < |lines| ==> lines[i] == lines[1..][i - 1];
      }
    }
  }

  /** Stopping at `[DONE]` loses nothing exactly when no event follows it. */
  lemma {:induction false} DoneLosesNothing<E>(reader: LineReader<E>, lines: seq<string>)
    ensures LineEvents(reader, lines) == AllEvents(reader, lines) <==> NothingAfterDone(reader, lines)
    ensures LineEvents(reader, lines) <= AllEvents(reader, lines)
  {
    if lines != [] {
      var rest := lines[1..];
      DoneLosesNothing(reader, rest);
      NoEventLines(reader, rest);
      if reader(lines[0]).Done? {
        if NothingAfterDone(reader, lines) {
          forall i | 0 <= i < |rest| ensures !reader(rest[i]).Event? { assert rest[i] == lines[i + 1]; }
        } else {
          var i, j :| 0 <= i < j < |lines| && reader(lines[i]).Done? && reader(lines[j]).Event?;
          assert rest[j - 1] == lines[j];
        }
      } else if NothingAfterDone(reader, rest) {
        forall i, j | 0 <= i < j < |lines| && reader(lines[i]).Done? ensures !reader(lines[j]).Event? {
          assert lines[i] == rest[i - 1] && lines[j] == rest[j - 1];
        }
      } else {
        var i, j :| 0 <= i < j < |rest| && reader(rest[i]).Done? && reader(rest[j]).Event?;
        assert lines[i + 1] == rest[i] && lines[j + 1] == rest[j];
      }
    }
  }

  lemma NothingAfterDoneParts<E>(reader: LineReader<E>, a: seq<string>, b: seq<string>)
    requires NothingAfterDone(reader, a + b)
    ensures NothingAfterDone(reader, a) && NothingAfterDone(reader, b)
  {
    var all := a + b;
    forall i, j | 0 <= i < j < |a| && reader(a[i]).Done? ensures !reader(a[j]).Event? {
      assert a[i] == all[i] && a[j] == all[j];
    }
    forall i, j | 0 <= i < j < |b| && reader(b[i]).Done? ensures !reader(b[j]).Event? {
      assert b[i] == all[|a| + i] && b[j] == all[|a| + j];
    }
  }

  lemma EventsOfOneMore<E>(reader: LineReader<E>, st: State<E>, s: string, t: string)
    requires !st.failed && st.buffer == Rest(s) && t != "" && st.events == AllEvents(reader, Complete(s))
    requires NothingAfterDone(reader, NewLines(s, t))
    ensures Step(reader, st, t).events == AllEvents(reader, Complete(s + t))
  {
    StepOnText(reader, st, s, t);
    CompleteConcat(s, t);
    DoneLosesNothing(reader, NewLines(s, t));
    AllEventsConcat(reader, Complete(s), NewLines(s, t));
  }

  /** If no event follows a `[DONE]` line, the events are those of the complete lines of the text. */
  lemma {:induction false} EventsOfText<E>(reader: LineReader<E>, chunks: seq<string>)
    requires NonEmpty(chunks) && NothingAfterDone(reader, Complete(Concat(chunks)))
    ensures Run(reader, chunks).events == AllEvents(reader, Complete(Concat(chunks)))
    ensures !Run(reader, chunks).failed
  {
    if chunks != [] {
      var before, t := chunks[..|chunks| - 1], chunks[|chunks| - 1];
      var s := Concat(before);
      assert NothingAfterDone(reader, Complete(s)) && NothingAfterDone(reader, NewLines(s, t)) by {
        CompleteConcat(s, t);
        NothingAfterDoneParts(reader, Complete(s), NewLines(s, t));
      }
      EventsOfText(reader, before);
      KeepsTheTail(reader, before);
      EventsOfOneMore(reader, Run(reader, before), s, t);
    }
  }

  /** The text one character at a time. */
  function Chars(t: string): seq<string> {
    seq(|t|, i requires 0 <= i < |t| => [t[i]])
  }

  lemma {:induction false} CharsConcat(t: string)
    ensures Concat(Chars(t)) == t
  {
    if t != "" {
      var n := |t| - 1;
      CharsConcat(t[..n]);
      assert Chars(t)[..n] == Chars(t[..n]);
    }
  }

  lemma OneCharSplit(s: string, c: char)
    ensures var lines := NewLines(s, [c]); |lines| <= 1 || lines == [Rest(s), "\n"]
  {
    var b := Rest(s);
    var t := b + [c];
    OneLine([c]);
    if b == "" {
      assert t == [c];
    } else {
      RestIsOneLine(s);
      FirstLinePrefix(b, [c]);
      if FirstLine(t) == |t| {
        OneLine(t);
      } else {
        assert t[..|b|] == b && t[|b|..] == [c];
        assert SplitLines(t) == [b] + SplitLines([c]) == [b, [c]];
      }
    }
  }

  /** A single character completes at most one line that is not blank. */
  lemma OneCharLines<E>(reader: LineReader<E>, s: string, c: char)
    requires reader("\n").Skip?
    ensures LineEvents(reader, NewLines(s, [c])) == AllEvents(reader, NewLines(s, [c]))
  {
    var lines := NewLines(s, [c]);
    OneCharSplit(s, c);
    DoneLosesNothing(reader, lines);
  }

  lemma OneCharStep<E>(reader: LineReader<E>, st: State<E>, s: string, c: char)
    requires reader("\n").Skip? && st == State(Rest(s), AllEvents(reader, Complete(s)), false)
    ensures Step(reader, st, [c]) == State(Rest(s + [c]), AllEvents(reader, Complete(s + [c])), false)
  {
    StepOnText(reader, st, s, [c]);
    CompleteConcat(s, [c]);
    OneCharLines(reader, s, c);
    AllEventsConcat(reader, Complete(s), NewLines(s, [c]));
  }

  lemma {:induction false} CharByChar<E>(reader: LineReader<E>, t: string)
    requires reader("\n").Skip?
    ensures Run(reader, Chars(t)) == State(Rest(t), AllEvents(reader, Complete(t)), false)
  {
    if t != "" {
      var n := |t| - 1;
      var s, c := t[..n], t[n];
      CharByChar(reader, s);
      assert Chars(t)[..n] == Chars(s) && Chars(t)[n] == [c] && s + [c] == t;
      OneCharStep(reader, Run(reader, Chars(s)), s, c);
    }
  }

  lemma OneChunk<E>(reader: LineReader<E>, t: string)
    requires t != ""
    ensures Run(reader, [t]).events == LineEvents(reader, Complete(t))
  {
    assert [t][..0] == [] && "" + t == t;
    assert Run(reader, [t]) == Step(reader, Run(reader, []), t);
  }

  lemma BlankLine<E>(parse: string -> Option<E>)
    ensures Reader(parse)("\n").Skip?
  {
    assert "\n"[1..] == "";
    assert Strip("\n") == "";
  }

  /** The parsed events depend only on the text, for every way of cutting it into chunks, exactly
      when no event line follows a `[DONE]` line: `[DONE]` ends the work on its chunk only. */
  lemma ChunkingIndependence<E(!new)>(parse: string -> Option<E>, t: string)
    requires t != ""
    ensures var reader := Reader(parse);
            (forall chunks: seq<string> :: NonEmpty(chunks) && Concat(chunks) == t
                 ==> Run(reader, chunks).events == Run(reader, [t]).events)
            <==> NothingAfterDone(reader, Complete(t))
  {
    var reader := Reader(parse);
    OneChunk(reader, t);
    DoneLosesNothing(reader, Complete(t));
    if NothingAfterDone(reader, Complete(t)) {
      forall chunks: seq<string> | NonEmpty(chunks) && Concat(chunks) == t
        ensures Run(reader, chunks).events == Run(reader, [t]).events
      {
        EventsOfText(reader, chunks);
      }
    } else {
      BlankLine(parse);
      CharByChar(reader, t);
      CharsConcat(t);
      assert NonEmpty(Chars(t));
    }
  }

  ghost predicate Unbroken(s: string) {
    forall i :: 0 <= i < |s| ==> !IsBreak(s[i])
  }

  lemma UnbrokenData(data: string)
    requires Unbroken(data)
    ensures Unbroken("data: " + data)
  {
    assert Unbroken("data: ");
  }

  lemma {:induction false} PlainLine(body: string)
    requires Unbroken(body)
    ensures FirstLine(body + "\n") == |body| + 1
  {
    if body != "" {
      PlainLine(body[1..]);
      assert (body + "\n")[1..] == body[1..] + "\n";
    }
  }

  lemma StripLine(body: string)
    requires body != "" && !IsSpace(body[0]) && !IsSpace(body[|body| - 1])
    ensures Strip(body + "\n") == body
  {
    var line := body + "\n";
    assert line[..|line| - 1] == body;
    assert Strip(line) == Strip(body) == body;
  }

  lemma LoneLine(body: string)
    requires Unbroken(body)
    ensures EndsLine(body + "\n") && SplitLines(body + "\n") == [body + "\n"]
    ensures FirstLine(body + "\n") == |body + "\n"|
  {
    PlainLine(body);
    OneLine(body + "\n");
  }

  lemma ReadLine<E>(parse: string -> Option<E>, data: string)
    requires data != "" && !IsSpace(data[|data| - 1])
    ensures Reader(parse)("data: " + data + "\n") ==
              if data == "[DONE]" then Done else if parse(data).Some? then Event(parse(data).value) else Skip
  {
    var body := "data: " + data;
    StripLine(body);
    assert body[6..] == data && "data: " <= body;
  }

  lemma WholeLines<E>(reader: LineReader<E>, st: State<E>, text: string)
    requires st.buffer == "" && !st.failed && EndsLine(text)
    ensures Step(reader, st, text) == State("", st.events + LineEvents(reader, SplitLines(text)), false)
  {
    assert "" + text == text;
  }

  lemma CutMatters<E>(reader: LineReader<E>, done: string, data: string, e: E)
    requires Unbroken(done) && Unbroken(data)
    requires reader(done + "\n") == Done && reader(data + "\n") == Event(e)
    ensures Run(reader, [(done + "\n") + (data + "\n")]).events == []
    ensures Run(reader, [done + "\n", data + "\n"]).events == [e]
  {
    var a, b := done + "\n", data + "\n";
    LoneLine(done);
    LoneLine(data);
    SplitWholeLine(a, b);
    var empty: State<E> := State("", [], false);
    WholeLines(reader, empty, a + b);
    WholeLines(reader, empty, a);
    WholeLines(reader, empty, b);
    assert [a + b][..0] == [] && Run(reader, [a + b]) == Step(reader, Run(reader, []), a + b);
    assert [a][..0] == [] && Run(reader, [a]) == Step(reader, Run(reader, []), a) == empty;
    assert [a, b][..1] == [a] && Run(reader, [a, b]) == Step(reader, Run(reader, [a]), b);
    assert LineEvents(reader, [b]) == [e] + LineEvents(reader, [b][1..]);
  }

  /** The same two lines in one chunk and in two: the event after `[DONE]` is dropped, or not. */
  lemma DoneDependsOnTheCut<E>(parse: string -> Option<E>, e: E)
    requires parse("x") == Some(e)
    ensures var done, data := "data: " + "[DONE]", "data: " + "x";
            && Run(Reader(parse), [(done + "\n") + (data + "\n")]).events == []
            && Run(Reader(parse), [done + "\n", data + "\n"]).events == [e]
  {
    assert Unbroken("[DONE]") && Unbroken("x");
    UnbrokenData("[DONE]");
    UnbrokenData("x");
    ReadLine(parse, "[DONE]");
    ReadLine(parse, "x");
    CutMatters(Reader(parse), "data: " + "[DONE]", "data: " + "x", e);
  }

  // ---------------------------------------------------------------------------
  // Lines and their ends
  // ---------------------------------------------------------------------------

  lemma BreaksAre(c: char)
    ensures IsBreak(c) <==> c as int in {10, 11, 12, 13, 28, 29, 30, 133, 0x2028, 0x2029}
  {}

  lemma SpacesAre(c: char)
    ensures IsSpace(c) <==>
              9 <= c as int <= 13 || 28 <= c as int <= 32 || 0x2000 <= c as int <= 0x200A
              || c as int in {133, 160, 0x1680, 0x2028, 0x2029, 0x202F, 0x205F, 0x3000}
  {}

  /** Where the first line ends: behind the first break, a carriage return and a newline being one, or
      with the text. */
  lemma {:induction false} LineEnds(body: string, c: char, rest: string)
    requires Unbroken(body) && IsBreak(c)
    ensures body != "" ==> FirstLine(body) == |body|
    ensures FirstLine(body + [c] + rest)
         == |body| + if c == '\r' && rest != "" && rest[0] == '\n' then 2 else 1
  {
    var s := body + [c] + rest;
    if body != "" {
      LineEnds(body[1..], c, rest);
      assert s[1..] == body[1..] + [c] + rest;
    } else {
      assert s == [c] + rest;
    }
  }

  ghost predicate Blank(s: string) {
    forall i :: 0 <= i < |s| ==> IsSpace(s[i])
  }

  ghost predicate Trimmed(s: string) {
    s != "" ==> !IsSpace(s[0]) && !IsSpace(s[|s| - 1])
  }

  /** Stripping takes off exactly the blanks around a trimmed text. */
  lemma {:induction false} StripIs(before: string, body: string, after: string)
    requires Blank(before) && Trimmed(body) && Blank(after)
    ensures Strip(before + body + after) == body
    decreases |before| + |after|
  {
    var s := before + body + after;
    if before != "" {
      StripIs(before[1..], body, after);
      assert s[1..] == before[1..] + body + after;
    } else if body != "" && after != "" {
      StripIs("", body, after[..|after| - 1]);
      assert s[0] == body[0] && s[..|s| - 1] == "" + body + after[..|after| - 1];
    } else if after != "" {
      StripIs("", "", after[1..]);
      assert s[1..] == "" + "" + after[1..];
    } else {
      assert s == body;
    }
  }

  /** What a line means, whatever blanks, returns and newlines stand around it: a data line that is not
      [DONE] is an event if it parses; every other line, blank or not, is passed over. */
  lemma LineMeans<E>(parse: string -> Option<E>, before: string, body: string, after: string)
    requires Blank(before) && Trimmed(body) && Blank(after)
    ensures Reader(parse)(before + body + after) ==
              if body == "data: [DONE]" then Done
              else if |body| >= 6 && body[..6] == "data: " && parse(body[6..]).Some? then
                Event(parse(body[6..]).value)
              else Skip
  {
    StripIs(before, body, after);
    if |body| >= 6 && body[..6] == "data: " {
      assert body == "data: " + body[6..];
      assert body[6..] == "[DONE]" <==> body == "data: " + "[DONE]";
    }
    DoneText();
  }

  lemma DoneText()
    ensures "data: [DONE]" == "data: " + "[DONE]" && |"data: [DONE]"| == 12
  {}

  /** The events of a chunk are those of the lines before its first [DONE], or of all its lines. */
  lemma {:induction false} UpToDone<E>(reader: LineReader<E>, lines: seq<string>, k: nat)
    requires k <= |lines| && (forall i :: 0 <= i < k ==> !reader(lines[i]).Done?)
    requires k < |lines| ==> reader(lines[k]).Done?
    ensures LineEvents(reader, lines) == AllEvents(reader, lines[..k])
  {
    if k > 0 {
      UpToDone(reader, lines[1..], k - 1);
      assert lines[..k][0] == lines[0] && lines[..k][1..] == lines[1..][..k - 1];
    } else {
      assert lines[..0] == [];
    }
  }

  /** One event for each event line, in order. */
  lemma EventsInOrder<E>(reader: LineReader<E>, lines: seq<string>, line: string)
    ensures AllEvents(reader, lines + [line])
         == AllEvents(reader, lines) + if reader(line).Event? then [reader(line).event] else []
  {
    AllEventsConcat(reader, lines, [line]);
    AllEventsFirst(reader, [line]);
    assert [line][1..] == [];
  }

  // ---------------------------------------------------------------------------
  // The generator
  // ---------------------------------------------------------------------------

  /** The inner loop, with its `break`. */
  method ProcessLines<E>(parse: string -> Option<E>, lines: seq<string>) returns (events: seq<E>)
    ensures events == LineEvents(Reader(parse), lines)
  {
    events := [];
    var i := 0;
    while i < |lines|
      invariant i <= |lines|
      invariant events + LineEvents(Reader(parse), lines[i..]) == LineEvents(Reader(parse), lines)
    {
      var r := ProcessLine(parse, lines[i]);
      assert lines[i..][1..] == lines[i + 1..];
      if r.Done? {
        break;
      }
      if r.Event? {
        events := events + [r.event];
      }
      i := i + 1;
    }
  }

  /** Split what is buffered with a new chunk; an empty list of lines cannot be popped. */
  method CutChunk(buffer: string, text: string) returns (lines: seq<string>, rest: string, failed: bool)
    ensures failed == (text == "" && buffer == "")
    ensures !failed ==> (lines, rest) == Cut(buffer + text, text)
  {
    lines := SplitLines(buffer + text);
    rest, failed := "", false;
    if !EndsLine(text) {
      if lines == [] {
        failed := true;
      } else {
        rest := lines[|lines| - 1];
        lines := lines[..|lines| - 1];
      }
    }
  }

  /** One pass of the outer loop. */
  method ReadChunk<E>(parse: string -> Option<E>, st: State<E>, text: string) returns (st': State<E>)
    requires !st.failed
    ensures st' == Step(Reader(parse), st, text)
  {
    var lines, rest, failed := CutChunk(st.buffer, text);
    if failed {
      return st.(failed := true);
    }
    var more := ProcessLines(parse, lines);
    st' := State(rest, st.events + more, false);
  }

  method ProcessChunkResponse<E>(parse: string -> Option<E>, chunks: seq<string>) returns (st: State<E>)
    ensures st == Run(Reader(parse), chunks)
    ensures st.failed == PopsEmpty(chunks)
  {
    st := State("", [], false);
    var n := 0;
    while n < |chunks| && !st.failed
      invariant n <= |chunks|
      invariant st == Run(Reader(parse), chunks[..n])
    {
      assert chunks[..n + 1][..n] == chunks[..n];
      st := ReadChunk(parse, st, chunks[n]);
      n := n + 1;
    }
    if st.failed {
      FailedStays(Reader(parse), chunks, n);
    }
    assert chunks[..|chunks|] == chunks;
    KeepsTheTail(Reader(parse), chunks);
  }

  lemma {:induction false} FailedStays<E>(reader: LineReader<E>, chunks: seq<string>, n: nat)
    requires n <= |chunks| && Run(reader, chunks[..n]).failed
    ensures Run(reader, chunks) == Run(reader, chunks[..n])
  {
    if n < |chunks| {
      var m := |chunks| - 1;
      assert chunks[..m][..n] == chunks[..n];
      FailedStays(reader, chunks[..m], n);
    } else {
      assert chunks[..n] == chunks;
    }
  }
}
