/** Single-quote escaping of a value for a generated shell line (wings_control/core/wings_entry.py),
    against the quoting rules of sections 2.2.2 and 2.2.3 of IEEE Std 1003.1-2017 (Shell Command
    Language). */
module ShellQuote {
  import opened Common

  // ---------------------------------------------------------------------------
  // The escaping
  // ---------------------------------------------------------------------------

  /** value.replace("'", "'\"'\"'") */
  function Escape(v: string): string {
    if v == "" then "" else (if v[0] == '\'' then "'\"'\"'" else [v[0]]) + Escape(v[1..])
  }

  function Quoted(v: string): string {
    "'" + Escape(v) + "'"
  }

  function CommandLine(word: string, assign: string, value: string): string {
    (word + " ") + (assign + Quoted(value) + "\n")
  }

  /** export NAME='...' and a newline */
  function ExportLine(name: string, value: string): string {
    CommandLine("export", name + "=", value)
  }

  // ---------------------------------------------------------------------------
  // A lexer for quoted words
  // ---------------------------------------------------------------------------

  datatype Mode = Blank | Plain | Single | Double

  /** `words` are finished, `word` is the one being read. */
  datatype Lexer = Lexer(mode: Mode, words: seq<string>, word: string) | Unsupported

  predicate IsSeparator(c: char) {
    c == ' ' || c == '\t' || c == '\n'
  }

  /** Characters that mean something to the shell outside quotes and that this lexer does not read. */
  predicate IsActive(c: char) {
    c in "\\$`|&;<>()*?[#~%!{}" || c == '\0'
  }

  /** One character.  Between single quotes every character but the single quote stands for itself
      (2.2.2); between double quotes dollar, backquote and backslash keep a meaning (2.2.3) that is
      not needed here. */
  function LexChar(l: Lexer, c: char): Lexer {
    if l.Unsupported? then l
    else match l.mode
      case Single =>
        if c == '\'' then l.(mode := Plain) else l.(word := l.word + [c])
      case Double =>
        if c == '"' then l.(mode := Plain)
        else if c in "$`\\" then Unsupported
        else l.(word := l.word + [c])
      case _ =>
        if IsSeparator(c) then
          if l.mode == Blank then l else Lexer(Blank, l.words + [l.word], "")
        else if c == '\'' then l.(mode := Single)
        else if c == '"' then l.(mode := Double)
        else if IsActive(c) then Unsupported
        else l.(mode := Plain, word := l.word + [c])
  }

  function Lex(l: Lexer, s: string): Lexer
    decreases |s|
  {
    if s == "" then l else Lex(LexChar(l, s[0]), s[1..])
  }

  lemma {:induction false} LexConcat(l: Lexer, a: string, b: string)
    ensures Lex(l, a + b) == Lex(Lex(l, a), b)
    decreases |a|
  {
    if a == "" {
      assert a + b == b;
    } else {
      LexConcat(LexChar(l, a[0]), a[1..], b);
      assert (a + b)[1..] == a[1..] + b;
    }
  }

  // ---------------------------------------------------------------------------
  // Round trip
  // ---------------------------------------------------------------------------

  lemma LexOne(l: Lexer, c: char)
    ensures Lex(l, [c]) == LexChar(l, c)
  {
    assert [c][1..] == "";
    assert Lex(LexChar(l, c), "") == LexChar(l, c);
  }

  /** A quote in the value leaves the single quotes, adds a quote in double quotes, and goes back. */
  lemma LexEscapedQuote(l: Lexer)
    requires l.Lexer? && l.mode == Single
    ensures Lex(l, "'\"'\"'") == l.(word := l.word + "'")
  {
    var s := "'\"'\"'";
    assert s[1..] == "\"'\"'" && s[2..] == "'\"'" && s[3..] == "\"'" && s[4..] == "'" && s[5..] == "";
    assert s[1..][1..] == s[2..] && s[2..][1..] == s[3..] && s[3..][1..] == s[4..] && s[4..][1..] == s[5..];
    var l1 := LexChar(l, '\'');
    var l2 := LexChar(l1, '"');
    var l3 := LexChar(l2, '\'');
    var l4 := LexChar(l3, '"');
    var l5 := LexChar(l4, '\'');
    assert Lex(l, s) == Lex(l1, s[1..]) == Lex(l2, s[2..]) == Lex(l3, s[3..]);
    assert Lex(l3, s[3..]) == Lex(l4, s[4..]) == Lex(l5, s[5..]) == l5;
  }

  /** Inside single quotes the escaped value reads as the value, whatever it contains. */
  lemma {:induction false} LexEscaped(l: Lexer, v: string)
    requires l.Lexer? && l.mode == Single
    ensures Lex(l, Escape(v)) == l.(word := l.word + v)
    decreases |v|
  {
    if v != "" {
      var head := if v[0] == '\'' then "'\"'\"'" else [v[0]];
      LexConcat(l, head, Escape(v[1..]));
      if v[0] == '\'' {
        LexEscapedQuote(l);
      } else {
        LexOne(l, v[0]);
      }
      LexEscaped(l.(word := l.word + [v[0]]), v[1..]);
      assert l.word + [v[0]] + v[1..] == l.word + v;
    } else {
      assert l.word + v == l.word;
    }
  }

  /** 'E' with E = Escape(v) is one word, equal to v, wherever a word can stand. */
  lemma QuotedValue(l: Lexer, v: string)
    requires l.Lexer? && (l.mode == Blank || l.mode == Plain)
    ensures Lex(l, Quoted(v)) == l.(mode := Plain, word := l.word + v)
  {
    LexConcat(l, "'" + Escape(v), "'");
    LexConcat(l, "'", Escape(v));
    LexOne(l, '\'');
    LexEscaped(l.(mode := Single), v);
    LexOne(l.(mode := Single, word := l.word + v), '\'');
  }

  predicate IsPlain(s: string) {
    forall i :: 0 <= i < |s| ==> !IsSeparator(s[i]) && !IsActive(s[i]) && s[i] != '\'' && s[i] != '"'
  }

  lemma {:induction false} LexPlain(l: Lexer, s: string)
    requires l.Lexer? && (l.mode == Blank || l.mode == Plain) && IsPlain(s) && s != ""
    ensures Lex(l, s) == l.(mode := Plain, word := l.word + s)
    decreases |s|
  {
    var l' := LexChar(l, s[0]);
    if |s| > 1 {
      LexPlain(l', s[1..]);
      assert l.word + [s[0]] + s[1..] == l.word + s;
    } else {
      assert s == [s[0]];
      LexOne(l, s[0]);
    }
  }

  /** NAME=value and a newline after a blank: one more word. */
  lemma LexAssignment(l: Lexer, assign: string, value: string)
    requires l.Lexer? && l.mode == Blank && l.word == "" && IsPlain(assign) && assign != ""
    ensures Lex(l, assign + Quoted(value) + "\n") == Lexer(Blank, l.words + [assign + value], "")
  {
    LexConcat(l, assign + Quoted(value), "\n");
    LexConcat(l, assign, Quoted(value));
    LexPlain(l, assign);
    assert l.word + assign == assign;
    QuotedValue(Lexer(Plain, l.words, assign), value);
    LexOne(Lexer(Plain, l.words, assign + value), '\n');
  }

  lemma LexWord(l: Lexer, word: string)
    requires l.Lexer? && l.mode == Blank && l.word == "" && IsPlain(word) && word != ""
    ensures Lex(l, word + " ") == Lexer(Blank, l.words + [word], "")
  {
    LexConcat(l, word, " ");
    LexPlain(l, word);
    assert l.word + word == word;
    LexOne(Lexer(Plain, l.words, word), ' ');
  }

  lemma CommandLineRoundTrip(l: Lexer, word: string, assign: string, value: string)
    requires l == Lexer(Blank, [], "") && IsPlain(word) && word != "" && IsPlain(assign) && assign != ""
    ensures Lex(l, CommandLine(word, assign, value)) == Lexer(Blank, [word, assign + value], "")
  {
    LexConcat(l, word + " ", assign + Quoted(value) + "\n");
    LexWord(l, word);
    var l1 := Lexer(Blank, [] + [word], "");
    LexAssignment(l1, assign, value);
    assert [] + [word] + [assign + value] == [word, assign + value];
  }

  /** Round trip: for every value the generated line is exactly two shell words, `export` and
      NAME=value, with the value unchanged. */
  lemma ExportLineRoundTrip(name: string, value: string)
    requires IsPlain(name)
    ensures Lex(Lexer(Blank, [], ""), ExportLine(name, value)) == Lexer(Blank, ["export", name + "=" + value], "")
  {
    CommandLineRoundTrip(Lexer(Blank, [], ""), "export", name + "=", value);
  }

  /** Only single quotes are touched, each for itself. */
  lemma {:induction false} EscapeConcat(a: string, b: string)
    ensures Escape(a + b) == Escape(a) + Escape(b)
  {
    if a == "" {
      assert a + b == b;
    } else {
      EscapeConcat(a[1..], b);
      assert (a + b)[0] == a[0] && (a + b)[1..] == a[1..] + b;
      Assoc(if a[0] == '\'' then "'\"'\"'" else [a[0]], Escape(a[1..]), Escape(b));
    }
  }

  lemma {:induction false} EscapePlain(v: string)
    requires forall i :: 0 <= i < |v| ==> v[i] != '\''
    ensures Escape(v) == v
  {
    if v != "" {
      EscapePlain(v[1..]);
    }
  }

  /** The line begins with the command and ends with the closing quote and one newline. */
  lemma LineText(name: string, value: string)
    ensures ExportLine(name, value) == "export " + name + "='" + Escape(value) + "'\n"
  {
    var e := Escape(value);
    var line := "export " + name + "='" + e + "'\n";
    assert "export " == "export" + " ";
    assert name + "=" + ("'" + e + "'") + "\n" == name + "='" + e + "'\n";
    assert ExportLine(name, value) == "export " + (name + "='" + e + "'\n");
    assert "export " + (name + "='" + e + "'\n") == line;
  }
}
