/** Rendering of one word of a systemd unit line, against a reader that splits and unquotes such a line. */
module SystemdQuoting {
  import opened Prelude

  const BACKSLASH := '\\'
  const QUOTE := '\"'
  const APOSTROPHE := '\''

  // ---------- rendering ----------

  function ReplaceAll(s: string, c: char, to: string): string {
    if s == "" then "" else (if s[0] == c then to else [s[0]]) + ReplaceAll(s[1..], c, to)
  }

  predicate Bare(c: char) {
    'A' <= c <= 'Z' || 'a' <= c <= 'z' || '0' <= c <= '9'
    || c == '_' || c == '@' || c == '%' || c == '+' || c == '=' || c == ':' || c == ',' || c == '.' || c == '/'
       || c == '-'
  }

  predicate AllBare(s: string) {
    forall i :: 0 <= i < |s| ==> Bare(s[i])
  }

  function Rendered(value: string, escapeDollar: bool): string {
    var escaped := ReplaceAll(ReplaceAll(ReplaceAll(value, BACKSLASH, "\\\\"), QUOTE, "\\\""), '%', "%%");
    if escapeDollar then ReplaceAll(escaped, '$', "$$") else escaped
  }

  function SystemdToken(value: string, escapeDollar: bool): string {
    var rendered := Rendered(value, escapeDollar);
    if value != "" && AllBare(value) then rendered else "\"" + rendered + "\""
  }

  // ---------- the passes are one map ----------

  function Escaped(c: char, escapeDollar: bool): string {
    if c == BACKSLASH then "\\\\"
    else if c == QUOTE then "\\\""
    else if c == '%' then "%%"
    else if c == '$' && escapeDollar then "$$"
    else [c]
  }

  function Escape(s: string, escapeDollar: bool): string {
    if s == "" then "" else Escaped(s[0], escapeDollar) + Escape(s[1..], escapeDollar)
  }

  lemma {:induction false} ReplaceAppend(a: string, b: string, c: char, to: string)
    ensures ReplaceAll(a + b, c, to) == ReplaceAll(a, c, to) + ReplaceAll(b, c, to)
  {
    if a == "" {
      assert a + b == b;
    } else {
      assert (a + b)[1..] == a[1..] + b;
      ReplaceAppend(a[1..], b, c, to);
    }
  }

  lemma ReplaceTwo(x: char, y: char, c: char, to: string)
    ensures ReplaceAll([x, y], c, to) == (if x == c then to else [x]) + (if y == c then to else [y])
    ensures ReplaceAll([x], c, to) == if x == c then to else [x]
  {
    assert [x, y][1..] == [y] && [y][1..] == "" && [x][1..] == "";
    assert ReplaceAll([y], c, to) == if y == c then to else [y];
  }

  lemma RenderedOne(c: char, escapeDollar: bool)
    ensures Rendered([c], escapeDollar) == Escaped(c, escapeDollar)
  {
    ReplaceTwo(c, c, BACKSLASH, "\\\\");
    ReplaceTwo(c, c, QUOTE, "\\\"");
    ReplaceTwo(c, c, '%', "%%");
    ReplaceTwo(c, c, '$', "$$");
    ReplaceTwo(BACKSLASH, BACKSLASH, QUOTE, "\\\"");
    ReplaceTwo(BACKSLASH, BACKSLASH, '%', "%%");
    ReplaceTwo(BACKSLASH, BACKSLASH, '$', "$$");
    ReplaceTwo(BACKSLASH, QUOTE, '%', "%%");
    ReplaceTwo(BACKSLASH, QUOTE, '$', "$$");
    ReplaceTwo('%', '%', '$', "$$");
  }

  lemma RenderedAppend(a: string, b: string, escapeDollar: bool)
    ensures Rendered(a + b, escapeDollar) == Rendered(a, escapeDollar) + Rendered(b, escapeDollar)
  {
    var one := (s: string) => ReplaceAll(s, BACKSLASH, "\\\\");
    var two := (s: string) => ReplaceAll(one(s), QUOTE, "\\\"");
    ReplaceAppend(a, b, BACKSLASH, "\\\\");
    ReplaceAppend(one(a), one(b), QUOTE, "\\\"");
    ReplaceAppend(two(a), two(b), '%', "%%");
    ReplaceAppend(ReplaceAll(two(a), '%', "%%"), ReplaceAll(two(b), '%', "%%"), '$', "$$");
  }

  /** The sequential passes do not disturb each other: together they map every character once. */
  lemma {:induction false} PassesAreOneMap(value: string, escapeDollar: bool)
    ensures Rendered(value, escapeDollar) == Escape(value, escapeDollar)
  {
    if value != "" {
      assert [value[0]] + value[1..] == value;
      RenderedAppend([value[0]], value[1..], escapeDollar);
      RenderedOne(value[0], escapeDollar);
      PassesAreOneMap(value[1..], escapeDollar);
    }
  }

  // ---------- reading ----------

  datatype Mode = Between | Word | Quoted(mark: char)

  predicate Space(c: char) {
    c == ' ' || c == '\t' || c == '\n' || c == '\r'
  }

  /** Splits at white space outside quotes and removes quotes and backslashes; none for a malformed line. */
  function Read(line: string, mode: Mode, word: string, words: seq<string>): Option<seq<string>> {
    if line == "" then
      (match mode
       case Between => Some(words)
       case Word => Some(words + [word])
       case Quoted(_) => None)
    else
      var c, rest := line[0], line[1..];
      if c == BACKSLASH && mode != Quoted(APOSTROPHE) then
        if rest == "" || (rest[0] != BACKSLASH && rest[0] != QUOTE) then None
        else Read(rest[1..], if mode.Between? then Word else mode, word + [rest[0]], words)
      else match mode
        case Quoted(mark) => if c == mark then Read(rest, Word, word, words) else Read(rest, mode, word + [c], words)
        case _ =>
          if Space(c)
            then (if mode.Between? then Read(rest, Between, "", words) else Read(rest, Between, "", words + [word]))
          else if c == QUOTE || c == APOSTROPHE then Read(rest, Quoted(c), word, words)
          else Read(rest, Word, word + [c], words)
  }

  function ReadLine(line: string): Option<seq<string>> {
    Read(line, Between, "", [])
  }

  /** Undoes a doubled character; a single one would be a specifier or a variable. */
  function Undouble(s: string, c: char): Option<string> {
    if s == "" then Some("")
    else if s[0] != c then
      (match Undouble(s[1..], c) case Some(t) => Some([s[0]] + t) case None => None)
    else if |s| >= 2 && s[1] == c then
      (match Undouble(s[2..], c) case Some(t) => Some([c] + t) case None => None)
    else None
  }

  function Expand(word: string, variables: bool): Option<string> {
    match Undouble(word, '%')
    case None => None
    case Some(t) => if variables then Undouble(t, '$') else Some(t)
  }

  function ExpandAll(words: seq<string>, variables: bool): Option<seq<string>> {
    if words == [] then Some([])
    else match Expand(words[0], variables)
      case None => None
      case Some(w) =>
        match ExpandAll(words[1..], variables)
        case None => None
        case Some(rest) => Some([w] + rest)
  }

  // ---------- round trip ----------

  /** A value with its per cent signs, and dollars if asked, doubled. */
  function Doubled(s: string, escapeDollar: bool): string {
    if s == "" then ""
    else (if s[0] == '%' || (s[0] == '$' && escapeDollar) then [s[0], s[0]] else [s[0]]) + Doubled(s[1..], escapeDollar)
  }

  function DoubledOne(c: char, escapeDollar: bool): string {
    if c == '%' || (c == '$' && escapeDollar) then [c, c] else [c]
  }

  lemma ReadEscapedOne(c: char, escapeDollar: bool, rest: string, word: string, words: seq<string>)
    ensures Read(Escaped(c, escapeDollar) + rest, Quoted(QUOTE), word, words)
         == Read(rest, Quoted(QUOTE), word + DoubledOne(c, escapeDollar), words)
  {
    var e := Escaped(c, escapeDollar);
    if |e| == 1 {
      assert (e + rest)[1..] == rest;
    } else if e[0] == BACKSLASH {
      assert (e + rest)[1..][1..] == rest && (e + rest)[1..][0] == c;
    } else {
      assert (e + rest)[1..] == [c] + rest && ([c] + rest)[1..] == rest;
      assert (word + [c]) + [c] == word + [c, c];
    }
  }

  lemma {:induction false} ReadEscaped(s: string, escapeDollar: bool, rest: string, word: string, words: seq<string>)
    ensures Read(Escape(s, escapeDollar) + rest, Quoted(QUOTE), word, words)
         == Read(rest, Quoted(QUOTE), word + Doubled(s, escapeDollar), words)
    decreases |s|
  {
    if s == "" {
      assert Escape(s, escapeDollar) + rest == rest && word + Doubled(s, escapeDollar) == word;
    } else {
      var c, e := s[0], Escape(s[1..], escapeDollar);
      var d := DoubledOne(c, escapeDollar);
      assert Escape(s, escapeDollar) + rest == Escaped(c, escapeDollar) + (e + rest);
      ReadEscapedOne(c, escapeDollar, e + rest, word, words);
      ReadEscaped(s[1..], escapeDollar, rest, word + d, words);
      assert (word + d) + Doubled(s[1..], escapeDollar) == word + Doubled(s, escapeDollar);
    }
  }

  lemma ReadBareOne(c: char, escapeDollar: bool, rest: string, mode: Mode, word: string, words: seq<string>)
    requires Bare(c) && !mode.Quoted?
    ensures Read(Escaped(c, escapeDollar) + rest, mode, word, words)
            == Read(rest, Word, word + DoubledOne(c, escapeDollar), words)
  {
    var e := Escaped(c, escapeDollar);
    if |e| == 1 {
      assert (e + rest)[1..] == rest;
    } else {
      assert (e + rest)[1..] == [c] + rest && ([c] + rest)[1..] == rest;
      assert (word + [c]) + [c] == word + [c, c];
    }
  }

  lemma {:induction false} ReadBare(s: string, escapeDollar: bool, rest: string, mode: Mode, word: string,
                                    words: seq<string>)
    requires s != "" && AllBare(s) && !mode.Quoted?
    ensures Read(Escape(s, escapeDollar) + rest, mode, word, words)
            == Read(rest, Word, word + Doubled(s, escapeDollar), words)
    decreases |s|
  {
    var c, e := s[0], Escape(s[1..], escapeDollar);
    var d, ds := DoubledOne(c, escapeDollar), Doubled(s[1..], escapeDollar);
    Split3(Escaped(c, escapeDollar), e, rest);
    ReadBareOne(c, escapeDollar, e + rest, mode, word, words);
    Split3(word, d, ds);
    if |s| > 1 {
      ReadBare(s[1..], escapeDollar, rest, Word, word + d, words);
    } else {
      assert e + rest == rest && d + ds == d;
    }
  }

  lemma Split3(a: string, b: string, c: string)
    ensures (a + b) + c == a + (b + c)
  {
  }

  /** Whatever follows the token, the reader is then behind one complete word. */
  lemma ReadToken(value: string, escapeDollar: bool, rest: string, words: seq<string>)
    ensures Read(SystemdToken(value, escapeDollar) + rest, Between, "", words)
            == Read(rest, Word, Doubled(value, escapeDollar), words)
  {
    PassesAreOneMap(value, escapeDollar);
    var e, d := Escape(value, escapeDollar), Doubled(value, escapeDollar);
    assert "" + d == d;
    if value != "" && AllBare(value) {
      ReadBare(value, escapeDollar, rest, Between, "", words);
    } else {
      var line := SystemdToken(value, escapeDollar) + rest;
      assert line[0] == QUOTE && line[1..] == e + ("\"" + rest);
      ReadEscaped(value, escapeDollar, "\"" + rest, "", words);
      assert ("\"" + rest)[1..] == rest;
    }
  }

  function Joined(values: seq<string>, escapeDollar: bool): string {
    if values == [] then ""
    else if |values| == 1 then SystemdToken(values[0], escapeDollar)
    else SystemdToken(values[0], escapeDollar) + " " + Joined(values[1..], escapeDollar)
  }

  function AllDoubled(values: seq<string>, escapeDollar: bool): seq<string> {
    if values == [] then [] else [Doubled(values[0], escapeDollar)] + AllDoubled(values[1..], escapeDollar)
  }

  lemma ReadLast(value: string, escapeDollar: bool, words: seq<string>)
    ensures Read(SystemdToken(value, escapeDollar), Between, "", words) == Some(words + [Doubled(value, escapeDollar)])
  {
    ReadToken(value, escapeDollar, "", words);
    assert SystemdToken(value, escapeDollar) + "" == SystemdToken(value, escapeDollar);
  }

  lemma ReadNext(value: string, escapeDollar: bool, rest: string, words: seq<string>)
    ensures Read(SystemdToken(value, escapeDollar) + " " + rest, Between, "", words)
         == Read(rest, Between, "", words + [Doubled(value, escapeDollar)])
  {
    ReadToken(value, escapeDollar, " " + rest, words);
    assert SystemdToken(value, escapeDollar) + " " + rest == SystemdToken(value, escapeDollar) + (" " + rest);
    assert (" " + rest)[1..] == rest;
  }

  lemma {:induction false} ReadJoined(values: seq<string>, escapeDollar: bool, words: seq<string>)
    ensures Read(Joined(values, escapeDollar), Between, "", words) == Some(words + AllDoubled(values, escapeDollar))
    decreases |values|
  {
    if values == [] {
      assert words + [] == words;
    } else {
      var d := Doubled(values[0], escapeDollar);
      if |values| == 1 {
        ReadLast(values[0], escapeDollar, words);
        assert AllDoubled(values[1..], escapeDollar) == [] && [d] + [] == [d];
      } else {
        ReadNext(values[0], escapeDollar, Joined(values[1..], escapeDollar), words);
        ReadJoined(values[1..], escapeDollar, words + [d]);
        assert (words + [d]) + AllDoubled(values[1..], escapeDollar)
               == words + ([d] + AllDoubled(values[1..], escapeDollar));
      }
    }
  }

  /** With the dollars doubled and nothing else. */
  function OnlyDollars(s: string): string {
    if s == "" then "" else (if s[0] == '$' then "$$" else [s[0]]) + OnlyDollars(s[1..])
  }

  lemma UndoubleStep(s: string, x: char, c: char)
    requires Undouble(s, c).Some?
    ensures x != c ==> Undouble([x] + s, c) == Some([x] + Undouble(s, c).value)
    ensures x == c ==> Undouble([x, x] + s, c) == Some([x] + Undouble(s, c).value)
  {
    assert ([x] + s)[1..] == s && ([x, x] + s)[2..] == s;
  }

  lemma UndoubleTwoOthers(s: string, x: char, c: char)
    requires Undouble(s, c).Some? && x != c
    ensures Undouble([x, x] + s, c) == Some([x, x] + Undouble(s, c).value)
  {
    UndoubleStep(s, x, c);
    UndoubleStep([x] + s, x, c);
    assert [x] + ([x] + s) == [x, x] + s && [x] + ([x] + Undouble(s, c).value) == [x, x] + Undouble(s, c).value;
  }

  lemma {:induction false} UndoubleDoubled(s: string)
    ensures Undouble(Doubled(s, true), '%') == Some(OnlyDollars(s))
    ensures Undouble(Doubled(s, false), '%') == Some(s)
  {
    if s != "" {
      assert [s[0]] + s[1..] == s;
      UndoubleDoubled(s[1..]);
      UndoubleStep(Doubled(s[1..], true), s[0], '%');
      UndoubleStep(Doubled(s[1..], false), s[0], '%');
      if s[0] == '$' {
        UndoubleTwoOthers(Doubled(s[1..], true), '$', '%');
        assert OnlyDollars(s) == ['$', '$'] + OnlyDollars(s[1..]);
      }
    }
  }

  lemma {:induction false} UndoubleDollars(s: string)
    ensures Undouble(OnlyDollars(s), '$') == Some(s)
  {
    if s != "" {
      assert [s[0]] + s[1..] == s;
      UndoubleDollars(s[1..]);
      UndoubleStep(OnlyDollars(s[1..]), s[0], '$');
      assert s[0] == '$' ==> OnlyDollars(s) == ['$', '$'] + OnlyDollars(s[1..]);
    }
  }

  lemma ExpandDoubled(s: string, escapeDollar: bool)
    ensures Expand(Doubled(s, escapeDollar), escapeDollar) == Some(s)
  {
    UndoubleDoubled(s);
    UndoubleDollars(s);
  }

  lemma {:induction false} ExpandAllDoubled(values: seq<string>, escapeDollar: bool)
    ensures ExpandAll(AllDoubled(values, escapeDollar), escapeDollar) == Some(values)
  {
    if values != [] {
      ExpandDoubled(values[0], escapeDollar);
      ExpandAllDoubled(values[1..], escapeDollar);
      assert [values[0]] + values[1..] == values;
    }
  }

  /** Any list of values survives rendering, joining with spaces, splitting, unquoting and expansion. */
  lemma RoundTrip(values: seq<string>, escapeDollar: bool)
    ensures var words := ReadLine(Joined(values, escapeDollar));
            words.Some? && |words.value| == |values| && ExpandAll(words.value, escapeDollar) == Some(values)
  {
    ReadJoined(values, escapeDollar, []);
    assert [] + AllDoubled(values, escapeDollar) == AllDoubled(values, escapeDollar);
    ExpandAllDoubled(values, escapeDollar);
    AllDoubledLength(values, escapeDollar);
  }

  lemma AllDoubledLength(values: seq<string>, escapeDollar: bool)
    ensures |AllDoubled(values, escapeDollar)| == |values|
  {
  }

  /** Two lists with the same line are the same list. */
  lemma RenderingIsInjective(a: seq<string>, b: seq<string>, escapeDollar: bool)
    requires Joined(a, escapeDollar) == Joined(b, escapeDollar)
    ensures a == b
  {
    RoundTrip(a, escapeDollar);
    RoundTrip(b, escapeDollar);
  }
}
