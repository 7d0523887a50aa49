/** The escapes that zend_ast.c prints string literals with, and the literals' own rules, which undo them. */
module AstStrings {
  import opened Wrappers
  import opened AstWriter

  const NEWLINE: char := 10 as char
  const RETURN: char := 13 as char
  const TAB: char := 9 as char
  const FORM_FEED: char := 12 as char
  const VERTICAL_TAB: char := 11 as char
  const ESCAPE: char := 27 as char

  // ---- single quotes ----

  function EscapedChar(c: char): string
  {
    if c == '\'' || c == '\\' then ['\\', c] else [c]
  }

  function Escaped(s: string): string
  {
    if s == "" then "" else Escaped(s[..|s| - 1]) + EscapedChar(s[|s| - 1])
  }

  /** zend_ast_export_str */
  method ExportStr(str: SmartStr, s: string)
    modifies str
    ensures str.text == old(str.text) + Escaped(s)
  {
    var i := 0;
    assert s[..0] == "";
    while i < |s|
      invariant i <= |s| && str.text == old(str.text) + Escaped(s[..i])
    {
      EscapedNext(s, i);
      Assoc(old(str.text), Escaped(s[..i]), EscapedChar(s[i]));
      hide *;
      ExportChar(str, s[i]);
      i := i + 1;
    }
    assert s[..i] == s;
  }

  method ExportChar(str: SmartStr, c: char)
    modifies str
    ensures str.text == old(str.text) + EscapedChar(c)
  {
    if c == '\'' || c == '\\' {
      str.AppendC('\\');
      str.AppendC(c);
    } else {
      str.AppendC(c);
    }
  }

  lemma EscapedNext(s: string, i: nat)
    requires i < |s|
    ensures Escaped(s[..i + 1]) == Escaped(s[..i]) + EscapedChar(s[i])
  {
    assert s[..i + 1][..i] == s[..i];
    hide EscapedChar;
  }

  lemma Assoc(a: string, b: string, c: string)
    ensures a + b + c == a + (b + c)
  {}

  // A single-quoted literal behind its opening quote: its contents, and what follows the closing quote. A backslash
  // stands for itself unless it is before a quote or a backslash.
  function ReadSingle(s: string): Option<(string, string)>
  {
    if s == "" then None
    else if s[0] == '\'' then Some(("", s[1..]))
    else if s[0] == '\\' && |s| > 1 && (s[1] == '\'' || s[1] == '\\') then Prepend(s[1], ReadSingle(s[2..]))
    else Prepend(s[0], ReadSingle(s[1..]))
  }

  function Prepend(c: char, r: Option<(string, string)>): Option<(string, string)>
  {
    match r
    case None => None
    case Some((s, rest)) => Some(([c] + s, rest))
  }

  lemma {:induction false} EscapedFront(s: string)
    requires s != ""
    ensures Escaped(s) == EscapedChar(s[0]) + Escaped(s[1..])
  {
    hide *;
    var n := |s| - 1;
    EscapedBack(s);
    if n == 0 {
      assert s[1..] == "" && s[..0] == "";
      EscapedNone();
    } else {
      EscapedFront(s[..n]);
      EscapedBack(s[1..]);
      assert s[..n][1..] == s[1..][..n - 1] && s[1..][n - 1] == s[n];
    }
  }

  lemma EscapedNone()
    ensures Escaped("") == ""
  {}

  lemma EscapedBack(s: string)
    requires s != ""
    ensures Escaped(s) == Escaped(s[..|s| - 1]) + EscapedChar(s[|s| - 1])
  {
    hide EscapedChar;
  }

  /** A printed single-quoted literal reads as the string it was printed from, up to its closing quote. */
  lemma {:induction false} SingleQuotesRoundTrip(s: string, rest: string)
    ensures ReadSingle(Escaped(s) + ("'" + rest)) == Some((s, rest))
  {
    if s == "" {
      assert Escaped(s) + ("'" + rest) == "'" + rest;
    } else {
      hide *;
      EscapedFront(s);
      SingleQuotesRoundTrip(s[1..], rest);
      var head, end := EscapedChar(s[0]), Escaped(s[1..]);
      Assoc(head, end, "'" + rest);
      SingleCharRead(s[0], end + ("'" + rest));
      PrependIs(s, rest);
    }
  }

  lemma SingleCharRead(c: char, tail: string)
    ensures ReadSingle(EscapedChar(c) + tail) == Prepend(c, ReadSingle(tail))
  {
    if c == '\'' || c == '\\' {
      assert (['\\', c] + tail)[2..] == tail;
    } else {
      assert ([c] + tail)[1..] == tail;
    }
  }

  lemma PrependIs(s: string, rest: string)
    requires s != ""
    ensures Prepend(s[0], Some((s[1..], rest))) == Some((s, rest))
  {
    assert [s[0]] + s[1..] == s;
  }

  // ---- double quotes and backticks ----

  function Octal(d: nat): char
    requires d < 10
  {
    '0' + d as char
  }

  function QEscapedChar(c: char, quote: char): string
  {
    if c < ' ' then
      if c == NEWLINE then "\\n"
      else if c == RETURN then "\\r"
      else if c == TAB then "\\t"
      else if c == FORM_FEED then "\\f"
      else if c == VERTICAL_TAB then "\\v"
      else if c == ESCAPE then "\\e"
      else "\\0" + [Octal(c as nat / 8), Octal(c as nat % 8)]
    else if c == quote || c == '$' || c == '\\' then ['\\', c]
    else [c]
  }

  function QEscaped(s: string, quote: char): string
  {
    if s == "" then "" else QEscaped(s[..|s| - 1], quote) + QEscapedChar(s[|s| - 1], quote)
  }

  /** zend_ast_export_qstr */
  method ExportQstr(str: SmartStr, quote: char, s: string)
    modifies str
    ensures str.text == old(str.text) + QEscaped(s, quote)
  {
    var i := 0;
    assert s[..0] == "";
    while i < |s|
      invariant i <= |s| && str.text == old(str.text) + QEscaped(s[..i], quote)
    {
      QEscapedNext(s, quote, i);
      Assoc(old(str.text), QEscaped(s[..i], quote), QEscapedChar(s[i], quote));
      hide *;
      ExportQchar(str, quote, s[i]);
      i := i + 1;
    }
    assert s[..i] == s;
  }

  lemma QEscapedNext(s: string, quote: char, i: nat)
    requires i < |s|
    ensures QEscaped(s[..i + 1], quote) == QEscaped(s[..i], quote) + QEscapedChar(s[i], quote)
  {
    assert s[..i + 1][..i] == s[..i];
    hide QEscapedChar;
  }

  method ExportQchar(str: SmartStr, quote: char, c: char)
    modifies str
    ensures str.text == old(str.text) + QEscapedChar(c, quote)
  {
    if c < ' ' {
      if c == NEWLINE {
        str.Appends("\\n");
      } else if c == RETURN {
        str.Appends("\\r");
      } else if c == TAB {
        str.Appends("\\t");
      } else if c == FORM_FEED {
        str.Appends("\\f");
      } else if c == VERTICAL_TAB {
        str.Appends("\\v");
      } else if c == ESCAPE {
        str.Appends("\\e");
      } else {
        str.Appends("\\0");
        str.AppendC(Octal(c as nat / 8));
        str.AppendC(Octal(c as nat % 8));
      }
    } else {
      if c == quote || c == '$' || c == '\\' {
        str.AppendC('\\');
      }
      str.AppendC(c);
    }
  }

  predicate OctalDigit(c: char) { '0' <= c <= '7' }

  function OctalValue(c: char): nat
    requires OctalDigit(c)
  {
    c as nat - '0' as nat
  }

  // How many octal digits s begins with, three at most.
  function OctalCount(s: string): (n: nat)
    ensures n <= 3 && n <= |s| && forall i :: 0 <= i < n ==> OctalDigit(s[i])
  {
    if |s| < 1 || !OctalDigit(s[0]) then 0
    else if |s| < 2 || !OctalDigit(s[1]) then 1
    else if |s| < 3 || !OctalDigit(s[2]) then 2
    else 3
  }

  function OctalNumber(s: string): nat
    requires forall i :: 0 <= i < |s| ==> OctalDigit(s[i])
  {
    if s == "" then 0 else 8 * OctalNumber(s[..|s| - 1]) + OctalValue(s[|s| - 1])
  }

  function Simple(c: char): Option<char>
  {
    match c
    case 'n' => Some(NEWLINE) case 'r' => Some(RETURN) case 't' => Some(TAB)
    case 'f' => Some(FORM_FEED) case 'v' => Some(VERTICAL_TAB) case 'e' => Some(ESCAPE)
    case '\\' => Some('\\') case '$' => Some('$')
    case _ => None
  }

  // A literal between quotes that interpolate, behind its opening quote. A bare dollar sign would begin a variable.
  function ReadDouble(s: string, quote: char): Option<(string, string)>
  {
    if s == "" || s[0] == '$' then None
    else if s[0] == quote then Some(("", s[1..]))
    else if s[0] == '\\' && |s| > 1 then
      var n := OctalCount(s[1..]);
      if s[1] == quote then Prepend(quote, ReadDouble(s[2..], quote))
      else if Simple(s[1]).Some? then Prepend(Simple(s[1]).value, ReadDouble(s[2..], quote))
      else if n > 0 then
        Prepend((OctalNumber(s[1..][..n]) % 256) as char, ReadDouble(s[1 + n..], quote))
      else Prepend('\\', ReadDouble(s[1..], quote))
    else Prepend(s[0], ReadDouble(s[1..], quote))
  }

  lemma {:induction false} QEscapedFront(s: string, quote: char)
    requires s != ""
    ensures QEscaped(s, quote) == QEscapedChar(s[0], quote) + QEscaped(s[1..], quote)
  {
    hide *;
    var n := |s| - 1;
    QEscapedBack(s, quote);
    if n == 0 {
      assert s[1..] == "" && s[..0] == "";
      QEscapedNone(quote);
    } else {
      QEscapedFront(s[..n], quote);
      QEscapedBack(s[1..], quote);
      assert s[..n][1..] == s[1..][..n - 1] && s[1..][n - 1] == s[n];
    }
  }

  lemma QEscapedNone(quote: char)
    ensures QEscaped("", quote) == ""
  {}

  lemma QEscapedBack(s: string, quote: char)
    requires s != ""
    ensures QEscaped(s, quote) == QEscaped(s[..|s| - 1], quote) + QEscapedChar(s[|s| - 1], quote)
  {
    hide QEscapedChar;
  }

  lemma OctalRead(c: char, tail: string)
    requires c < ' '
    ensures var s := "0" + [Octal(c as nat / 8), Octal(c as nat % 8)] + tail;
      OctalCount(s) == 3 && OctalNumber(s[..3]) == c as nat
  {
    var a, b := Octal(c as nat / 8), Octal(c as nat % 8);
    var s := "0" + [a, b] + tail;
    assert s[..3] == ['0', a, b];
    assert ['0', a, b][..2] == ['0', a] && ['0', a][..1] == ['0'] && ['0'][..0] == [];
    assert OctalNumber(['0']) == 0;
    assert OctalNumber(['0', a]) == c as nat / 8;
  }

  lemma PairRead(d: char, c: char, quote: char, tail: string)
    requires if d == quote then c == quote else Simple(d) == Some(c)
    requires quote == '"' || quote == '`'
    ensures ReadDouble(['\\', d] + tail, quote) == Prepend(c, ReadDouble(tail, quote))
  {
    assert (['\\', d] + tail)[2..] == tail;
    hide OctalCount, OctalNumber, Prepend, Simple;
  }

  lemma CodeRead(c: char, quote: char, tail: string)
    requires c < ' ' && (quote == '"' || quote == '`')
    ensures ReadDouble("\\0" + [Octal(c as nat / 8), Octal(c as nat % 8)] + tail, quote)
      == Prepend(c, ReadDouble(tail, quote))
  {
    var digits := "0" + [Octal(c as nat / 8), Octal(c as nat % 8)];
    var t := "\\0" + [Octal(c as nat / 8), Octal(c as nat % 8)] + tail;
    OctalRead(c, tail);
    assert t[1..] == digits + tail && t[4..] == tail;
    hide OctalCount, OctalNumber, Prepend;
  }

  lemma CharRead(c: char, quote: char, tail: string)
    requires c != '$' && c != quote && c != '\\'
    ensures ReadDouble([c] + tail, quote) == Prepend(c, ReadDouble(tail, quote))
  {
    assert ([c] + tail)[1..] == tail;
    hide OctalCount, OctalNumber, Prepend, Simple;
  }

  lemma QCharRead(c: char, quote: char, tail: string)
    requires quote == '"' || quote == '`'
    ensures ReadDouble(QEscapedChar(c, quote) + tail, quote) == Prepend(c, ReadDouble(tail, quote))
  {
    hide ReadDouble, Prepend, OctalCount;
    if c == NEWLINE { PairRead('n', c, quote, tail); }
    else if c == RETURN { PairRead('r', c, quote, tail); }
    else if c == TAB { PairRead('t', c, quote, tail); }
    else if c == FORM_FEED { PairRead('f', c, quote, tail); }
    else if c == VERTICAL_TAB { PairRead('v', c, quote, tail); }
    else if c == ESCAPE { PairRead('e', c, quote, tail); }
    else if c < ' ' { CodeRead(c, quote, tail); }
    else if c == quote || c == '$' || c == '\\' { PairRead(c, c, quote, tail); }
    else { CharRead(c, quote, tail); }
  }

  /** A string printed between double quotes or backticks reads as the string it was printed from. */
  lemma {:induction false} DoubleQuotesRoundTrip(s: string, quote: char, rest: string)
    requires quote == '"' || quote == '`'
    ensures ReadDouble(QEscaped(s, quote) + ([quote] + rest), quote) == Some((s, rest))
  {
    if s == "" {
      assert QEscaped(s, quote) + ([quote] + rest) == [quote] + rest;
    } else {
      hide *;
      QEscapedFront(s, quote);
      DoubleQuotesRoundTrip(s[1..], quote, rest);
      var head, end := QEscapedChar(s[0], quote), QEscaped(s[1..], quote);
      Assoc(head, end, [quote] + rest);
      QCharRead(s[0], quote, end + ([quote] + rest));
      PrependIs(s, rest);
    }
  }

  // ---- no shorter escape ----

  lemma EndRead(quote: char)
    requires quote == '"' || quote == '`'
    ensures ReadDouble([quote], quote) == Some(("", "")) && ReadDouble("", quote) == None
  {
    assert [quote][1..] == "";
  }

  lemma PlainRead(x: char, s: string, quote: char)
    requires x != '$' && x != '\\' && x != quote
    ensures ReadDouble([x] + s, quote) == Prepend(x, ReadDouble(s, quote))
  {
    assert ([x] + s)[1..] == s;
  }

  // An escape of two characters, by the second one.
  lemma EscapeRead(x: char, s: string, quote: char)
    ensures var r, n := ReadDouble(['\\', x] + s, quote), OctalCount([x] + s);
      r == if quote == '$' || quote == '\\' then r
        else if x == quote then Prepend(quote, ReadDouble(s, quote))
        else if Simple(x).Some? then Prepend(Simple(x).value, ReadDouble(s, quote))
        else if n > 0 then Prepend((OctalNumber(([x] + s)[..n]) % 256) as char, ReadDouble(([x] + s)[n..], quote))
        else Prepend('\\', ReadDouble([x] + s, quote))
  {
    var u := ['\\', x] + s;
    assert u[1..] == [x] + s && u[2..] == s;
    assert forall n: nat :: n <= |s| + 1 ==> u[1 + n..] == ([x] + s)[n..];
  }

  // Read as c, whatever follows.
  ghost predicate Means(t: string, c: char, quote: char)
  {
    forall rest :: ReadDouble(t + rest, quote) == Prepend(c, ReadDouble(rest, quote))
  }

  lemma MeansIn(t: string, c: char, quote: char, rest: string)
    requires Means(t, c, quote)
    ensures ReadDouble(t + rest, quote) == Prepend(c, ReadDouble(rest, quote))
  {}

  lemma OneOrTwo(c: char, d: char)
    ensures Prepend(c, Some(("", ""))) == Some(([c], ""))
    ensures Prepend(c, Prepend(d, Some(("", "")))) == Some(([c, d], ""))
    ensures |[c]| == 1 && |[c, d]| == 2 && [c][0] == c && [c, d][0] == c
  {
    assert [c] + "" == [c] && [c] + ([d] + "") == [c, d];
  }

  // What is put in front comes first.
  lemma InFront(c: char, r: Option<(string, string)>)
    ensures Prepend(c, r).Some? <==> r.Some?
    ensures r.Some? ==> |Prepend(c, r).value.0| == |r.value.0| + 1 && Prepend(c, r).value.0[0] == c
    ensures r.Some? ==> Prepend(c, r).value.1 == r.value.1
  {}

  lemma NotBackslash(c: char, quote: char)
    requires quote == '"' || quote == '`'
    ensures !Means(['\\'], c, quote)
  {
    hide ReadDouble, Prepend, Means;
    var rest := ['n'] + [quote];
    assert ['\\'] + rest == ['\\', 'n'] + [quote];
    EscapeRead('n', [quote], quote);
    PlainRead('n', [quote], quote);
    EndRead(quote);
    OneOrTwo(NEWLINE, NEWLINE);
    OneOrTwo(c, 'n');
    if Means(['\\'], c, quote) { MeansIn(['\\'], c, quote, rest); }
  }

  // One octal digit, or two, are read together with a digit behind them.
  lemma NotOneDigit(c: char, x: char, quote: char)
    requires (quote == '"' || quote == '`') && OctalDigit(x)
    ensures !Means(['\\', x], c, quote)
  {
    hide ReadDouble, Prepend, Means;
    var rest := ['0'] + [quote];
    var s := [x] + rest;
    EscapeRead(x, rest, quote);
    PlainRead('0', [quote], quote);
    EndRead(quote);
    assert s[0] == x && s[1] == '0' && s[2] == quote && OctalCount(s) == 2;
    assert s[..2] == [x, '0'] && s[2..] == [quote];
    OneOrTwo(c, '0');
    OneOrTwo((OctalNumber([x, '0']) % 256) as char, x);
    if Means(['\\', x], c, quote) { MeansIn(['\\', x], c, quote, rest); }
  }

  lemma NotTwoDigits(c: char, x: char, y: char, quote: char)
    requires (quote == '"' || quote == '`') && OctalDigit(x) && OctalDigit(y)
    ensures !Means(['\\', x, y], c, quote)
  {
    hide ReadDouble, Prepend, Means;
    var rest := ['0'] + [quote];
    var s := [x] + ([y] + rest);
    assert ['\\', x, y] + rest == ['\\', x] + ([y] + rest);
    EscapeRead(x, [y] + rest, quote);
    PlainRead('0', [quote], quote);
    EndRead(quote);
    assert s[0] == x && s[1] == y && s[2] == '0' && OctalCount(s) == 3;
    assert s[..3] == [x, y, '0'] && s[3..] == [quote];
    OneOrTwo(c, '0');
    OneOrTwo((OctalNumber([x, y, '0']) % 256) as char, x);
    if Means(['\\', x, y], c, quote) { MeansIn(['\\', x, y], c, quote, rest); }
  }

  // What else begins with a backslash and a character: a letter escape, or a backslash that stands for itself.
  lemma FirstRead(c: char, x: char, s: string, quote: char)
    requires (quote == '"' || quote == '`') && !OctalDigit(x) && Means(['\\', x] + s, c, quote)
    ensures c == quote || c == '\\' || Simple(x) == Some(c)
  {
    hide ReadDouble, Prepend, Means, Simple;
    MeansIn(['\\', x] + s, c, quote, [quote]);
    EndRead(quote);
    assert ['\\', x] + s + [quote] == ['\\', x] + (s + [quote]);
    EscapeRead(x, s + [quote], quote);
    assert OctalCount([x] + (s + [quote])) == 0 by { assert ([x] + (s + [quote]))[0] == x; }
    OneOrTwo(c, c);
    InFront(quote, ReadDouble(s + [quote], quote));
    if Simple(x).Some? { InFront(Simple(x).value, ReadDouble(s + [quote], quote)); }
    InFront('\\', ReadDouble([x] + (s + [quote]), quote));
  }

  lemma DigitThenOther(c: char, x: char, y: char, quote: char)
    requires (quote == '"' || quote == '`') && OctalDigit(x) && !OctalDigit(y)
    ensures !Means(['\\', x, y], c, quote)
  {
    hide ReadDouble, Prepend, Means;
    var s := [x] + ([y] + [quote]);
    assert ['\\', x, y] + [quote] == ['\\', x] + ([y] + [quote]);
    EscapeRead(x, [y] + [quote], quote);
    assert s[0] == x && s[1] == y && OctalCount(s) == 1 && s[1..] == [y] + [quote];
    EndRead(quote);
    OneOrTwo(c, c);
    InFront((OctalNumber(s[..1]) % 256) as char, ReadDouble([y] + [quote], quote));
    OtherRead(y, quote);
    if Means(['\\', x, y], c, quote) { MeansIn(['\\', x, y], c, quote, [quote]); }
  }

  lemma OtherRead(y: char, quote: char)
    requires quote == '"' || quote == '`'
    ensures var r := ReadDouble([y] + [quote], quote); r.Some? ==> r.value.0 != "" || r.value.1 != ""
  {
    EndRead(quote);
    if y == quote {
      assert ([y] + [quote])[1..] == [quote];
    } else if y == '\\' {
      assert [y] + [quote] == ['\\', quote] + "";
      EscapeRead(quote, "", quote);
    } else if y != '$' {
      PlainRead(y, [quote], quote);
    }
  }

  /** No escape that reads as the same character whatever follows it is shorter than the one that is printed. */
  lemma ShortestEscape(c: char, quote: char, t: string)
    requires (quote == '"' || quote == '`') && t != "" && t[0] == '\\' && Means(t, c, quote)
    ensures |QEscapedChar(c, quote)| <= |t|
  {
    hide ReadDouble, Means, OctalCount, OctalNumber;
    if |t| == 1 {
      assert t == ['\\'];
      NotBackslash(c, quote);
    } else if |t| <= 3 {
      var x, s := t[1], t[2..];
      assert t == ['\\', x] + s;
      if !OctalDigit(x) {
        FirstRead(c, x, s, quote);
        LetterEscape(c, x, quote);
      } else if |t| == 2 {
        assert t == ['\\', x];
        NotOneDigit(c, x, quote);
      } else {
        assert t == ['\\', x, t[2]];
        if OctalDigit(t[2]) { NotTwoDigits(c, x, t[2], quote); } else { DigitThenOther(c, x, t[2], quote); }
      }
    } else {
      EscapeLength(c, quote);
    }
  }

  lemma LetterEscape(c: char, x: char, quote: char)
    requires quote == '"' || quote == '`'
    requires c == quote || c == '\\' || Simple(x) == Some(c)
    ensures |QEscapedChar(c, quote)| <= 2
  {}

  lemma EscapeLength(c: char, quote: char)
    ensures |QEscapedChar(c, quote)| <= 4
  {}
}
