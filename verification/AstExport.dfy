/** The exporter of expressions in zend_ast.c, and a parser that takes from the grammar how tight an operator is. */
module AstExport {
  import opened Wrappers
  import opened Precedence

  datatype Expr =
    | Num(n: int)
    | Var(name: string)
    | Prefix(pop: PrefixOp, e: Expr)
    | Binary(op: BinaryOp, l: Expr, r: Expr)
    | Conditional(c: Expr, t: Option<Expr>, f: Expr)
    | Index(base: Expr, i: Option<Expr>)

  // ---- the table of zend_ast_export_ex ----

  function Symbol(op: BinaryOp): string
  {
    match op
    case Assign => "=" case AssignRef => "=&" case AssignAdd => "+=" case AssignSub => "-=" case AssignMul => "*="
    case AssignDiv => "/=" case AssignMod => "%=" case AssignSl => "<<=" case AssignSr => ">>="
    case AssignConcat => ".="
    case AssignBwOr => "|=" case AssignBwAnd => "&=" case AssignBwXor => "^=" case AssignPow => "**="
    case Add => "+" case Sub => "-" case Mul => "*" case Div => "/" case Mod => "%" case Sl => "<<" case Sr => ">>"
    case Concat => "." case BwOr => "|" case BwAnd => "&" case BwXor => "^"
    case Identical => "===" case NotIdentical => "!==" case Equal => "==" case NotEqual => "!="
    case Smaller => "<" case SmallerOrEqual => "<=" case Pow => "**" case BoolXor => "xor" case Spaceship => "<=>"
    case Greater => ">" case GreaterOrEqual => ">=" case And => "&&" case Or => "||" case Coalesce => "??"
  }

  // The priority of an operator, and the priorities its operands are printed at.
  function Level(op: BinaryOp): nat
  {
    match op
    case Add => 200 case Sub => 200 case Concat => 200
    case Mul => 210 case Div => 210 case Mod => 210
    case Sl => 190 case Sr => 190
    case BwOr => 140 case BwAnd => 160 case BwXor => 150
    case Identical => 170 case NotIdentical => 170 case Equal => 170 case NotEqual => 170
    case Smaller => 180 case SmallerOrEqual => 180 case Spaceship => 180 case Greater => 180 case GreaterOrEqual => 180
    case Pow => 250 case BoolXor => 40 case And => 130 case Or => 120 case Coalesce => 110
    case _ => 90
  }

  function LeftLevel(op: BinaryOp): nat
  {
    match op
    case Identical => 171 case NotIdentical => 171 case Equal => 171 case NotEqual => 171
    case Smaller => 181 case SmallerOrEqual => 181 case Spaceship => 181 case Greater => 181 case GreaterOrEqual => 181
    case Pow => 251 case Coalesce => 111
    case Add => 200 case Sub => 200 case Concat => 200
    case Mul => 210 case Div => 210 case Mod => 210
    case Sl => 190 case Sr => 190
    case BwOr => 140 case BwAnd => 160 case BwXor => 150
    case BoolXor => 40 case And => 130 case Or => 120
    case _ => 91
  }

  function RightLevel(op: BinaryOp): nat
  {
    match op
    case Identical => 171 case NotIdentical => 171 case Equal => 171 case NotEqual => 171
    case Smaller => 181 case SmallerOrEqual => 181 case Spaceship => 181 case Greater => 181 case GreaterOrEqual => 181
    case Pow => 250 case Coalesce => 110
    case Add => 201 case Sub => 201 case Concat => 201
    case Mul => 211 case Div => 211 case Mod => 211
    case Sl => 191 case Sr => 191
    case BwOr => 141 case BwAnd => 161 case BwXor => 151
    case BoolXor => 41 case And => 131 case Or => 121
    case _ => 90
  }

  const TERNARY: nat := 100

  function PrefixSymbol(op: PrefixOp): string
  {
    match op
    case UnaryPlus => "+" case UnaryMinus => "-" case BoolNot => "!" case BwNot => "~" case Silence => "@"
    case Print => "print "
  }

  function PrefixLevel(op: PrefixOp): nat { if op == Print then 60 else 240 }

  function OperandLevel(op: PrefixOp): nat { if op == Print then 61 else 241 }

  // ---- printing ----

  // zend_ast_valid_var_char
  predicate NameChar(c: char)
  {
    c == '_' || c >= 127 as char || '0' <= c <= '9' || 'A' <= c <= 'Z' || 'a' <= c <= 'z'
  }

  predicate Digit(c: char) { '0' <= c <= '9' }

  predicate AllNameChars(s: string)
  {
    forall i :: 0 <= i < |s| ==> NameChar(s[i])
  }

  // zend_ast_valid_var_name
  predicate ValidName(s: string)
  {
    s != "" && !Digit(s[0]) && AllNameChars(s)
  }

  function DigitChar(d: nat): char
    requires d < 10
  {
    '0' + d as char
  }

  function Digits(n: nat): (s: string)
    ensures s != "" && forall i :: 0 <= i < |s| ==> Digit(s[i])
  {
    if n < 10 then [DigitChar(n)] else Digits(n / 10) + [DigitChar(n % 10)]
  }

  function Decimal(n: int): string
  {
    if n < 0 then "-" + Digits(-n) else Digits(n)
  }

  function VarText(name: string): string
  {
    if ValidName(name) then "$" + name else "$" + "{" + name + "}"
  }

  function Wrapped(wrap: bool, s: string): string
  {
    if wrap then "(" + s + ")" else s
  }

  function Spaced(symbol: string): string
  {
    " " + symbol + " "
  }

  // The text of an expression without parentheses around it.
  function Body(e: Expr): string
    decreases e, 0
  {
    match e
    case Num(n) => Decimal(n)
    case Var(name) => VarText(name)
    case Prefix(op, x) => PrefixSymbol(op) + Text(x, OperandLevel(op))
    case Binary(op, l, r) => Text(l, LeftLevel(op)) + (Spaced(Symbol(op)) + Text(r, RightLevel(op)))
    case Conditional(c, None, f) => Text(c, 100) + (Spaced("?:") + Text(f, 101))
    case Conditional(c, Some(t), f) => Text(c, 100) + (Spaced("?") + (Text(t, 101) + (Spaced(":") + Text(f, 101))))
    case Index(b, None) => Text(b, 260) + "[]"
    case Index(b, Some(i)) => Text(b, 260) + ("[" + (Text(i, 0) + "]"))
  }

  // The priority below which an expression needs no parentheses.
  function Height(e: Expr): nat
  {
    match e
    case Prefix(op, _) => PrefixLevel(op)
    case Binary(op, _, _) => Level(op)
    case Conditional(_, _, _) => TERNARY
    case _ => 1000
  }

  // zend_ast_export_ex
  function Text(e: Expr, priority: nat): string
    decreases e, 1
  {
    Wrapped(priority > Height(e), Body(e))
  }

  // ---- parsing ----

  datatype Infix = Operator(op: BinaryOp) | Question | QuestionColon | Colon

  function Lookup(w: string): Option<Infix>
  {
    if |w| == 1 then
      match w[0]
      case '=' => Some(Operator(Assign)) case '+' => Some(Operator(Add)) case '-' => Some(Operator(Sub))
      case '*' => Some(Operator(Mul)) case '/' => Some(Operator(Div)) case '%' => Some(Operator(Mod))
      case '.' => Some(Operator(Concat)) case '|' => Some(Operator(BwOr)) case '&' => Some(Operator(BwAnd))
      case '^' => Some(Operator(BwXor)) case '<' => Some(Operator(Smaller)) case '>' => Some(Operator(Greater))
      case '?' => Some(Question) case ':' => Some(Colon)
      case _ => None
    else if w == "=&" then Some(Operator(AssignRef))
    else if |w| == 2 && w[1] == '=' then
      match w[0]
      case '+' => Some(Operator(AssignAdd)) case '-' => Some(Operator(AssignSub)) case '*' => Some(Operator(AssignMul))
      case '/' => Some(Operator(AssignDiv)) case '%' => Some(Operator(AssignMod))
      case '.' => Some(Operator(AssignConcat))
      case '|' => Some(Operator(AssignBwOr)) case '&' => Some(Operator(AssignBwAnd))
      case '^' => Some(Operator(AssignBwXor))
      case '=' => Some(Operator(Equal)) case '!' => Some(Operator(NotEqual))
      case '<' => Some(Operator(SmallerOrEqual)) case '>' => Some(Operator(GreaterOrEqual))
      case _ => None
    else if |w| == 2 && w[0] == w[1] then
      match w[0]
      case '<' => Some(Operator(Sl)) case '>' => Some(Operator(Sr)) case '*' => Some(Operator(Pow))
      case '&' => Some(Operator(And)) case '|' => Some(Operator(Or)) case '?' => Some(Operator(Coalesce))
      case _ => None
    else if w == "?:" then Some(QuestionColon)
    else if w == "<<=" then Some(Operator(AssignSl))
    else if w == ">>=" then Some(Operator(AssignSr))
    else if w == "**=" then Some(Operator(AssignPow))
    else if w == "===" then Some(Operator(Identical))
    else if w == "!==" then Some(Operator(NotIdentical))
    else if w == "<=>" then Some(Operator(Spaceship))
    else if w == "xor" then Some(Operator(BoolXor))
    else None
  }

  // How many characters come before the first space.
  function WordLength(s: string): (n: nat)
    ensures n <= |s|
  {
    if s == "" || s[0] == ' ' then 0 else 1 + WordLength(s[1..])
  }

  // The word between two spaces at the start of s, and what follows.
  function NextInfix(s: string): (r: Option<(Infix, string)>)
    ensures r.Some? ==> |r.value.1| < |s|
  {
    if s == "" || s[0] != ' ' then None
    else
      var n := WordLength(s[1..]);
      if 1 + n >= |s| then None
      else
        match Lookup(s[1..1 + n])
        case None => None
        case Some(x) => Some((x, s[n + 2..]))
  }

  function NextPrefix(s: string): (r: Option<(PrefixOp, string)>)
    ensures r.Some? ==> |r.value.1| < |s|
  {
    if s == "" then None
    else
      match s[0]
      case '+' => Some((UnaryPlus, s[1..]))
      case '-' => Some((UnaryMinus, s[1..]))
      case '!' => Some((BoolNot, s[1..]))
      case '~' => Some((BwNot, s[1..]))
      case '@' => Some((Silence, s[1..]))
      case 'p' => if |s| >= 6 && s[..6] == "print " then Some((Print, s[6..])) else None
      case _ => None
  }

  function NameLength(s: string): (n: nat)
    ensures n <= |s| && AllNameChars(s[..n])
  {
    if s == "" || !NameChar(s[0]) then 0 else
    assert s[..1 + NameLength(s[1..])] == [s[0]] + s[1..][..NameLength(s[1..])];
    1 + NameLength(s[1..])
  }

  function DigitCount(s: string): (n: nat)
    ensures n <= |s| && forall i :: 0 <= i < n ==> Digit(s[i])
  {
    if s == "" || !Digit(s[0]) then 0 else 1 + DigitCount(s[1..])
  }

  function Value(s: string): nat
    requires forall i :: 0 <= i < |s| ==> Digit(s[i])
  {
    if s == "" then 0 else
    assert Digit(s[|s| - 1]);
    10 * Value(s[..|s| - 1]) + (s[|s| - 1] as int - '0' as int)
  }

  // Expressions a parser can deliver: no negative literal, no name that is not one.
  predicate Plain(e: Expr)
  {
    match e
    case Num(n) => n >= 0
    case Var(name) => ValidName(name)
    case Prefix(_, x) => Plain(x)
    case Binary(_, l, r) => Plain(l) && Plain(r)
    case Conditional(c, t, f) => Plain(c) && (t.Some? ==> Plain(t.value)) && Plain(f)
    case Index(b, i) => Plain(b) && (i.Some? ==> Plain(i.value))
  }

  type Parsed = Option<(Expr, string)>

  function Primary(s: string): (r: Parsed)
    ensures r.Some? ==> |r.value.1| < |s| && Plain(r.value.0)
    decreases |s|, 1
  {
    if s == "" then None
    else
      match NextPrefix(s)
      case Some((op, rest)) =>
        (match Parse(rest, OperandBind(op))
         case None => None
         case Some((e, rest')) => Some((Prefix(op, e), rest')))
      case None =>
        if s[0] == '(' then
          match Parse(s[1..], 0)
          case Some((e, rest)) => if rest != "" && rest[0] == ')' then Some((e, rest[1..])) else None
          case None => None
        else if s[0] == '$' then
          var n := NameLength(s[1..]);
          var name := s[1..][..n];
          if ValidName(name) then Some((Var(name), s[1 + n..])) else None
        else if Digit(s[0]) then
          var n := DigitCount(s);
          Some((Num(Value(s[..n])), s[n..]))
        else None
  }

  // An expression whose operators are all at least as tight as the given group.
  function Parse(s: string, k: nat): (r: Parsed)
    ensures r.Some? ==> |r.value.1| < |s| && Plain(r.value.0)
    decreases |s|, 2
  {
    match Primary(s)
    case None => None
    case Some((e, rest)) => Rest(e, rest, k, Free)
  }

  // What may follow an expression e that has been read: operators of at least the given group, and none of the group
  // that is barred.
  function Rest(e: Expr, s: string, k: nat, barred: Barred): (r: Parsed)
    ensures r.Some? ==> |r.value.1| <= |s| && (Plain(e) ==> Plain(r.value.0))
    decreases |s|, 0
  {
    hide NextInfix, Bind, RightBind, BarredBy;
    match NextInfix(s)
    case Some((Operator(op), s1)) =>
      if Bind(op) < k then Some((e, s))
      else if barred == Bar(Bind(op)) then None
      else
        (match Parse(s1, RightBind(op))
         case None => None
         case Some((r, s2)) => Rest(Binary(op, e, r), s2, k, BarredBy(op)))
    case Some((QuestionColon, s1)) =>
      if CONDITIONAL < k then Some((e, s))
      else
        (match Parse(s1, CONDITIONAL + 1)
         case None => None
         case Some((f, s2)) => Rest(Conditional(e, None, f), s2, k, Free))
    case Some((Question, s1)) =>
      if CONDITIONAL < k then Some((e, s))
      else
        (match Parse(s1, 0)
         case None => None
         case Some((t, s2)) =>
           match NextInfix(s2)
           case Some((Colon, s3)) =>
             (match Parse(s3, CONDITIONAL + 1)
              case None => None
              case Some((f, s4)) => Rest(Conditional(e, Some(t), f), s4, k, Free))
           case _ => None)
    case Some((Colon, _)) => Some((e, s))
    case None =>
      if s == "" || s[0] != '[' || INDEXING < k then Some((e, s))
      else if |s| > 1 && s[1] == ']' then Rest(Index(e, None), s[2..], k, Free)
      else
        match Parse(s[1..], 0)
        case None => None
        case Some((i, s1)) => if s1 != "" && s1[0] == ']' then Rest(Index(e, Some(i)), s1[1..], k, Free) else None
  }

  // ---- what reading finds ----

  // No space inside, so a word is read back whole.
  ghost predicate OneWord(w: string)
  {
    forall i :: 0 <= i < |w| ==> w[i] != ' '
  }

  lemma {:induction false} WordRead(w: string, s: string)
    requires OneWord(w) && s != "" && s[0] == ' '
    ensures WordLength(w + s) == |w|
  {
    if w == "" {
      assert w + s == s;
    } else {
      assert (w + s)[1..] == w[1..] + s;
      WordRead(w[1..], s);
    }
  }

  lemma InfixRead(w: string, x: Infix, s: string)
    requires OneWord(w) && Lookup(w) == Some(x)
    ensures NextInfix(Spaced(w) + s) == Some((x, s))
  {
    hide Lookup;
    var t := Spaced(w) + s;
    assert t[1..] == w + (" " + s);
    WordRead(w, " " + s);
    assert t[1..1 + |w|] == w;
    assert t[|w| + 2..] == s;
  }

  lemma SymbolsRead(op: BinaryOp)
    ensures OneWord(Symbol(op)) && Lookup(Symbol(op)) == Some(Operator(op))
  {
    SymbolIsWord(op);
    SymbolFound(op);
    hide *;
  }

  lemma SymbolIsWord(op: BinaryOp)
    ensures OneWord(Symbol(op))
  {}

  lemma SymbolFound(op: BinaryOp)
    ensures Lookup(Symbol(op)) == Some(Operator(op))
  {}

  // What can stand behind an expression read for group k without being taken into it.
  ghost predicate Stops(s: string, k: nat)
  {
    && (s != "" ==> !NameChar(s[0]))
    && match NextInfix(s)
       case Some((Operator(op), _)) => Bind(op) < k
       case Some((QuestionColon, _)) => CONDITIONAL < k
       case Some((Question, _)) => CONDITIONAL < k
       case Some((Colon, _)) => true
       case None => s == "" || s[0] != '[' || INDEXING < k
  }

  lemma RestStops(e: Expr, s: string, k: nat, barred: Barred)
    requires Stops(s, k)
    ensures Rest(e, s, k, barred) == Some((e, s))
  {
    hide NextInfix, Bind;
  }

  lemma StopsAbove(s: string, k: nat, m: nat)
    requires Stops(s, k) && k <= m
    ensures Stops(s, m)
  {
    hide NextInfix, Bind;
  }

  lemma OperatorStops(op: BinaryOp, s: string, k: nat)
    requires Bind(op) < k
    ensures Stops(Spaced(Symbol(op)) + s, k)
  {
    OperatorRead(op, s);
    hide NextInfix, Symbol, Bind;
  }

  lemma OperatorRead(op: BinaryOp, s: string)
    ensures NextInfix(Spaced(Symbol(op)) + s) == Some((Operator(op), s))
  {
    SymbolsRead(op);
    InfixRead(Symbol(op), Operator(op), s);
    hide *;
  }

  // ---- literals and names ----

  lemma {:induction false} DigitsValue(n: nat)
    ensures Value(Digits(n)) == n
  {
    if n >= 10 {
      DigitsValue(n / 10);
      var s := Digits(n / 10) + [DigitChar(n % 10)];
      assert s[..|s| - 1] == Digits(n / 10);
    } else {
      assert [DigitChar(n)][..0] == [];
    }
  }

  lemma {:induction false} DigitsCounted(w: string, s: string)
    requires (forall i :: 0 <= i < |w| ==> Digit(w[i])) && (s != "" ==> !Digit(s[0]))
    ensures DigitCount(w + s) == |w|
  {
    if w == "" {
      assert w + s == s;
    } else {
      assert (w + s)[1..] == w[1..] + s;
      DigitsCounted(w[1..], s);
    }
  }

  lemma {:induction false} NameCounted(w: string, s: string)
    requires AllNameChars(w) && (s != "" ==> !NameChar(s[0]))
    ensures NameLength(w + s) == |w|
  {
    if w == "" {
      assert w + s == s;
    } else {
      assert (w + s)[1..] == w[1..] + s;
      NameCounted(w[1..], s);
    }
  }

  lemma NumRead(n: nat, s: string)
    requires s != "" ==> !NameChar(s[0])
    ensures Primary(Digits(n) + s) == Some((Num(n), s))
  {
    var w := Digits(n);
    DigitsCounted(w, s);
    DigitsValue(n);
    assert Digit((w + s)[0]) by { assert (w + s)[0] == w[0]; }
    assert NextPrefix(w + s) == None;
    hide Digits, Value, DigitCount, Parse, Rest, NextPrefix;
    assert (w + s)[..|w|] == w && (w + s)[|w|..] == s;
  }

  lemma VarRead(name: string, s: string)
    requires ValidName(name) && (s != "" ==> !NameChar(s[0]))
    ensures Primary("$" + name + s) == Some((Var(name), s))
  {
    hide NameLength, Primary, NextPrefix, Parse, Rest, Digit, NameChar;
    NameCounted(name, s);
    assert "$" + name + s == "$" + (name + s);
    assert (name + s)[..|name|] == name && (name + s)[|name|..] == s;
    VarPrimary(name, name + s);
  }

  lemma VarPrimary(name: string, u: string)
    requires NameLength(u) == |name| <= |u| && u[..|name|] == name && ValidName(name)
    ensures Primary("$" + u) == Some((Var(name), u[|name|..]))
  {
    hide NameLength, Parse, Rest, NextPrefix, ValidName;
    NoPrefixAt("$" + u);
    assert ("$" + u)[1..] == u;
    assert ("$" + u)[1 + |name|..] == u[|name|..];
  }

  lemma NoPrefixAt(t: string)
    requires t != "" && (t[0] == '$' || t[0] == '(')
    ensures NextPrefix(t) == None
  {}

  // ---- the table against the grammar ----

  // The priority of the operators of a group.
  function Printed(r: nat): nat
  {
    if r < INDEXING then [40, 60, 90, 100, 110, 120, 130, 140, 150, 160, 170, 180, 190, 200, 210, 240, 240, 250][r]
    else 260
  }

  lemma PrintedGrows(a: nat, b: nat)
    ensures a < b <= INDEXING ==> Printed(a) + (if a == 15 && b == 16 then 0 else 10) <= Printed(b)
  {}

  // The first group whose operators need no parentheses at priority q.
  function Low(q: nat): (r: nat)
    requires q <= 260
    ensures r <= INDEXING && q <= Printed(r) && forall b: nat :: b < r ==> Printed(b) < q
  {
    LowFrom(q, 0)
  }

  function LowFrom(q: nat, r: nat): (l: nat)
    requires q <= 260 && r <= INDEXING && forall b: nat :: b < r ==> Printed(b) < q
    ensures r <= l <= INDEXING && q <= Printed(l) && forall b: nat :: b < l ==> Printed(b) < q
    decreases INDEXING - r
  {
    if q <= Printed(r) then r else LowFrom(q, r + 1)
  }

  lemma LowAtMost(q: nat, r: nat)
    requires q <= 260 && q <= Printed(r)
    ensures Low(q) <= r
  {
    hide Printed;
  }

  lemma LowIs(q: nat)
    requires q <= 260
    ensures Low(q) <= INDEXING == 18 && q <= Printed(Low(q))
  {
    hide Printed;
  }

  lemma LowAtLeast(q: nat, r: nat)
    requires q <= 260 && r < INDEXING && Printed(r) < q
    ensures r + 1 <= Low(q)
  {
    hide *;
    LowIs(q);
    PrintedGrows(Low(q), r);
  }

  /** The priorities are those of the groups of the grammar, except that the spaceship is printed with the comparisons
      and not with the equalities; an operand is printed at a higher priority on the side on which its operator does not
      associate. */
  lemma LevelRank(op: BinaryOp)
    ensures Level(op) == if op == Spaceship then Printed(Bind(Smaller)) else Printed(Bind(op))
    ensures LeftLevel(op) == Level(op) + if SideOf(Between(op)) == LeftSide then 0 else 1
    ensures RightLevel(op) == Level(op) + if SideOf(Between(op)) == RightSide then 0 else 1
    ensures Level(op) <= 250
  {
    LevelOfRank(op);
    OperandLevels(op);
    hide *;
  }

  lemma LevelOfRank(op: BinaryOp)
    ensures Level(op) == if op == Spaceship then Printed(Bind(Smaller)) else Printed(Bind(op))
    ensures Level(op) <= 250
  {}

  lemma OperandLevels(op: BinaryOp)
    ensures LeftLevel(op) == Level(op) + if SideOf(Between(op)) == LeftSide then 0 else 1
    ensures RightLevel(op) == Level(op) + if SideOf(Between(op)) == RightSide then 0 else 1
  {
    SideIs(Between(op));
    hide SideOf;
  }

  lemma SideIs(t: Token)
    ensures SideOf(t) == if Rank(t) in {10, 11} then Neither else if Rank(t) in {1, 2, 4, 15, 16, 17} then RightSide
      else LeftSide
  {
    hide Rank;
  }

  lemma BindFacts(op: BinaryOp)
    ensures Bind(op) < INDEXING && Bind(op) !in {1, 3, 15, 16}
    ensures RightBind(op) == Bind(op) + if SideOf(Between(op)) == RightSide then 0 else 1
    ensures Bind(Spaceship) == 10 && Bind(Smaller) == 11 && BarredBy(Spaceship) == Bar(10)
    ensures op == Spaceship ==> RightBind(op) == 11 && SideOf(Between(op)) == Neither
    ensures Bind(op) == 11 ==> SideOf(Between(op)) == Neither
    ensures Printed(10) == 170 && Printed(11) == 180 && Printed(3) == 100 && Printed(2) == 90
    ensures CONDITIONAL == 3 && INDEXING == 18
  {
    SideIs(Between(op));
    SideIs(Between(Spaceship));
    BindIs(op);
    BindIs(Spaceship);
    BindIs(Smaller);
    assert CONDITIONAL == 3;
    hide Rank, Bind, SideOf;
  }

  lemma BindIs(op: BinaryOp)
    ensures Bind(op) == Rank(Between(op)) && Bind(op) < 18 && Bind(op) !in {1, 3, 15, 16}
    ensures op == Spaceship ==> Bind(op) == 10
    ensures op == Smaller ==> Bind(op) == 11
  {}

  lemma PrefixRank(op: PrefixOp)
    ensures PrefixLevel(op) == Printed(OperandBind(op)) && OperandLevel(op) == PrefixLevel(op) + 1 <= 260
    ensures OperandBind(op) in {1, 15, 16}
  {}

  // Operators of one group associate on the same side.
  lemma SameSide(a: BinaryOp, b: BinaryOp)
    requires Bind(a) == Bind(b)
    ensures SideOf(Between(a)) == SideOf(Between(b))
  {}

  // The group down to which the last operand of e takes operators in, if e is printed at priority q.
  function Edge(e: Expr, q: nat): nat
  {
    if q > Height(e) then 1000
    else
      match e
      case Prefix(op, _) => OperandBind(op)
      case Binary(op, _, _) => RightBind(op)
      case Conditional(_, _, _) => CONDITIONAL + 1
      case _ => 1000
  }

  // The group that may not follow e, if it is printed at priority q.
  function BarAfter(e: Expr, q: nat): Barred
  {
    if q <= Height(e) && e.Binary? then BarredBy(e.op) else Free
  }

  // A spaceship as operand of an equality: the one case in which parentheses are missing.
  predicate Tangled(op: BinaryOp, x: Expr)
  {
    x.Binary? && x.op == Spaceship && op in {Equal, NotEqual, Identical, NotIdentical}
  }

  predicate Clear(e: Expr)
  {
    match e
    case Num(_) => true
    case Var(_) => true
    case Prefix(_, x) => Clear(x)
    case Binary(op, l, r) => !Tangled(op, l) && !Tangled(op, r) && Clear(l) && Clear(r)
    case Conditional(c, t, f) => Clear(c) && (t.Some? ==> Clear(t.value)) && Clear(f)
    case Index(b, i) => Clear(b) && (i.Some? ==> Clear(i.value))
  }

  lemma TangledIs(op: BinaryOp, x: Expr)
    ensures Tangled(op, x) <==> x.Binary? && x.op == Spaceship && op != Spaceship && Bind(op) == 10
  {
    Equalities(op);
    hide Bind, Rank;
  }

  // A parser for group k reads the operator of e, if e is printed at priority q.
  predicate Reaches(e: Expr, q: nat, k: nat)
  {
    e.Binary? && q <= Level(e.op) ==> k <= Bind(e.op)
  }

  lemma ReachesMost(e: Expr, q: nat, k: nat)
    requires q <= 260 && k <= Low(q) && (e.Binary? && e.op == Spaceship && 170 < q <= 180 ==> k <= 10)
    ensures Reaches(e, q, k)
  {
    if e.Binary? && q <= Level(e.op) {
      LevelRank(e.op);
      BindFacts(e.op);
      if e.op != Spaceship { LowAtMost(q, Bind(e.op)); } else if q <= 170 { LowAtMost(q, 10); }
    }
    hide Level, Bind, Printed, Low;
  }

  // ---- the places of operands ----

  lemma RightPlace(op: BinaryOp)
    ensures RightLevel(op) <= 260 && RightBind(op) <= Low(RightLevel(op))
  {
    LevelRank(op);
    BindFacts(op);
    hide *;
    if SideOf(Between(op)) != RightSide {
      if op == Spaceship { LowAtLeast(RightLevel(op), 10); } else { LowAtLeast(RightLevel(op), Bind(op)); }
    } else if Bind(op) > 0 {
      PrintedGrows(Bind(op) - 1, Bind(op));
      LowAtLeast(RightLevel(op), Bind(op) - 1);
    }
  }

  lemma LeftPlace(op: BinaryOp)
    ensures LeftLevel(op) <= 260 && Bind(op) <= Low(LeftLevel(op))
    ensures SideOf(Between(op)) != LeftSide ==> Bind(op) + 1 <= Low(LeftLevel(op))
  {
    LevelRank(op);
    BindFacts(op);
    hide *;
    if SideOf(Between(op)) != LeftSide {
      if op == Spaceship { LowAtLeast(LeftLevel(op), 10); } else { LowAtLeast(LeftLevel(op), Bind(op)); }
    } else if Bind(op) > 0 {
      PrintedGrows(Bind(op) - 1, Bind(op));
      LowAtLeast(LeftLevel(op), Bind(op) - 1);
    }
  }

  lemma OtherPlaces(op: PrefixOp)
    ensures OperandLevel(op) <= 260 && OperandBind(op) <= Low(OperandLevel(op))
    ensures CONDITIONAL + 1 <= Low(101) && Low(100) == CONDITIONAL && Low(260) == INDEXING
  {
    PrefixRank(op);
    BindFacts(Add);
    LowAtLeast(OperandLevel(op), OperandBind(op));
    LowAtLeast(101, 3);
    LowAtLeast(100, 2);
    LowAtMost(100, 3);
    LowAtLeast(260, 17);
    hide Low;
  }

  // The last operand ends where the expression ends.
  lemma LastOperandEnds(e: Expr, q: nat)
    requires q <= 260
    ensures Low(q) <= Edge(e, q)
  {
    BindFacts(Add);
    EdgeIs(e, q);
    hide *;
    if q <= Height(e) {
      match e {
        case Prefix(op, _) => PrefixRank(op); LowAtMost(q, OperandBind(op));
        case Binary(op, _, _) =>
          LevelRank(op);
          BindFacts(op);
          LowAtMost(q, if op == Spaceship then 11 else Bind(op));
        case Conditional(_, _, _) => LowAtMost(q, 3);
        case _ =>
      }
    }
  }

  // An operator that follows its left operand is not taken into it.
  lemma LeftOperandEnds(l: Expr, op: BinaryOp)
    ensures Bind(op) < Edge(l, LeftLevel(op))
  {
    hide *;
    var q := LeftLevel(op);
    LeftPlace(op);
    LastOperandEnds(l, q);
    EdgeIs(l, q);
    BindFacts(op);
    if SideOf(Between(op)) == LeftSide && q <= Height(l) {
      match l {
        case Prefix(p, _) => PrefixRank(p);
        case Binary(inner, _, _) =>
          LevelRank(op);
          LevelRank(inner);
          BindFacts(inner);
          PrintedGrows(11, Bind(op));
          PrintedGrows(Bind(inner), Bind(op));
          if Bind(inner) == Bind(op) { SameSide(inner, op); }
        case Conditional(_, _, _) => LowAtMost(q, 3);
        case _ =>
      }
    }
  }

  lemma ConditionEnds(c: Expr)
    ensures CONDITIONAL < Edge(c, 100)
  {
    hide *;
    OtherPlaces(Print);
    LastOperandEnds(c, 100);
    EdgeIs(c, 100);
    BindFacts(Add);
    match c {
      case Prefix(p, _) => PrefixRank(p);
      case Binary(op, _, _) =>
        BindFacts(op);
        LevelRank(op);
        PrintedGrows(Bind(op), 3);
      case _ =>
    }
  }

  lemma BaseEnds(e: Expr)
    ensures Edge(e, 260) == 1000
  {
    EdgeIs(e, 260);
    match e {
      case Prefix(p, _) => PrefixRank(p); OtherPlaces(p);
      case Binary(op, _, _) => LevelRank(op);
      case _ =>
    }
    hide *;
  }

  lemma EdgeIs(e: Expr, q: nat)
    ensures Edge(e, q) == if q > Height(e) then 1000 else match e
      case Prefix(op, _) => OperandBind(op)
      case Binary(op, _, _) => RightBind(op)
      case Conditional(_, _, _) => CONDITIONAL + 1
      case _ => 1000
    ensures Height(e) == match e
      case Prefix(op, _) => PrefixLevel(op)
      case Binary(op, _, _) => Level(op)
      case Conditional(_, _, _) => 100
      case _ => 1000
  {}

  lemma BarIs(e: Expr, q: nat)
    ensures BarAfter(e, q) == if q <= Height(e) && e.Binary? then BarredBy(e.op) else Free
    ensures e.Binary? ==> Height(e) == Level(e.op)
    ensures e.Binary? ==> BarredBy(e.op) == if SideOf(Between(e.op)) == Neither then Bar(Bind(e.op)) else Free
  {}

  // What follows a left operand is barred only behind a spaceship in an equality.
  lemma LeftBar(l: Expr, op: BinaryOp)
    ensures BarAfter(l, LeftLevel(op)) == Bar(Bind(op)) <==> Tangled(op, l)
  {
    hide *;
    BarIs(l, LeftLevel(op));
    TangledIs(op, l);
    LevelRank(op);
    BindFacts(op);
    if l.Binary? {
      LevelRank(l.op);
      BindFacts(l.op);
      if Bind(l.op) == Bind(op) { SameSide(l.op, op); }
    }
  }

  lemma LeftReaches(l: Expr, op: BinaryOp, k: nat)
    requires k <= Bind(op)
    ensures LeftLevel(op) <= 260 && k <= Low(LeftLevel(op)) && Reaches(l, LeftLevel(op), k)
  {
    hide *;
    LeftPlace(op);
    LevelRank(op);
    BindFacts(op);
    PrintedGrows(11, Bind(op));
    ReachesMost(l, LeftLevel(op), k);
  }

  lemma RightReaches(r: Expr, op: BinaryOp)
    requires !Tangled(op, r)
    ensures RightLevel(op) <= 260 && RightBind(op) <= Low(RightLevel(op))
    ensures Reaches(r, RightLevel(op), RightBind(op))
  {
    hide *;
    RightPlace(op);
    TangledIs(op, r);
    LevelRank(op);
    BindFacts(op);
    PrintedGrows(Bind(op), 10);
    PrintedGrows(11, Bind(op));
    ReachesMost(r, RightLevel(op), RightBind(op));
  }

  // ---- one construct read back, given that its parts are ----

  lemma ParseIs(s: string, k: nat)
    ensures Parse(s, k) == match Primary(s) case None => None case Some((e, rest)) => Rest(e, rest, k, Free)
  {}

  lemma ParenthesesRead(e: Expr, b: string, s: string, k: nat)
    requires Parse(b + (")" + s), 0) == Some((e, ")" + s))
    ensures Parse("(" + b + ")" + s, k) == Rest(e, s, k, Free)
  {
    hide *;
    assert "(" + b + ")" + s == "(" + (b + (")" + s));
    ParenthesesPrimary(e, b + (")" + s), s);
    ParseIs("(" + b + ")" + s, k);
  }

  lemma ParenthesesPrimary(e: Expr, u: string, s: string)
    requires Parse(u, 0) == Some((e, ")" + s))
    ensures Primary("(" + u) == Some((e, s))
  {
    hide Parse, Rest, NextPrefix;
    NoPrefixAt("(" + u);
    assert ("(" + u)[1..] == u;
    assert (")" + s)[1..] == s;
  }

  lemma ParenthesesFail(b: string, s: string, k: nat)
    requires Parse(b + (")" + s), 0) == None
    ensures Parse("(" + b + ")" + s, k) == None
  {
    var u := b + (")" + s);
    assert "(" + b + ")" + s == "(" + u;
    NoPrefixAt("(" + u);
    assert ("(" + u)[1..] == u;
    ParseIs("(" + u, k);
    hide Parse, Rest, NextPrefix;
  }

  lemma PrefixRead(op: PrefixOp, e: Expr, b: string, s: string, k: nat)
    requires Parse(b + s, OperandBind(op)) == Some((e, s))
    ensures Parse(PrefixSymbol(op) + b + s, k) == Rest(Prefix(op, e), s, k, Free)
  {
    hide *;
    assert PrefixSymbol(op) + b + s == PrefixSymbol(op) + (b + s);
    PrefixFound(op, b + s);
    PrefixPrimary(op, PrefixSymbol(op) + (b + s), b + s);
    ParseIs(PrefixSymbol(op) + b + s, k);
  }

  lemma PrefixFail(op: PrefixOp, b: string, s: string, k: nat)
    requires Parse(b + s, OperandBind(op)) == None
    ensures Parse(PrefixSymbol(op) + b + s, k) == None
  {
    hide *;
    assert PrefixSymbol(op) + b + s == PrefixSymbol(op) + (b + s);
    PrefixFound(op, b + s);
    PrefixPrimary(op, PrefixSymbol(op) + (b + s), b + s);
    ParseIs(PrefixSymbol(op) + b + s, k);
  }

  lemma PrefixFound(op: PrefixOp, u: string)
    ensures NextPrefix(PrefixSymbol(op) + u) == Some((op, u))
  {
    var t := PrefixSymbol(op) + u;
    assert t[|PrefixSymbol(op)|..] == u;
    assert t[..|PrefixSymbol(op)|] == PrefixSymbol(op);
  }

  lemma PrefixPrimary(op: PrefixOp, t: string, u: string)
    requires NextPrefix(t) == Some((op, u)) && t != ""
    ensures Primary(t) == match Parse(u, OperandBind(op))
      case None => None
      case Some((e, s)) => Some((Prefix(op, e), s))
  {
    hide Parse, Rest, NextPrefix, OperandBind;
  }

  // What is done with the operator that comes next.
  lemma RestOperator(e: Expr, op: BinaryOp, u: string, k: nat, barred: Barred)
    ensures Rest(e, Spaced(Symbol(op)) + u, k, barred) ==
      if Bind(op) < k then Some((e, Spaced(Symbol(op)) + u))
      else if barred == Bar(Bind(op)) then None
      else match Parse(u, RightBind(op))
        case None => None
        case Some((r, s)) => Rest(Binary(op, e, r), s, k, BarredBy(op))
  {
    OperatorRead(op, u);
    hide Parse, NextInfix, Bind, RightBind, BarredBy, Symbol, Spaced;
  }

  lemma RestShort(e: Expr, u: string, k: nat, barred: Barred)
    requires k <= CONDITIONAL
    ensures Rest(e, Spaced("?:") + u, k, barred) == match Parse(u, CONDITIONAL + 1)
      case None => None
      case Some((f, s)) => Rest(Conditional(e, None, f), s, k, Free)
  {
    InfixRead("?:", QuestionColon, u);
    hide Parse, NextInfix, Spaced;
  }

  lemma RestLong(e: Expr, t: Expr, u: string, v: string, k: nat, barred: Barred)
    requires k <= CONDITIONAL && Parse(u, 0) == Some((t, Spaced(":") + v))
    ensures Rest(e, Spaced("?") + u, k, barred) == match Parse(v, CONDITIONAL + 1)
      case None => None
      case Some((f, s)) => Rest(Conditional(e, Some(t), f), s, k, Free)
  {
    InfixRead("?", Question, u);
    InfixRead(":", Colon, v);
    hide Parse, NextInfix, Spaced;
  }

  lemma RestLongFail(e: Expr, u: string, k: nat, barred: Barred)
    requires k <= CONDITIONAL && Parse(u, 0) == None
    ensures Rest(e, Spaced("?") + u, k, barred) == None
  {
    InfixRead("?", Question, u);
    hide Parse, NextInfix, Spaced;
  }

  lemma NoInfix(s: string)
    requires s != "" && s[0] != ' '
    ensures NextInfix(s) == None
  {}

  lemma EmptyIndexRead(b: Expr, s: string, k: nat, barred: Barred)
    requires k <= INDEXING
    ensures Rest(b, "[]" + s, k, barred) == Rest(Index(b, None), s, k, Free)
  {
    NoInfix("[]" + s);
    assert ("[]" + s)[2..] == s;
    hide Parse, NextInfix;
  }

  // An index is read behind its base.
  lemma IndexRest(b: Expr, u: string, k: nat, barred: Barred)
    requires k <= INDEXING
    ensures u != "" && u[0] == ']' ==> Parse(u, 0) == None
    ensures Parse(u, 0) == None && (u == "" || u[0] != ']') ==> Rest(b, "[" + u, k, barred) == None
    ensures forall i, s :: Parse(u, 0) == Some((i, "]" + s)) ==>
      Rest(b, "[" + u, k, barred) == Rest(Index(b, Some(i)), s, k, Free)
  {
    NoInfix("[" + u);
    NoExpression(u);
    assert ("[" + u)[1..] == u;
    forall s: string ensures ("]" + s)[1..] == s {}
    hide Parse, NextInfix;
  }

  // No expression begins with a closing bracket.
  lemma NoExpression(s: string)
    ensures s != "" && s[0] == ']' ==> Parse(s, 0) == None
  {}

  lemma CloserStops(c: char, s: string, k: nat)
    requires c == ')' || c == ']'
    ensures Stops([c] + s, k)
  {
    NoInfix([c] + s);
    hide NextInfix;
  }

  // ---- the round trip ----

  /** Reading the text of an expression printed at priority q, with a parser for operators from group k on, comes to the
      end of the text with the expression in hand, whatever stands behind it that the expression does not take in. */
  lemma {:induction false} ReadBack(e: Expr, q: nat, s: string, k: nat)
    requires Plain(e) && Clear(e) && q <= 260 && k <= Low(q) && Reaches(e, q, k) && Stops(s, Edge(e, q))
    ensures Parse(Text(e, q) + s, k) == Rest(e, s, k, BarAfter(e, q))
    decreases e, if q > Height(e) then 1 else 0
  {
    hide *;
    TextIs(e, q);
    EdgeIs(e, q);
    BarIs(e, q);
    if q > Height(e) {
      CloserStops(')', s, Edge(e, 0));
      CloserStops(')', s, 0);
      ReachesAny(e, q);
      ReadBack(e, 0, ")" + s, 0);
      RestStops(e, ")" + s, 0, BarAfter(e, 0));
      TextIs(e, 0);
      ParenthesesRead(e, Body(e), s, k);
    } else {
      PlainParts(e);
      ClearParts(e);
      BodyIs(e);
      ReachIs(e, q, k);
      StopsParts(s, Edge(e, q));
      match e {
        case Num(n) => NumRead(n, s); ParseIs(Body(e) + s, k);
        case Var(name) => VarRead(name, s); ParseIs(Body(e) + s, k);
        case Prefix(op, x) => ReadOperand(op, x, s); PrefixRead(op, x, Text(x, OperandLevel(op)), s, k);
        case Binary(op, l, r) => ReadBinary(op, l, r, s, k);
        case Conditional(c, None, f) => ReadShort(c, f, s, k);
        case Conditional(c, Some(t), f) => ReadConditional(c, t, f, s, k);
        case Index(b, None) =>
          ReadBase(b, "]" + s, k);
          EmptyIndexRead(b, s, k, BarAfter(b, 260));
          assert "[" + ("]" + s) == "[]" + s;
          assert Text(b, 260) + "[]" + s == Text(b, 260) + ("[]" + s);
        case Index(b, Some(i)) =>
          var u := Text(i, 0) + ("]" + s);
          ReadBase(b, u, k);
          ReadInside(i, s);
          IndexRest(b, u, k, BarAfter(b, 260));
          BracketsJoined(Text(b, 260), Text(i, 0), s);
      }
    }
  }

  lemma BracketsJoined(a: string, b: string, s: string)
    ensures a + ("[" + (b + "]")) + s == a + ("[" + (b + ("]" + s)))
  {}

  lemma {:induction false} ReadOperand(op: PrefixOp, x: Expr, s: string)
    requires Plain(x) && Clear(x) && Stops(s, OperandBind(op))
    ensures Parse(Text(x, OperandLevel(op)) + s, OperandBind(op)) == Some((x, s))
    decreases x, 2
  {
    hide *;
    OtherPlaces(op);
    PrefixRank(op);
    PrefixReaches(op, x);
    Operand(x, OperandLevel(op), OperandBind(op), s);
    ReadBack(x, OperandLevel(op), s, OperandBind(op));
  }

  lemma {:induction false} ReadBinary(op: BinaryOp, l: Expr, r: Expr, s: string, k: nat)
    requires Plain(l) && Plain(r) && Clear(l) && Clear(r) && !Tangled(op, l) && !Tangled(op, r)
    requires k <= Bind(op) && Stops(s, RightBind(op))
    ensures Parse(Text(l, LeftLevel(op)) + (Spaced(Symbol(op)) + Text(r, RightLevel(op))) + s, k)
      == Rest(Binary(op, l, r), s, k, BarredBy(op))
    decreases Binary(op, l, r), -1
  {
    hide *;
    var u := Text(r, RightLevel(op)) + s;
    ReadLeft(op, l, u, k);
    LeftBar(l, op);
    ReadRight(op, r, s);
    RestOperator(l, op, u, k, BarAfter(l, LeftLevel(op)));
    BinaryJoined(Text(l, LeftLevel(op)), Spaced(Symbol(op)), Text(r, RightLevel(op)), s);
  }

  lemma BinaryJoined(a: string, b: string, c: string, s: string)
    ensures a + (b + c) + s == a + (b + (c + s))
  {}

  lemma {:induction false} ReadLeft(op: BinaryOp, l: Expr, u: string, k: nat)
    requires Plain(l) && Clear(l) && k <= Bind(op)
    ensures Parse(Text(l, LeftLevel(op)) + (Spaced(Symbol(op)) + u), k)
      == Rest(l, Spaced(Symbol(op)) + u, k, BarAfter(l, LeftLevel(op)))
    decreases l, 2
  {
    hide *;
    LeftReaches(l, op, k);
    LeftOperandEnds(l, op);
    OperatorStops(op, u, Edge(l, LeftLevel(op)));
    ReadBack(l, LeftLevel(op), Spaced(Symbol(op)) + u, k);
  }

  lemma {:induction false} ReadRight(op: BinaryOp, r: Expr, s: string)
    requires Plain(r) && Clear(r) && !Tangled(op, r) && Stops(s, RightBind(op))
    ensures Parse(Text(r, RightLevel(op)) + s, RightBind(op)) == Some((r, s))
    decreases r, 2
  {
    hide *;
    RightReaches(r, op);
    Operand(r, RightLevel(op), RightBind(op), s);
    ReadBack(r, RightLevel(op), s, RightBind(op));
  }

  lemma {:induction false} ReadCondition(c: Expr, w: string, x: Infix, u: string, k: nat)
    requires Plain(c) && Clear(c) && k <= CONDITIONAL
    requires (w == "?" && x == Question) || (w == "?:" && x == QuestionColon)
    ensures Parse(Text(c, 100) + (Spaced(w) + u), k) == Rest(c, Spaced(w) + u, k, BarAfter(c, 100))
    decreases c, 2
  {
    hide *;
    OtherPlaces(Print);
    ConditionEnds(c);
    QuestionStops(w, x, u, Edge(c, 100));
    ReachesMost(c, 100, k);
    ReadBack(c, 100, Spaced(w) + u, k);
  }

  lemma {:induction false} ReadBranch(f: Expr, s: string)
    requires Plain(f) && Clear(f) && Stops(s, CONDITIONAL + 1)
    ensures Parse(Text(f, 101) + s, CONDITIONAL + 1) == Some((f, s))
    decreases f, 2
  {
    hide *;
    OtherPlaces(Print);
    ReachesMost(f, 101, CONDITIONAL + 1);
    Operand(f, 101, CONDITIONAL + 1, s);
    ReadBack(f, 101, s, CONDITIONAL + 1);
  }

  // Between the question mark and the colon anything can stand.
  lemma {:induction false} ReadMiddle(t: Expr, u: string)
    requires Plain(t) && Clear(t)
    ensures Parse(Text(t, 101) + (Spaced(":") + u), 0) == Some((t, Spaced(":") + u))
    decreases t, 2
  {
    hide *;
    ColonStops(u, Edge(t, 101));
    ColonStops(u, 0);
    ReachesMost(t, 101, 0);
    ReadBack(t, 101, Spaced(":") + u, 0);
    RestStops(t, Spaced(":") + u, 0, BarAfter(t, 101));
  }

  lemma {:induction false} ReadShort(c: Expr, f: Expr, s: string, k: nat)
    requires Plain(c) && Plain(f) && Clear(c) && Clear(f) && k <= CONDITIONAL && Stops(s, CONDITIONAL + 1)
    ensures Parse(Text(c, 100) + (Spaced("?:") + Text(f, 101)) + s, k) == Rest(Conditional(c, None, f), s, k, Free)
    decreases Conditional(c, None, f), -1
  {
    hide *;
    var u := Text(f, 101) + s;
    ReadCondition(c, "?:", QuestionColon, u, k);
    ReadBranch(f, s);
    RestShort(c, u, k, BarAfter(c, 100));
    BinaryJoined(Text(c, 100), Spaced("?:"), Text(f, 101), s);
  }

  lemma {:induction false} ReadConditional(c: Expr, t: Expr, f: Expr, s: string, k: nat)
    requires Plain(c) && Plain(t) && Plain(f) && Clear(c) && Clear(t) && Clear(f)
    requires k <= CONDITIONAL && Stops(s, CONDITIONAL + 1)
    ensures Parse(Text(c, 100) + (Spaced("?") + (Text(t, 101) + (Spaced(":") + Text(f, 101)))) + s, k)
         == Rest(Conditional(c, Some(t), f), s, k, Free)
    decreases Conditional(c, Some(t), f), -1
  {
    hide *;
    var v := Text(f, 101) + s;
    var u := Text(t, 101) + (Spaced(":") + v);
    ReadCondition(c, "?", Question, u, k);
    ReadMiddle(t, v);
    ReadBranch(f, s);
    RestLong(c, t, u, v, k, BarAfter(c, 100));
    ConditionalJoined(Text(c, 100), Spaced("?"), Text(t, 101), Spaced(":"), Text(f, 101), s);
  }

  lemma ConditionalJoined(a: string, b: string, c: string, d: string, e: string, s: string)
    ensures a + (b + (c + (d + e))) + s == a + (b + (c + (d + (e + s))))
  {}

  lemma {:induction false} ReadBase(b: Expr, u: string, k: nat)
    requires Plain(b) && Clear(b) && k <= INDEXING
    ensures Parse(Text(b, 260) + ("[" + u), k) == Rest(b, "[" + u, k, BarAfter(b, 260))
    decreases b, 2
  {
    hide *;
    OtherPlaces(Print);
    BaseEnds(b);
    BindFacts(Add);
    BracketStops(u, 1000);
    ReachesMost(b, 260, k);
    ReadBack(b, 260, "[" + u, k);
  }

  lemma {:induction false} ReadInside(i: Expr, s: string)
    requires Plain(i) && Clear(i)
    ensures Parse(Text(i, 0) + ("]" + s), 0) == Some((i, "]" + s))
    decreases i, 2
  {
    hide *;
    CloserStops(']', s, Edge(i, 0));
    CloserStops(']', s, 0);
    ReachesMost(i, 0, 0);
    ReadBack(i, 0, "]" + s, 0);
    RestStops(i, "]" + s, 0, BarAfter(i, 0));
  }

  lemma PrefixReaches(op: PrefixOp, x: Expr)
    ensures Reaches(x, OperandLevel(op), OperandBind(op))
  {
    OtherPlaces(op);
    PrefixRank(op);
    BindFacts(Add);
    PrintedGrows(11, OperandBind(op));
    hide *;
    ReachesMost(x, OperandLevel(op), OperandBind(op));
  }

  lemma ReachesAny(e: Expr, q: nat)
    ensures Reaches(e, 0, 0)
  {}

  lemma ReachIs(e: Expr, q: nat, k: nat)
    requires q <= Height(e) && q <= 260 && k <= Low(q) && Reaches(e, q, k)
    ensures e.Binary? ==> k <= Bind(e.op)
    ensures e.Conditional? ==> k <= CONDITIONAL
    ensures k <= INDEXING
  {
    BindFacts(Add);
    if e.Conditional? { LowAtMost(q, 3); }
    hide Low, Printed, Bind, Level;
  }

  // What follows a last operand stops there, and at the operand's own last operand.
  lemma Operand(e: Expr, q: nat, k: nat, s: string)
    requires Stops(s, k) && q <= 260 && k <= Low(q)
    ensures Stops(s, Edge(e, q)) && forall barred :: Rest(e, s, k, barred) == Some((e, s))
  {
    hide *;
    LastOperandEnds(e, q);
    StopsAbove(s, k, Edge(e, q));
    forall barred ensures Rest(e, s, k, barred) == Some((e, s)) { RestStops(e, s, k, barred); }
  }

  lemma ClearParts(e: Expr)
    requires Clear(e)
    ensures match e
      case Prefix(_, x) => Clear(x)
      case Binary(op, l, r) => !Tangled(op, l) && !Tangled(op, r) && Clear(l) && Clear(r)
      case Conditional(c, t, f) => Clear(c) && (t.Some? ==> Clear(t.value)) && Clear(f)
      case Index(b, i) => Clear(b) && (i.Some? ==> Clear(i.value))
      case _ => true
  {}

  lemma TextIs(e: Expr, q: nat)
    ensures Text(e, q) == if q > Height(e) then "(" + Body(e) + ")" else Body(e)
    ensures Height(e) == match e
      case Prefix(op, _) => PrefixLevel(op)
      case Binary(op, _, _) => Level(op)
      case Conditional(_, _, _) => 100
      case _ => 1000
  {}

  lemma BodyIs(e: Expr)
    ensures match e
      case Num(n) => Body(e) == Decimal(n) && (n >= 0 ==> Body(e) == Digits(n))
      case Var(name) => Body(e) == VarText(name) && (ValidName(name) ==> Body(e) == "$" + name)
      case Prefix(op, x) => Body(e) == PrefixSymbol(op) + Text(x, OperandLevel(op))
      case Binary(op, l, r) => Body(e) == Text(l, LeftLevel(op)) + (Spaced(Symbol(op)) + Text(r, RightLevel(op)))
      case Conditional(c, None, f) => Body(e) == Text(c, 100) + (Spaced("?:") + Text(f, 101))
      case Conditional(c, Some(t), f) =>
        Body(e) == Text(c, 100) + (Spaced("?") + (Text(t, 101) + (Spaced(":") + Text(f, 101))))
      case Index(b, None) => Body(e) == Text(b, 260) + "[]"
      case Index(b, Some(i)) => Body(e) == Text(b, 260) + ("[" + (Text(i, 0) + "]"))
  {}

  lemma PlainParts(e: Expr)
    requires Plain(e)
    ensures match e
      case Num(n) => n >= 0
      case Var(name) => ValidName(name)
      case Prefix(_, x) => Plain(x)
      case Binary(_, l, r) => Plain(l) && Plain(r)
      case Conditional(c, t, f) => Plain(c) && (t.Some? ==> Plain(t.value)) && Plain(f)
      case Index(b, i) => Plain(b) && (i.Some? ==> Plain(i.value))
  {}

  lemma StopsParts(s: string, k: nat)
    requires Stops(s, k)
    ensures s != "" ==> !NameChar(s[0])
  {}

  lemma QuestionStops(w: string, x: Infix, s: string, k: nat)
    requires (w == "?" && x == Question) || (w == "?:" && x == QuestionColon)
    requires CONDITIONAL < k
    ensures Stops(Spaced(w) + s, k)
  {
    InfixRead(w, x, s);
    hide NextInfix;
  }

  lemma ColonStops(s: string, k: nat)
    ensures Stops(Spaced(":") + s, k)
  {
    InfixRead(":", Colon, s);
    hide NextInfix;
  }

  lemma BracketStops(s: string, k: nat)
    requires INDEXING < k
    ensures Stops("[" + s, k)
  {
    NoInfix("[" + s);
    hide NextInfix;
  }

  // ---- what does not come back ----

  // The text of an expression with a spaceship as operand of an equality is refused.
  lemma {:induction false} Refused(e: Expr, q: nat, s: string, k: nat)
    requires Plain(e) && !Clear(e) && q <= 260 && k <= Low(q) && Reaches(e, q, k)
    ensures Parse(Text(e, q) + s, k) == None
    decreases e, if q > Height(e) then 4 else 3
  {
    hide *;
    TextIs(e, q);
    if q > Height(e) {
      ReachesAny(e, q);
      Refused(e, 0, ")" + s, 0);
      TextIs(e, 0);
      ParenthesesFail(Body(e), s, k);
    } else {
      PlainParts(e);
      UnclearParts(e);
      BodyIs(e);
      ReachIs(e, q, k);
      match e {
        case Prefix(op, x) =>
          OtherPlaces(op);
          PrefixReaches(op, x);
          Refused(x, OperandLevel(op), s, OperandBind(op));
          PrefixFail(op, Text(x, OperandLevel(op)), s, k);
        case Binary(op, l, r) => RefusedBinary(op, l, r, s, k);
        case Conditional(c, None, f) => RefusedShort(c, f, s, k);
        case Conditional(c, Some(t), f) => RefusedConditional(c, t, f, s, k);
        case Index(b, None) =>
          RefusedBase(b, "]" + s, k);
          assert Text(b, 260) + "[]" + s == Text(b, 260) + ("[" + ("]" + s));
        case Index(b, Some(i)) => RefusedIndex(b, i, s, k);
      }
    }
  }

  lemma {:induction false} RefusedBinary(op: BinaryOp, l: Expr, r: Expr, s: string, k: nat)
    requires Plain(l) && Plain(r) && k <= Bind(op)
    requires Tangled(op, l) || Tangled(op, r) || !Clear(l) || !Clear(r)
    ensures Parse(Text(l, LeftLevel(op)) + (Spaced(Symbol(op)) + Text(r, RightLevel(op))) + s, k) == None
    decreases Binary(op, l, r), 2
  {
    hide *;
    RefusedFront(op, l, r, s, k);
    BinaryJoined(Text(l, LeftLevel(op)), Spaced(Symbol(op)), Text(r, RightLevel(op)), s);
  }

  lemma {:induction false} RefusedFront(op: BinaryOp, l: Expr, r: Expr, s: string, k: nat)
    requires Plain(l) && Plain(r) && k <= Bind(op)
    requires Tangled(op, l) || Tangled(op, r) || !Clear(l) || !Clear(r)
    ensures Parse(Text(l, LeftLevel(op)) + (Spaced(Symbol(op)) + (Text(r, RightLevel(op)) + s)), k) == None
    decreases Binary(op, l, r), 1
  {
    hide *;
    var u := Text(r, RightLevel(op)) + s;
    if Clear(l) {
      ReadLeft(op, l, u, k);
      RefusedRest(op, l, r, s, k);
    } else {
      LeftReaches(l, op, k);
      Refused(l, LeftLevel(op), Spaced(Symbol(op)) + u, k);
    }
  }

  lemma {:induction false} RefusedRest(op: BinaryOp, l: Expr, r: Expr, s: string, k: nat)
    requires Plain(r) && k <= Bind(op) && (Tangled(op, l) || Tangled(op, r) || !Clear(r))
    ensures Rest(l, Spaced(Symbol(op)) + (Text(r, RightLevel(op)) + s), k, BarAfter(l, LeftLevel(op))) == None
    decreases r, 6
  {
    hide *;
    LeftBar(l, op);
    RestOperator(l, op, Text(r, RightLevel(op)) + s, k, BarAfter(l, LeftLevel(op)));
    if Tangled(op, r) {
      RefusedRight(op, l, r, s, k);
    } else if !Tangled(op, l) {
      RightReaches(r, op);
      Refused(r, RightLevel(op), s, RightBind(op));
    }
  }

  // The right operand is read up to the spaceship, which may not follow the equality.
  lemma {:induction false} RefusedRight(op: BinaryOp, l: Expr, r: Expr, s: string, k: nat)
    requires Tangled(op, r) && Plain(r) && k <= Bind(op)
    ensures match Parse(Text(r, RightLevel(op)) + s, RightBind(op))
      case None => true
      case Some((x, v)) => Rest(Binary(op, l, x), v, k, BarredBy(op)) == None
    decreases r, 5
  {
    hide *;
    TangledIs(op, r);
    TangledBinds(op);
    PlainParts(r);
    TextIs(r, 171);
    BodyIs(r);
    var a, u := r.l, Text(r.r, RightLevel(Spaceship)) + s;
    var v := Spaced(Symbol(Spaceship)) + u;
    BinaryJoined(Text(a, LeftLevel(Spaceship)), Spaced(Symbol(Spaceship)), Text(r.r, RightLevel(Spaceship)), s);
    LeftPlace(Spaceship);
    ReachesMost(a, 181, 11);
    if Clear(a) {
      LeftOperandEnds(a, Spaceship);
      OperatorStops(Spaceship, u, Edge(a, 181));
      ReadBack(a, 181, v, 11);
      RestOperator(a, Spaceship, u, 11, BarAfter(a, 181));
      RestOperator(Binary(op, l, a), Spaceship, u, k, BarredBy(op));
    } else {
      Refused(a, 181, v, 11);
    }
  }

  lemma TangledBinds(op: BinaryOp)
    requires op != Spaceship && Bind(op) == 10
    ensures RightBind(op) == 11 && RightLevel(op) == 171 && BarredBy(op) == Bar(10)
    ensures Bind(Spaceship) == 10 && LeftLevel(Spaceship) == 181 && Level(Spaceship) == 180
    ensures SideOf(Between(Spaceship)) == Neither
  {
    BindFacts(op);
    BindFacts(Spaceship);
    SameSide(op, Spaceship);
    LevelRank(op);
    LevelRank(Spaceship);
    hide SideOf, Bind, Level, LeftLevel, RightLevel, Printed;
  }

  lemma {:induction false} RefusedCondition(c: Expr, w: string, u: string, k: nat)
    requires Plain(c) && !Clear(c) && k <= CONDITIONAL
    ensures Parse(Text(c, 100) + (Spaced(w) + u), k) == None
    decreases c, 5
  {
    hide *;
    OtherPlaces(Print);
    ReachesMost(c, 100, k);
    Refused(c, 100, Spaced(w) + u, k);
  }

  lemma {:induction false} RefusedBranch(f: Expr, s: string)
    requires Plain(f) && !Clear(f)
    ensures Parse(Text(f, 101) + s, CONDITIONAL + 1) == None
    decreases f, 5
  {
    hide *;
    OtherPlaces(Print);
    ReachesMost(f, 101, CONDITIONAL + 1);
    Refused(f, 101, s, CONDITIONAL + 1);
  }

  lemma {:induction false} RefusedShort(c: Expr, f: Expr, s: string, k: nat)
    requires Plain(c) && Plain(f) && !(Clear(c) && Clear(f)) && k <= CONDITIONAL
    ensures Parse(Text(c, 100) + (Spaced("?:") + Text(f, 101)) + s, k) == None
    decreases Conditional(c, None, f), 2
  {
    hide *;
    var u := Text(f, 101) + s;
    BinaryJoined(Text(c, 100), Spaced("?:"), Text(f, 101), s);
    if Clear(c) {
      ReadCondition(c, "?:", QuestionColon, u, k);
      RefusedBranch(f, s);
      RestShort(c, u, k, BarAfter(c, 100));
    } else {
      RefusedCondition(c, "?:", u, k);
    }
  }

  lemma {:induction false} RefusedConditional(c: Expr, t: Expr, f: Expr, s: string, k: nat)
    requires Plain(c) && Plain(t) && Plain(f) && !(Clear(c) && Clear(t) && Clear(f)) && k <= CONDITIONAL
    ensures Parse(Text(c, 100) + (Spaced("?") + (Text(t, 101) + (Spaced(":") + Text(f, 101)))) + s, k) == None
    decreases Conditional(c, Some(t), f), 2
  {
    hide *;
    var v := Text(f, 101) + s;
    var u := Text(t, 101) + (Spaced(":") + v);
    ConditionalJoined(Text(c, 100), Spaced("?"), Text(t, 101), Spaced(":"), Text(f, 101), s);
    if !Clear(c) {
      RefusedCondition(c, "?", u, k);
    } else {
      ReadCondition(c, "?", Question, u, k);
      if !Clear(t) {
        ReachesMost(t, 101, 0);
        Refused(t, 101, Spaced(":") + v, 0);
        RestLongFail(c, u, k, BarAfter(c, 100));
      } else {
        ReadMiddle(t, v);
        RefusedBranch(f, s);
        RestLong(c, t, u, v, k, BarAfter(c, 100));
      }
    }
  }

  lemma {:induction false} RefusedBase(b: Expr, u: string, k: nat)
    requires Plain(b) && !Clear(b) && k <= INDEXING
    ensures Parse(Text(b, 260) + ("[" + u), k) == None
    decreases b, 5
  {
    hide *;
    OtherPlaces(Print);
    ReachesMost(b, 260, k);
    Refused(b, 260, "[" + u, k);
  }

  lemma {:induction false} RefusedIndex(b: Expr, i: Expr, s: string, k: nat)
    requires Plain(b) && Plain(i) && !(Clear(b) && Clear(i)) && k <= INDEXING
    ensures Parse(Text(b, 260) + ("[" + (Text(i, 0) + "]")) + s, k) == None
    decreases Index(b, Some(i)), 2
  {
    hide *;
    var u := Text(i, 0) + ("]" + s);
    BracketsJoined(Text(b, 260), Text(i, 0), s);
    if !Clear(b) {
      RefusedBase(b, u, k);
    } else {
      ReadBase(b, u, k);
      ReachesMost(i, 0, 0);
      Refused(i, 0, "]" + s, 0);
      TextStarts(i, 0);
      assert u[0] == Text(i, 0)[0];
      IndexRest(b, u, k, BarAfter(b, 260));
    }
  }

  // No text begins with a closing bracket.
  lemma {:induction false} TextStarts(e: Expr, q: nat)
    ensures Text(e, q) != "" && Text(e, q)[0] != ']'
    decreases e
  {
    hide *;
    TextIs(e, q);
    BodyIs(e);
    if q <= Height(e) {
      match e {
        case Num(n) => DecimalStarts(n);
        case Var(name) => VarStarts(name);
        case Prefix(op, x) => SymbolStarts(op);
        case Binary(op, l, _) => TextStarts(l, LeftLevel(op));
        case Conditional(c, None, _) => TextStarts(c, 100);
        case Conditional(c, Some(_), _) => TextStarts(c, 100);
        case Index(b, None) => TextStarts(b, 260);
        case Index(b, Some(_)) => TextStarts(b, 260);
      }
    }
  }

  lemma DecimalStarts(n: int)
    ensures Decimal(n) != "" && Decimal(n)[0] != ']'
  {
    if n >= 0 { assert Digit(Digits(n)[0]); }
    hide Digits;
  }

  lemma VarStarts(name: string)
    ensures VarText(name) != "" && VarText(name)[0] != ']'
  {
    hide ValidName;
  }

  lemma SymbolStarts(op: PrefixOp)
    ensures PrefixSymbol(op) != "" && PrefixSymbol(op)[0] != ']'
  {}

  lemma UnclearParts(e: Expr)
    requires !Clear(e)
    ensures match e
      case Num(_) => false
      case Var(_) => false
      case Prefix(_, x) => !Clear(x)
      case Binary(op, l, r) => Tangled(op, l) || Tangled(op, r) || !Clear(l) || !Clear(r)
      case Conditional(c, None, f) => !(Clear(c) && Clear(f))
      case Conditional(c, Some(t), f) => !(Clear(c) && Clear(t) && Clear(f))
      case Index(b, None) => !Clear(b)
      case Index(b, Some(i)) => !(Clear(b) && Clear(i))
  {}

  /** Parsing the export of an expression by the grammar's own precedences gives the expression back, exactly when it
      holds no negative literal, every variable name is one, and no operand of an equality is a spaceship. */
  lemma RoundTrip(e: Expr)
    ensures Parse(Text(e, 0), 0) == Some((e, "")) <==> Plain(e) && Clear(e)
  {
    hide *;
    assert Text(e, 0) + "" == Text(e, 0);
    if Plain(e) {
      ReachesAny(e, 0);
      if Clear(e) {
        NothingStops(Edge(e, 0));
        NothingStops(0);
        ReadBack(e, 0, "", 0);
        RestStops(e, "", 0, BarAfter(e, 0));
      } else {
        Refused(e, 0, "", 0);
      }
    }
  }

  lemma NothingStops(k: nat)
    ensures Stops("", k)
  {}

  /** The grammar does not let an equality and the spaceship follow one another, so this export is not an expression. */
  lemma SpaceshipRefused()
    ensures var e := Binary(Equal, Binary(Spaceship, Num(1), Num(2)), Num(3));
      Text(e, 0) == "1" + (" <=> " + "2") + (" == " + "3") && Parse(Text(e, 0), 0) == None
  {
    hide *;
    var inner := Binary(Spaceship, Num(1), Num(2));
    var e := Binary(Equal, inner, Num(3));
    SmallTexts();
    OneTangled(e, inner);
    ReachesAny(e, 0);
    Refused(e, 0, "", 0);
    assert Text(e, 0) + "" == Text(e, 0);
    TextIs(inner, 171);
    BodyIs(inner);
    TextIs(e, 0);
    BodyIs(e);
  }

  lemma OneTangled(e: Expr, inner: Expr)
    requires inner == Binary(Spaceship, Num(1), Num(2)) && e == Binary(Equal, inner, Num(3))
    ensures Plain(e) && !Clear(e)
  {}

  lemma SmallTexts()
    ensures Text(Num(1), 181) == "1" && Text(Num(2), 181) == "2" && Text(Num(3), 171) == "3"
    ensures Level(Spaceship) == 180 && LeftLevel(Spaceship) == RightLevel(Spaceship) == 181
    ensures LeftLevel(Equal) == RightLevel(Equal) == 171 && Level(Equal) == 170
    ensures Spaced(Symbol(Spaceship)) == " <=> " && Spaced(Symbol(Equal)) == " == "
  {
    assert Digits(1) == "1" && Digits(2) == "2" && Digits(3) == "3";
  }

  // ---- where parentheses are printed ----

  // The places of an operand.
  datatype Position =
    | LeftOf(op: BinaryOp) | RightOf(op: BinaryOp) | Under(pop: PrefixOp)
    | Condition | Middle | Otherwise | Base | Inside

  function PrintedAt(pos: Position): nat
  {
    match pos
    case LeftOf(op) => LeftLevel(op)
    case RightOf(op) => RightLevel(op)
    case Under(op) => OperandLevel(op)
    case Condition => 100
    case Middle => 101
    case Otherwise => 101
    case Base => 260
    case Inside => 0
  }

  // The operator of an expression.
  function Head(e: Expr): Option<Token>
  {
    match e
    case Prefix(op, _) => Some(Before(op))
    case Binary(op, _, _) => Some(Between(op))
    case Conditional(_, _, _) => Some(Asking)
    case _ => None
  }

  // By the groups of the grammar, an operand in this place with operator t wants parentheses: it is looser, or in the
  // same group on the side on which that does not associate.
  predicate Looser(t: Token, pos: Position)
  {
    match pos
    case LeftOf(op) => Rank(t) < Bind(op) || (Rank(t) == Bind(op) && SideOf(Between(op)) != LeftSide)
    case RightOf(op) => Rank(t) < Bind(op) || (Rank(t) == Bind(op) && SideOf(Between(op)) != RightSide)
    case Under(op) => Rank(t) < OperandBind(op)
    case Condition => Rank(t) < CONDITIONAL
    case Otherwise => Rank(t) <= CONDITIONAL
    case Base => true
    case _ => false
  }

  predicate Missing(t: Token, pos: Position)
  {
    t == Between(Spaceship) && (pos.LeftOf? || pos.RightOf?) && pos.op in {Equal, NotEqual, Identical, NotIdentical}
  }

  // Parentheses that the grammar does not ask for: around a comparison beside a spaceship, a prefix operator under
  // another, and a loose operator between question mark and colon.
  predicate Spare(t: Token, pos: Position)
  {
    match pos
    case LeftOf(op) => op == Spaceship && Rank(t) == Bind(Smaller)
    case RightOf(op) => op == Spaceship && Rank(t) == Bind(Smaller)
    case Under(op) => t.Before? && (t.pop == Print <==> op == Print)
    case Middle => Rank(t) <= CONDITIONAL
    case _ => false
  }

  /** Parentheses stand around an operand exactly if the groups of the grammar want them, but for the spaceship under an
      equality, and for three kinds of spare ones. */
  lemma Parenthesised(e: Expr, pos: Position)
    ensures Head(e) == None ==> Text(e, PrintedAt(pos)) == Body(e)
    ensures forall t :: Head(e) == Some(t) ==>
      (Text(e, PrintedAt(pos)) ==
       if (Looser(t, pos) && !Missing(t, pos)) || Spare(t, pos) then "(" + Body(e) + ")" else Body(e))
  {
    hide *;
    TextIs(e, PrintedAt(pos));
    HeadIs(e);
    PositionIs(pos);
    match pos {
      case LeftOf(op) => LevelRank(op);
      case RightOf(op) => LevelRank(op);
      case Under(op) => PrefixRank(op);
      case _ =>
    }
    if Head(e).Some? { Wraps(Head(e).value, pos); }
  }

  // The priority of an operator.
  function TokenLevel(t: Token): nat
  {
    match t
    case Between(op) => Level(op)
    case Before(op) => PrefixLevel(op)
    case Asking => TERNARY
  }

  lemma HeadIs(e: Expr)
    ensures Head(e).Some? ==> Height(e) == TokenLevel(Head(e).value)
    ensures Head(e) == None ==> Height(e) == 1000
  {}

  lemma PositionIs(pos: Position)
    ensures PrintedAt(pos) == match pos
      case LeftOf(op) => LeftLevel(op)
      case RightOf(op) => RightLevel(op)
      case Under(op) => OperandLevel(op)
      case Condition => 100
      case Middle => 101
      case Otherwise => 101
      case Base => 260
      case Inside => 0
  {}

  // The priorities tell what the groups tell.
  lemma Wraps(t: Token, pos: Position)
    ensures PrintedAt(pos) > TokenLevel(t) <==> (Looser(t, pos) && !Missing(t, pos)) || Spare(t, pos)
  {
    hide *;
    PositionIs(pos);
    TokenRank(t);
    PrintedGrows(Rank(t), 3);
    PrintedGrows(3, Rank(t));
    BindFacts(Add);
    WrapIs(t, pos);
    match pos {
      case LeftOf(op) => WrapsBeside(t, op);
      case RightOf(op) => WrapsBeside(t, op);
      case Under(op) =>
        PrefixRank(op);
        PrintedGrows(Rank(t), OperandBind(op));
        PrintedGrows(OperandBind(op), Rank(t));
        PrintedGrows(11, OperandBind(op));
        PrefixesApart(t, op);
      case _ =>
    }
  }

  lemma WrapsBeside(t: Token, op: BinaryOp)
    ensures (LeftLevel(op) > TokenLevel(t) <==>
      (((Rank(t) < Bind(op) || (Rank(t) == Bind(op) && SideOf(Between(op)) != LeftSide)) &&
        !(t == Between(Spaceship) && Bind(op) == 10 && op != Spaceship)) || (op == Spaceship && Rank(t) == 11)))
    ensures (RightLevel(op) > TokenLevel(t) <==>
      (((Rank(t) < Bind(op) || (Rank(t) == Bind(op) && SideOf(Between(op)) != RightSide)) &&
        !(t == Between(Spaceship) && Bind(op) == 10 && op != Spaceship)) || (op == Spaceship && Rank(t) == 11)))
  {
    hide *;
    LevelRank(op);
    BindFacts(op);
    TokenRank(t);
    PrintedGrows(Rank(t), Bind(op));
    PrintedGrows(Bind(op), Rank(t));
    PrintedGrows(11, Bind(op));
    PrintedGrows(Bind(op), 11);
    PrintedGrows(11, Rank(t));
    PrintedGrows(Rank(t), 11);
  }

  lemma TokenRank(t: Token)
    ensures TokenLevel(t) == Printed(if t == Between(Spaceship) then 11 else Rank(t)) && Rank(t) < INDEXING
    ensures t == Between(Spaceship) ==> Rank(t) == 10
    ensures TokenLevel(t) <= 250
    ensures t == Asking <==> Rank(t) == 3
    ensures t.Before? <==> Rank(t) in {1, 15, 16}
    ensures t.Before? ==> (t.pop == Print <==> Rank(t) == 1)
  {
    match t {
      case Between(op) => LevelRank(op); BindFacts(op); hide Level, Printed, SideOf;
      case Before(op) => PrefixRank(op); hide Printed;
      case Asking =>
    }
  }

  lemma PrefixesApart(t: Token, op: PrefixOp)
    ensures OperandBind(op) == 1 <==> op == Print
    ensures t.Before? ==> Rank(t) == OperandBind(t.pop)
    ensures Printed(1) == 60 && Printed(15) == Printed(16) == 240
  {}

  lemma WrapIs(t: Token, pos: Position)
    ensures Looser(t, pos) <==> match pos
      case LeftOf(op) => Rank(t) < Bind(op) || (Rank(t) == Bind(op) && SideOf(Between(op)) != LeftSide)
      case RightOf(op) => Rank(t) < Bind(op) || (Rank(t) == Bind(op) && SideOf(Between(op)) != RightSide)
      case Under(op) => Rank(t) < OperandBind(op)
      case Condition => Rank(t) < 3
      case Otherwise => Rank(t) <= 3
      case Base => true
      case _ => false
    ensures Missing(t, pos) <==>
      t == Between(Spaceship) && (pos.LeftOf? || pos.RightOf?) && Bind(pos.op) == 10 && pos.op != Spaceship
    ensures Spare(t, pos) <==> match pos
      case LeftOf(op) => op == Spaceship && Rank(t) == 11
      case RightOf(op) => op == Spaceship && Rank(t) == 11
      case Under(op) => t.Before? && (t.pop == Print <==> op == Print)
      case Middle => Rank(t) <= 3
      case _ => false
  {
    if pos.LeftOf? || pos.RightOf? { Equalities(pos.op); }
    hide SideOf;
    BindIs(Smaller);
    hide Bind, Rank;
  }

  lemma Equalities(op: BinaryOp)
    ensures op in {Equal, NotEqual, Identical, NotIdentical} <==> Bind(op) == 10 && op != Spaceship
  {}

  lemma LiteralTexts()
    ensures Text(Num(-5), 251) == "-5" && Text(Num(5), 251) == "5" && Text(Num(2), 250) == "2"
  {
    assert Digits(5) == "5" && Digits(2) == "2";
  }

  lemma PowerText(n: int, t: string, q: nat)
    requires Text(Num(n), 251) == t && Text(Num(2), 250) == "2" && q <= 250
    ensures Text(Binary(Pow, Num(n), Num(2)), q) == t + (" ** " + "2")
  {
    hide Digits, Decimal;
    TextIs(Binary(Pow, Num(n), Num(2)), q);
    assert Spaced(Symbol(Pow)) == " ** ";
  }

  lemma NegatedText(x: Expr, t: string)
    requires Text(x, 241) == t
    ensures Text(Prefix(UnaryMinus, x), 0) == "-" + t
  {
    hide Text;
    TextIs(Prefix(UnaryMinus, x), 0);
    BodyIs(Prefix(UnaryMinus, x));
  }

  /** Negative literals are printed without regard to priority: two expressions have the same text. */
  lemma NegativeLiteralsCollide()
    ensures var power := Binary(Pow, Num(-5), Num(2));
      var negated := Prefix(UnaryMinus, Binary(Pow, Num(5), Num(2)));
      Text(power, 0) == Text(negated, 0) && power != negated
  {
    hide *;
    LiteralTexts();
    PowerText(-5, "-5", 0);
    PowerText(5, "5", 241);
    NegatedText(Binary(Pow, Num(5), Num(2)), "5" + (" ** " + "2"));
    assert "-5" + (" ** " + "2") == "-" + ("5" + (" ** " + "2"));
  }
}
