/** Printing as zend_ast.c does it: text appended to a growing string. */
module AstWriter {
  import opened Wrappers
  import opened Precedence
  import opened AstExport

  // smart_str
  class SmartStr {
    var text: string

    constructor ()
      ensures text == ""
    {
      text := "";
    }

    method AppendC(c: char)
      modifies this
      ensures text == old(text) + [c]
    {
      text := text + [c];
    }

    method Appends(s: string)
      modifies this
      ensures text == old(text) + s
    {
      text := text + s;
    }
  }

  /** zend_ast_export_ex on expressions: the text of e at the given priority is appended. */
  method ExportEx(str: SmartStr, e: Expr, priority: nat)
    requires priority <= 1000
    modifies str
    ensures str.text == old(str.text) + Text(e, priority)
    decreases e, 1
  {
    hide *;
    TextIs(e, priority);
    BodyIs(e);
    match e {
      case Num(n) => str.Appends(Decimal(n));
      case Var(name) => ExportVar(str, name);
      case Prefix(op, x) => ExportPrefix(str, e, PrefixSymbol(op), PrefixLevel(op), OperandLevel(op), priority);
      case Binary(op, l, r) =>
        ExportBinary(str, e, Spaced(Symbol(op)), Level(op), LeftLevel(op), RightLevel(op), priority);
      case Conditional(c, t, f) => ExportConditional(str, e, priority);
      case Index(b, i) => ExportIndex(str, e);
    }
  }

  // The end of zend_ast_export_ex labelled prefix_op
  method ExportPrefix(str: SmartStr, e: Expr, op: string, p: nat, pl: nat, priority: nat)
    requires e.Prefix? && op == PrefixSymbol(e.pop) && p == PrefixLevel(e.pop) && pl == OperandLevel(e.pop)
    modifies str
    ensures str.text == old(str.text) + Text(e, priority)
    decreases e, 0
  {
    hide *;
    TextIs(e, priority);
    BodyIs(e);
    Levels(e.pop);
    ghost var t := Text(e.e, pl);
    if priority > p { str.AppendC('('); }
    str.Appends(op);
    ExportEx(str, e.e, pl);
    if priority > p {
      str.AppendC(')');
      assert str.text == old(str.text) + ("(" + (op + t) + ")");
    } else {
      assert str.text == old(str.text) + (op + t);
    }
  }

  // The end of zend_ast_export_ex labelled binary_op
  method ExportBinary(str: SmartStr, e: Expr, op: string, p: nat, pl: nat, pr: nat, priority: nat)
    requires e.Binary? && op == Spaced(Symbol(e.op)) && p == Level(e.op) && pl == LeftLevel(e.op)
      && pr == RightLevel(e.op)
    modifies str
    ensures str.text == old(str.text) + Text(e, priority)
    decreases e, 0
  {
    hide *;
    ghost var before := str.text;
    TextIs(e, priority);
    BodyIs(e);
    LevelRank(e.op);
    ghost var tl, tr := Text(e.l, pl), Text(e.r, pr);
    if priority > p { str.AppendC('('); }
    ExportEx(str, e.l, pl);
    str.Appends(op);
    ExportEx(str, e.r, pr);
    if priority > p { str.AppendC(')'); }
    BinaryAppended(before, tl, op, tr);
  }

  lemma BinaryAppended(before: string, tl: string, op: string, tr: string)
    ensures before + tl + op + tr == before + (tl + (op + tr))
    ensures before + ['('] + tl + op + tr + [')'] == before + ("(" + (tl + (op + tr)) + ")")
  {}

  lemma LongAppended(before: string, a: string, b: string, c: string, d: string, e: string)
    ensures before + a + b + c + d + e == before + (a + (b + (c + (d + e))))
  {}

  lemma Enclosed(before: string, body: string)
    ensures before + ['('] + body + [')'] == before + ("(" + body + ")")
  {}

  method ExportConditional(str: SmartStr, e: Expr, priority: nat)
    requires e.Conditional?
    modifies str
    ensures str.text == old(str.text) + Text(e, priority)
    decreases e, 0
  {
    hide *;
    TextIs(e, priority);
    BodyIs(e);
    ghost var body := Body(e);
    if priority > 100 { str.AppendC('('); }
    ghost var before, tc, tf := str.text, Text(e.c, 100), Text(e.f, 101);
    ExportEx(str, e.c, 100);
    if e.t.Some? {
      str.Appends(Spaced("?"));
      ExportEx(str, e.t.value, 101);
      str.Appends(Spaced(":"));
    } else {
      str.Appends(Spaced("?:"));
    }
    ExportEx(str, e.f, 101);
    if e.t.Some? { LongAppended(before, tc, Spaced("?"), Text(e.t.value, 101), Spaced(":"), tf); }
    else { BinaryAppended(before, tc, Spaced("?:"), tf); }
    if priority > 100 { str.AppendC(')'); }
    Enclosed(old(str.text), body);
  }

  method ExportIndex(str: SmartStr, e: Expr)
    requires e.Index?
    modifies str
    ensures str.text == old(str.text) + Body(e)
    decreases e, 0
  {
    hide *;
    BodyIs(e);
    ExportEx(str, e.base, 260);
    str.AppendC('[');
    if e.i.Some? { ExportEx(str, e.i.value, 0); }
    str.AppendC(']');
  }

  // zend_ast_export_var
  method ExportVar(str: SmartStr, name: string)
    modifies str
    ensures str.text == old(str.text) + VarText(name)
  {
    str.AppendC('$');
    if ValidName(name) {
      str.Appends(name);
    } else {
      str.AppendC('{');
      str.Appends(name);
      str.AppendC('}');
    }
  }

  lemma Levels(op: PrefixOp)
    ensures PrefixLevel(op) <= 240 && OperandLevel(op) <= 241
  {}
}
