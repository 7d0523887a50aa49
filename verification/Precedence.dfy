/** Which operators of PHP bind tighter: the declarations of zend_language_parser.y, as far as they are about the
    operators here. */
module Precedence {
  datatype BinaryOp =
    | Assign | AssignRef | AssignAdd | AssignSub | AssignMul | AssignDiv | AssignMod | AssignSl | AssignSr
    | AssignConcat | AssignBwOr | AssignBwAnd | AssignBwXor | AssignPow
    | Add | Sub | Mul | Div | Mod | Sl | Sr | Concat | BwOr | BwAnd | BwXor
    | Identical | NotIdentical | Equal | NotEqual | Smaller | SmallerOrEqual | Pow | BoolXor | Spaceship
    | Greater | GreaterOrEqual | And | Or | Coalesce

  datatype PrefixOp = UnaryPlus | UnaryMinus | BoolNot | BwNot | Silence | Print

  // An operator in its place: between two operands, before one, or the question mark of a conditional.
  datatype Token = Between(op: BinaryOp) | Before(pop: PrefixOp) | Asking

  datatype Side = LeftSide | RightSide | Neither

  datatype Group = Group(side: Side, tokens: set<Token>)

  // The groups from the loosest to the tightest. Assignments are declared as associating on the left; but only a
  // variable can stand left of one, so they associate on the right.
  function Groups(): seq<Group>
  {
    [
      Group(LeftSide, {Between(BoolXor)}),
      Group(RightSide, {Before(Print)}),
      Group(RightSide, {Between(Assign), Between(AssignRef), Between(AssignAdd), Between(AssignSub), Between(AssignMul),
        Between(AssignDiv), Between(AssignConcat), Between(AssignMod), Between(AssignBwAnd), Between(AssignBwOr),
        Between(AssignBwXor), Between(AssignSl), Between(AssignSr), Between(AssignPow)}),
      Group(LeftSide, {Asking}),
      Group(RightSide, {Between(Coalesce)}),
      Group(LeftSide, {Between(Or)}),
      Group(LeftSide, {Between(And)}),
      Group(LeftSide, {Between(BwOr)}),
      Group(LeftSide, {Between(BwXor)}),
      Group(LeftSide, {Between(BwAnd)}),
      Group(Neither, {Between(Equal), Between(NotEqual), Between(Identical), Between(NotIdentical),
        Between(Spaceship)}),
      Group(Neither, {Between(Smaller), Between(SmallerOrEqual), Between(Greater), Between(GreaterOrEqual)}),
      Group(LeftSide, {Between(Sl), Between(Sr)}),
      Group(LeftSide, {Between(Add), Between(Sub), Between(Concat)}),
      Group(LeftSide, {Between(Mul), Between(Div), Between(Mod)}),
      Group(RightSide, {Before(BoolNot)}),
      Group(RightSide, {Before(BwNot), Before(Silence), Before(UnaryPlus), Before(UnaryMinus)}),
      Group(RightSide, {Between(Pow)})
    ]
  }

  // An index is tighter than all of them.
  const INDEXING: nat := 18

  // The place of an operator in the list.
  function Rank(t: Token): (r: nat)
    ensures r < INDEXING
  {
    match t
    case Asking => 3
    case Before(Print) => 1
    case Before(BoolNot) => 15
    case Before(_) => 16
    case Between(BoolXor) => 0
    case Between(Coalesce) => 4
    case Between(Or) => 5
    case Between(And) => 6
    case Between(BwOr) => 7
    case Between(BwXor) => 8
    case Between(BwAnd) => 9
    case Between(Sl) => 12 case Between(Sr) => 12
    case Between(Pow) => 17
    case Between(Equal) => 10 case Between(NotEqual) => 10 case Between(Identical) => 10
    case Between(NotIdentical) => 10 case Between(Spaceship) => 10
    case Between(Smaller) => 11 case Between(SmallerOrEqual) => 11
    case Between(Greater) => 11 case Between(GreaterOrEqual) => 11
    case Between(Add) => 13 case Between(Sub) => 13 case Between(Concat) => 13
    case Between(Mul) => 14 case Between(Div) => 14 case Between(Mod) => 14
    case Between(_) => 2
  }

  function SideOf(t: Token): Side
  {
    match Rank(t)
    case 10 => Neither case 11 => Neither
    case 1 => RightSide case 2 => RightSide case 4 => RightSide
    case 15 => RightSide case 16 => RightSide case 17 => RightSide
    case _ => LeftSide
  }

  /** Every operator is in the group of its rank, and associates as the group does. */
  lemma InGroups(t: Token)
    ensures |Groups()| == INDEXING && t in Groups()[Rank(t)].tokens && SideOf(t) == Groups()[Rank(t)].side
  {
    InGroup(t);
    GroupSide(Rank(t));
    hide Rank, Groups;
  }

  lemma InGroup(t: Token)
    ensures |Groups()| == INDEXING && t in Groups()[Rank(t)].tokens
  {}

  lemma GroupSide(r: nat)
    requires r < INDEXING
    ensures |Groups()| == INDEXING
    ensures Groups()[r].side == match r
      case 10 => Neither case 11 => Neither
      case 1 => RightSide case 2 => RightSide case 4 => RightSide
      case 15 => RightSide case 16 => RightSide case 17 => RightSide
      case _ => LeftSide
  {}

  function Bind(op: BinaryOp): nat { Rank(Between(op)) }

  // How tight an operator must be to be taken into the right operand of another.
  function RightBind(op: BinaryOp): nat
  {
    if SideOf(Between(op)) == RightSide then Bind(op) else Bind(op) + 1
  }

  function OperandBind(op: PrefixOp): nat { Rank(Before(op)) }

  const CONDITIONAL: nat := Rank(Asking)

  // The group that may not follow an operator that associates on neither side.
  datatype Barred = Free | Bar(group: nat)

  function BarredBy(op: BinaryOp): Barred
  {
    if SideOf(Between(op)) == Neither then Bar(Bind(op)) else Free
  }
}
