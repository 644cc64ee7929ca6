/** JSON texts after RFC 8259, said without a parser: a syntax tree, the text that it writes, and the value
  * that it means. */
module WireSyntax {
  import opened Prelude
  import opened Text
  import opened WireValue

  // ---------------------------------------------------------------- white space

  /** Section 2: any number of the four blanks. */
  predicate Blank(s: Str) {
    forall i :: 0 <= i < |s| ==> s[i] == 0x20 || s[i] == 0x09 || s[i] == 0x0A || s[i] == 0x0D
  }

  // ---------------------------------------------------------------- strings

  type Nibble = n: int | 0 <= n < 16

  /** A hexadecimal digit in either case. */
  datatype Hex = Hex(value: Nibble, upper: bool) {
    function Char(): int {
      if value < 10 then 0x30 + value else (if upper then 0x41 else 0x61) + value - 10
    }
  }

  /** Four hexadecimal digits. */
  datatype Quad = Quad(a: Hex, b: Hex, c: Hex, d: Hex) {
    function Chars(): Str {
      [a.Char(), b.Char(), c.Char(), d.Char()]
    }

    function Number(): (n: int)
      ensures 0 <= n < 0x10000
    {
      a.value * 4096 + b.value * 256 + c.value * 16 + d.value
    }
  }

  type Letter = i: nat | i < 8

  /** What may follow a backslash, and the character that it means there. */
  const LETTERS: Str := [0x22, 0x5C, 0x2F, 'b' as int, 'f' as int, 'n' as int, 'r' as int, 't' as int]
  const NAMED: Str := [0x22, 0x5C, 0x2F, 0x08, 0x0C, 0x0A, 0x0D, 0x09]

  /** Section 7: a character is written as it is, as an escape of one letter, as a code unit, or, above the
    * basic plane, as a pair of surrogates. */
  datatype Piece =
    | Plain(c: int)
    | Short(letter: Letter)
    | Unit(quad: Quad)
    | Pair(c: int, high: Quad, low: Quad)
  {
    predicate Correct() {
      match this
      case Plain(c) => c >= 0x20 && c != 0x22 && c != 0x5C
      case Short(_) => true
      case Unit(quad) => !(0xD800 <= quad.Number() < 0xE000)
      case Pair(c, high, low) =>
        && 0x10000 <= c < 0x110000
        && high.Number() == 0xD800 + (c - 0x10000) / 1024
        && low.Number() == 0xDC00 + (c - 0x10000) % 1024
    }

    function Written(): Str
    {
      match this
      case Plain(c) => [c]
      case Short(i) => [0x5C, LETTERS[i]]
      case Unit(quad) => [0x5C, 'u' as int] + quad.Chars()
      case Pair(_, high, low) => [0x5C, 'u' as int] + high.Chars() + [0x5C, 'u' as int] + low.Chars()
    }

    function Meaning(): int
    {
      match this
      case Plain(c) => c
      case Short(i) => NAMED[i]
      case Unit(quad) => quad.Number()
      case Pair(c, _, _) => c
    }
  }

  predicate AllCorrect(ps: seq<Piece>) {
    forall i :: 0 <= i < |ps| ==> ps[i].Correct()
  }

  function PiecesText(ps: seq<Piece>): Str
  {
    if ps == [] then [] else ps[0].Written() + PiecesText(ps[1..])
  }

  function Said(ps: seq<Piece>): (s: Str)
    ensures |s| == |ps|
  {
    if ps == [] then [] else [ps[0].Meaning()] + Said(ps[1..])
  }

  function StringText(ps: seq<Piece>): Str
  {
    [0x22] + PiecesText(ps) + [0x22]
  }

  // ---------------------------------------------------------------- numbers

  /** Section 6: a sign, an integer part without a leading zero, and perhaps a fraction and an exponent. */
  datatype Numeral = Numeral(minus: bool, whole: Str, fraction: Option<Str>, exponent: Option<Exponent>) {
    predicate Correct() {
      && SomeDigits(whole) && (whole[0] == 0x30 ==> |whole| == 1)
      && (fraction.Some? ==> SomeDigits(fraction.value))
      && (exponent.Some? ==> SomeDigits(exponent.value.digits))
    }

    function SignText(): Str {
      if minus then [0x2D] else []
    }

    function FractionText(): Str {
      if fraction.Some? then [0x2E] + fraction.value else []
    }

    function ExponentText(): Str {
      if exponent.Some? then exponent.value.Written() else []
    }

    function Written(): Str {
      SignText() + whole + FractionText() + ExponentText()
    }
  }

  datatype Sign = Unsigned | Plus | Minus

  datatype Exponent = Exponent(capital: bool, sign: Sign, digits: Str) {
    function Written(): Str {
      [if capital then 0x45 else 0x65]
      + (match sign case Unsigned => [] case Plus => [0x2B] case Minus => [0x2D])
      + digits
    }
  }

  /** At least one digit. */
  predicate SomeDigits(s: Str) {
    s != [] && forall i :: 0 <= i < |s| ==> 0x30 <= s[i] <= 0x39
  }

  // ---------------------------------------------------------------- values

  /** A value without the white space around it. */
  datatype Tree =
    | Nothing
    | Truth(b: bool)
    | Figure(numeral: Numeral)
    | Chars(pieces: seq<Piece>)
    | List(blank: Str, items: seq<Item>)
    | Record(blank: Str, members: seq<Member>)

  /** A value with the white space around it. */
  datatype Item = Item(before: Str, tree: Tree, after: Str)

  datatype Member = Member(before: Str, key: seq<Piece>, between: Str, item: Item)

  predicate Correct(t: Tree) {
    match t
    case Nothing => true
    case Truth(_) => true
    case Figure(numeral) => numeral.Correct()
    case Chars(ps) => AllCorrect(ps)
    case List(blank, items) => Blank(blank) && ItemsCorrect(items)
    case Record(blank, ms) => Blank(blank) && MembersCorrect(ms)
  }

  predicate ItemCorrect(i: Item) {
    Blank(i.before) && Correct(i.tree) && Blank(i.after)
  }

  predicate ItemsCorrect(items: seq<Item>) {
    items == [] || (ItemCorrect(items[0]) && ItemsCorrect(items[1..]))
  }

  predicate MemberCorrect(m: Member) {
    Blank(m.before) && AllCorrect(m.key) && Blank(m.between) && ItemCorrect(m.item)
  }

  predicate MembersCorrect(ms: seq<Member>) {
    ms == [] || (MemberCorrect(ms[0]) && MembersCorrect(ms[1..]))
  }

  // ---------------------------------------------------------------- the text

  function Written(t: Tree): Str
  {
    match t
    case Nothing => Codes("null")
    case Truth(b) => if b then Codes("true") else Codes("false")
    case Figure(numeral) => numeral.Written()
    case Chars(ps) => StringText(ps)
    case List(blank, items) => [0x5B] + blank + JoinedItems(items) + [0x5D]
    case Record(blank, ms) => [0x7B] + blank + JoinedMembers(ms) + [0x7D]
  }

  function ItemText(i: Item): Str
  {
    i.before + Written(i.tree) + i.after
  }

  function JoinedItems(items: seq<Item>): Str
  {
    if items == [] then []
    else ItemText(items[0]) + (if |items| == 1 then [] else [0x2C] + JoinedItems(items[1..]))
  }

  function MemberText(m: Member): Str
  {
    m.before + StringText(m.key) + m.between + [0x3A] + ItemText(m.item)
  }

  function JoinedMembers(ms: seq<Member>): Str
  {
    if ms == [] then []
    else MemberText(ms[0]) + (if |ms| == 1 then [] else [0x2C] + JoinedMembers(ms[1..]))
  }

  // ---------------------------------------------------------------- the value

  /** Of members with the same key the last one counts. */
  function Meaning(t: Tree): Value
  {
    match t
    case Nothing => Null
    case Truth(b) => Bool(b)
    case Figure(numeral) => Value.Number(numeral.Written())
    case Chars(ps) => Value.Text(Said(ps))
    case List(_, items) => Array(Meanings(items))
    case Record(_, ms) => Object(Bound(ms))
  }

  function Meanings(items: seq<Item>): seq<Value>
  {
    if items == [] then [] else [Meaning(items[0].tree)] + Meanings(items[1..])
  }

  function Bound(ms: seq<Member>): map<Str, Value>
  {
    if ms == [] then map[] else map[Said(ms[0].key) := Meaning(ms[0].item.tree)] + Bound(ms[1..])
  }

  // ---------------------------------------------------------------- the limits

  /** How many values are written, each one of a repeated key included. */
  function Count(t: Tree): (n: nat)
    ensures n >= 1
  {
    match t
    case List(_, items) => 1 + CountItems(items)
    case Record(_, ms) => 1 + CountMembers(ms)
    case _ => 1
  }

  function CountItems(items: seq<Item>): nat {
    if items == [] then 0 else Count(items[0].tree) + CountItems(items[1..])
  }

  function CountMembers(ms: seq<Member>): nat {
    if ms == [] then 0 else Count(ms[0].item.tree) + CountMembers(ms[1..])
  }

  /** No value is written deeper than the limit, where t itself stands at the given depth, and no string is
    * longer than its limit. */
  predicate Within(t: Tree, depth: nat, limits: Limits) {
    && depth <= limits.maxDepth
    && match t
       case Chars(ps) => |ps| <= limits.maxString
       case List(_, items) => ItemsWithin(items, depth + 1, limits)
       case Record(_, ms) => MembersWithin(ms, depth + 1, limits)
       case _ => true
  }

  predicate ItemsWithin(items: seq<Item>, depth: nat, limits: Limits) {
    items == [] || (Within(items[0].tree, depth, limits) && ItemsWithin(items[1..], depth, limits))
  }

  predicate MembersWithin(ms: seq<Member>, depth: nat, limits: Limits) {
    ms == [] || (|ms[0].key| <= limits.maxString && Within(ms[0].item.tree, depth, limits)
                 && MembersWithin(ms[1..], depth, limits))
  }

  /** A document writes this text, means this value, and is within the limits. */
  ghost predicate Spells(d: Item, text: Str, v: Value, limits: Limits) {
    && ItemCorrect(d) && ItemText(d) == text && Meaning(d.tree) == v
    && Count(d.tree) <= limits.maxItems && Within(d.tree, 0, limits)
  }
}
