/** Exact JSON values, the limits of a wire document, and its canonical text. */
module WireValue {
  import opened Prelude
  import opened Text
  import opened Utf8

  /** A mapping has no order here: a document compares and prints its members by key. */
  datatype Value =
    | Null
    | Bool(b: bool)
    | Number(token: Str)
    | Text(text: Str)
    | Array(items: seq<Value>)
    | Object(members: map<Str, Value>)

  datatype Limits = Limits(maxBody: nat, maxDepth: nat, maxItems: nat, maxString: nat)

  datatype WireError = Syntax | Limit

  // ---------------------------------------------------------------- number tokens

  predicate Digit(c: int) {
    '0' as int <= c <= '9' as int
  }

  /** Length of the longest run of digits at the start. */
  function DigitRun(s: Str): (n: nat)
    ensures n <= |s|
    ensures forall i :: 0 <= i < n ==> Digit(s[i])
    ensures n < |s| ==> !Digit(s[n])
  {
    if s == [] || !Digit(s[0]) then 0 else 1 + DigitRun(s[1..])
  }

  /** An integer part: 0, or digits that do not start with 0. Returns its length, 0 if there is none. */
  function IntegerPart(s: Str): (n: nat)
    ensures n <= |s|
    ensures forall i :: 0 <= i < n ==> Digit(s[i])
  {
    if s == [] || !Digit(s[0]) then 0 else if s[0] == '0' as int then 1 else DigitRun(s)
  }

  /** Nothing, or a point and at least one digit, or nothing that fits (None). */
  function FractionPart(s: Str): (n: Option<nat>)
    ensures n.Some? ==> n.value <= |s| && forall i :: 0 <= i < n.value ==> NumberChar(s[i])
  {
    if s == [] || s[0] != '.' as int then Some(0)
    else if DigitRun(s[1..]) == 0 then None
    else Some(1 + DigitRun(s[1..]))
  }

  function ExponentPart(s: Str): (n: Option<nat>)
    ensures n.Some? ==> n.value <= |s| && forall i :: 0 <= i < n.value ==> NumberChar(s[i])
  {
    if s == [] || (s[0] != 'e' as int && s[0] != 'E' as int) then Some(0)
    else
      var sign := if |s| > 1 && (s[1] == '+' as int || s[1] == '-' as int) then 2 else 1;
      if DigitRun(s[sign..]) == 0 then None else Some(sign + DigitRun(s[sign..]))
  }

  /** The characters that the parser gathers into a number token. */
  predicate NumberChar(c: int) {
    Digit(c) || c == '-' as int || c == '+' as int || c == '.' as int || c == 'e' as int || c == 'E' as int
  }

  /** -?(0|[1-9][0-9]*)(\.[0-9]+)?([eE][+-]?[0-9]+)? as a whole. */
  predicate IsNumber(t: Str) {
    var a := if t != [] && t[0] == '-' as int then t[1..] else t;
    var n := IntegerPart(a);
    n > 0 &&
    var f := FractionPart(a[n..]);
    f.Some? &&
    var e := ExponentPart(a[n..][f.value..]);
    e.Some? && e.value == |a[n..][f.value..]|
  }

  /** A number token starts like a number and is made of number characters only, so gathering
    * characters greedily finds its end wherever another character follows. */
  lemma NumberShape(t: Str)
    requires IsNumber(t)
    ensures t != [] && (Digit(t[0]) || t[0] == '-' as int)
    ensures forall i :: 0 <= i < |t| ==> NumberChar(t[i])
  {
    var a := if t != [] && t[0] == '-' as int then t[1..] else t;
    UnsignedShape(a);
    forall i | 0 <= i < |t| ensures NumberChar(t[i]) { if t != a && i > 0 { assert t[i] == a[i - 1]; } }
  }

  lemma UnsignedShape(a: Str)
    requires var n := IntegerPart(a);
             && n > 0 && FractionPart(a[n..]).Some?
             && var e := ExponentPart(a[n..][FractionPart(a[n..]).value..]);
                e.Some? && e.value == |a[n..][FractionPart(a[n..]).value..]|
    ensures a != [] && Digit(a[0]) && forall i :: 0 <= i < |a| ==> NumberChar(a[i])
  {
    var n := IntegerPart(a);
    var f := FractionPart(a[n..]).value;
    forall i | 0 <= i < |a| ensures NumberChar(a[i]) {
      if i < n {
      } else if i < n + f {
        assert a[i] == a[n..][i - n];
      } else {
        assert a[i] == a[n..][f..][i - n - f];
      }
    }
  }

  // ---------------------------------------------------------------- sums over maps

  /** The total of a map's values. */
  function Total(m: map<Str, nat>): nat
    decreases |m|
  {
    if m == map[] then 0 else
    var k := Least(m.Keys);
    m[k] + Total(m - {k})
  }

  /** The total can be taken in any order. */
  lemma {:induction false} TotalWithout(m: map<Str, nat>, k: Str)
    requires k in m
    ensures Total(m) == m[k] + Total(m - {k})
    decreases |m|
  {
    var l := Least(m.Keys);
    if k != l {
      TotalWithout(m - {l}, k);
      TotalWithout(m - {k}, l);
      assert m - {l} - {k} == m - {k} - {l};
    }
  }

  /** Setting a key adds at most its value, and removes at most the value it had. */
  lemma TotalUpdate(m: map<Str, nat>, k: Str, n: nat)
    ensures Total(m[k := n]) == Total(m - {k}) + n
    ensures Total(m - {k}) <= Total(m)
  {
    TotalWithout(m[k := n], k);
    assert m[k := n] - {k} == m - {k};
    if k in m { TotalWithout(m, k); } else { assert m - {k} == m; }
  }

  // ---------------------------------------------------------------- measures

  /** How many values a document holds, itself included. */
  function Nodes(v: Value): (n: nat)
    ensures n >= 1
  {
    match v
    case Array(items) => 1 + NodesOfAll(items)
    case Object(m) => 1 + Total(map k | k in m :: Nodes(m[k]))
    case _ => 1
  }

  function NodesOfAll(items: seq<Value>): nat {
    if items == [] then 0 else Nodes(items[0]) + NodesOfAll(items[1..])
  }

  /** No value lies deeper than the limit, where v itself lies at the given depth. */
  predicate DepthFits(v: Value, depth: nat, limits: Limits) {
    && depth <= limits.maxDepth
    && match v
       case Array(items) => forall i | 0 <= i < |items| :: DepthFits(items[i], depth + 1, limits)
       case Object(m) => forall k | k in m :: DepthFits(m[k], depth + 1, limits)
       case _ => true
  }

  predicate StringFits(s: Str, limits: Limits) {
    |s| <= limits.maxString && AllScalar(s)
  }

  /** Strings and keys are scalar and within the limit; number tokens match the number grammar. */
  predicate ContentFits(v: Value, limits: Limits) {
    match v
    case Number(token) => IsNumber(token)
    case Text(s) => StringFits(s, limits)
    case Array(items) => forall i | 0 <= i < |items| :: ContentFits(items[i], limits)
    case Object(m) => forall k | k in m :: StringFits(k, limits) && ContentFits(m[k], limits)
    case _ => true
  }

  // ---------------------------------------------------------------- canonical text

  const QUOTE: int := '"' as int
  const BACKSLASH: int := '\\' as int
  const COMMA: int := ',' as int
  const COLON: int := ':' as int
  const OPEN_BRACE: int := '{' as int
  const CLOSE_BRACE: int := '}' as int
  const OPEN_BRACKET: int := '[' as int
  const CLOSE_BRACKET: int := ']' as int

  function HexDigit(n: int): int
    requires 0 <= n < 16
  {
    if n < 10 then '0' as int + n else 'a' as int + n - 10
  }

  /** How one character is written inside a string. */
  function EscapeChar(c: int): Str {
    if c == QUOTE then [BACKSLASH, QUOTE]
    else if c == BACKSLASH then [BACKSLASH, BACKSLASH]
    else if c == 8 then [BACKSLASH, 'b' as int]
    else if c == 12 then [BACKSLASH, 'f' as int]
    else if c == 10 then [BACKSLASH, 'n' as int]
    else if c == 13 then [BACKSLASH, 'r' as int]
    else if c == 9 then [BACKSLASH, 't' as int]
    else if 0 <= c < 32 then
      [BACKSLASH, 'u' as int, '0' as int, '0' as int, HexDigit(c / 16), HexDigit(c % 16)]
    else [c]
  }

  function EscapeText(s: Str): Str {
    if s == [] then [] else EscapeChar(s[0]) + EscapeText(s[1..])
  }

  function Quoted(s: Str): Str {
    [QUOTE] + EscapeText(s) + [QUOTE]
  }

  function Literal(v: Value): Str
    requires v.Null? || v.Bool?
  {
    if v.Null? then Codes("null") else if v.b then Codes("true") else Codes("false")
  }

  /** The canonical text of a value: no white space, members in the order of their keys. */
  function Canon(v: Value): Str
    decreases v, 3
  {
    match v
    case Number(token) => token
    case Text(s) => Quoted(s)
    case Array(items) => [OPEN_BRACKET] + CanonItems(items) + [CLOSE_BRACKET]
    case Object(m) => [OPEN_BRACE] + CanonMembers(v, Sorted(m.Keys)) + [CLOSE_BRACE]
    case _ => Literal(v)
  }

  function CanonItems(items: seq<Value>): Str {
    if items == [] then []
    else Canon(items[0]) + if |items| == 1 then [] else [COMMA] + CanonItems(items[1..])
  }

  function CanonMember(v: Value, k: Str): Str
    requires v.Object? && k in v.members
    decreases v, 1
  {
    Quoted(k) + [COLON] + Canon(v.members[k])
  }

  /** The members of an object with the given keys, in the given order. */
  function CanonMembers(v: Value, ks: seq<Str>): Str
    requires v.Object? && forall k :: k in ks ==> k in v.members
    decreases v, 2, |ks|
  {
    if ks == [] then []
    else CanonMember(v, ks[0]) + if |ks| == 1 then [] else [COMMA] + CanonMembers(v, ks[1..])
  }
}
