/** The bounded parser as a function of the characters that its source will still yield. */
module WireParse {
  import opened Prelude
  import opened Text
  import opened Utf8
  import opened WireValue

  /** What the source does after its last character: it ends, or it fails. */
  datatype Tail = End | Broken(error: WireError)

  /** The characters still to come, and what follows them. */
  datatype Input = Input(chars: Str, tail: Tail)

  /** Characters before others. */
  function Then(s: Str, more: Input): Input {
    Input(s + more.chars, more.tail)
  }

  /** The character that stands for the end of input. */
  const EOF: int := -1

  datatype Parsed<+T> = Got(value: T, rest: Input) | Failed(error: WireError) {
    predicate IsFailure() { Failed? }
    function PropagateFailure<U>(): Parsed<U>
      requires Failed?
    { Failed(error) }
    function Extract(): (T, Input)
      requires Got?
    { (value, rest) }
  }

  // ---------------------------------------------------------------- characters

  function Peek(s: Input): (r: Parsed<int>)
    ensures r.Got? ==> r.rest == s
  {
    if s.chars != [] then Got(s.chars[0], s) else match s.tail case End => Got(EOF, s) case Broken(e) => Failed(e)
  }

  /** Takes one character; at the end of input it takes the end again and again. */
  function Take(s: Input): (r: Parsed<int>)
    ensures r.Got? ==> Shorter(r.rest, s)
    ensures r.Got? && r.value != EOF ==> |r.rest.chars| < |s.chars|
  {
    if s.chars != [] then Got(s.chars[0], Input(s.chars[1..], s.tail)) else Peek(s)
  }

  /** What was seen is what is taken. */
  lemma TakesPeeked(s: Input)
    ensures Peek(s).Got? ==> Take(s).Got? && Take(s).value == Peek(s).value
  {
  }

  predicate Shorter(a: Input, b: Input) {
    a.tail == b.tail && |a.chars| <= |b.chars|
  }

  predicate Space(c: int) {
    c == ' ' as int || c == '\t' as int || c == '\r' as int || c == '\n' as int
  }

  function SkipSpace(s: Input): (r: Parsed<()>)
    ensures r.Got? ==> Shorter(r.rest, s)
    decreases |s.chars|
  {
    if s.chars != [] && Space(s.chars[0]) then SkipSpace(Input(s.chars[1..], s.tail)) else
    var (_, t) :- Peek(s);
    Got((), t)
  }

  function Require(s: Input, c: int): (r: Parsed<()>)
    ensures r.Got? && c != EOF ==> |r.rest.chars| < |s.chars|
    ensures r.Got? ==> Shorter(r.rest, s)
  {
    var (d, t) :- Take(s);
    if d == c then Got((), t) else Failed(Syntax)
  }

  // ---------------------------------------------------------------- strings

  /** The value of a hexadecimal digit in either case. */
  function HexValue(c: int): (r: Option<int>)
    ensures r.Some? ==> 0 <= r.value < 16
  {
    if Digit(c) then Some(c - '0' as int)
    else if 'a' as int <= c <= 'f' as int then Some(c - 'a' as int + 10)
    else if 'A' as int <= c <= 'F' as int then Some(c - 'A' as int + 10)
    else None
  }

  /** Takes four characters, and only then looks whether they are hexadecimal digits. */
  function HexQuad(s: Input): (r: Parsed<int>)
    ensures r.Got? ==> Shorter(r.rest, s) && 0 <= r.value < 0x10000
  {
    var (a, s1) :- Take(s);
    var (b, s2) :- Take(s1);
    var (c, s3) :- Take(s2);
    var (d, s4) :- Take(s3);
    if HexValue(a).None? || HexValue(b).None? || HexValue(c).None? || HexValue(d).None? then Failed(Syntax)
    else Got(((HexValue(a).value * 16 + HexValue(b).value) * 16 + HexValue(c).value) * 16 + HexValue(d).value, s4)
  }

  /** The character that a one-letter escape names. */
  function SimpleEscape(c: int): Option<int> {
    if c == QUOTE || c == BACKSLASH || c == '/' as int then Some(c)
    else if c == 'b' as int then Some(8)
    else if c == 'f' as int then Some(12)
    else if c == 'n' as int then Some(10)
    else if c == 'r' as int then Some(13)
    else if c == 't' as int then Some(9)
    else None
  }

  /** What follows \u: a code unit that is no surrogate, or a pair of surrogates. */
  function CodeUnits(s: Input): (r: Parsed<int>)
    ensures r.Got? ==> Shorter(r.rest, s)
  {
    var (code, s1) :- HexQuad(s);
    if 0xD800 <= code <= 0xDBFF then
      var (_, s2) :- Require(s1, BACKSLASH);
      var (_, s3) :- Require(s2, 'u' as int);
      var (low, s4) :- HexQuad(s3);
      if 0xDC00 <= low <= 0xDFFF then Got(0x10000 + (code - 0xD800) * 1024 + low - 0xDC00, s4)
      else Failed(Syntax)
    else if 0xDC00 <= code <= 0xDFFF then Failed(Syntax)
    else Got(code, s1)
  }

  /** What follows a backslash: a simple escape or code units. */
  function Escape(s: Input): (r: Parsed<int>)
    ensures r.Got? ==> Shorter(r.rest, s)
  {
    var (e, s1) :- Take(s);
    if e == 'u' as int then CodeUnits(s1)
    else if SimpleEscape(e).Some? then Got(SimpleEscape(e).value, s1)
    else Failed(Syntax)
  }

  /** The characters of a string up to its closing quote, after those already gathered. */
  function StringBody(s: Input, gathered: Str, limits: Limits): (r: Parsed<Str>)
    ensures r.Got? ==> Shorter(r.rest, s)
    decreases |s.chars|
  {
    var (c, s1) :- Take(s);
    if c == QUOTE then Got(gathered, s1)
    else if c < 0x20 then Failed(Syntax)  // a control character or the end of input
    else
      var (d, s2) :- if c == BACKSLASH then Escape(s1) else Got(c, s1);
      if |gathered| >= limits.maxString then Failed(Limit)
      else StringBody(s2, gathered + [d], limits)
  }

  function ParseString(s: Input, limits: Limits): (r: Parsed<Str>)
    ensures r.Got? ==> Shorter(r.rest, s) && |r.rest.chars| < |s.chars|
  {
    var (_, s1) :- Require(s, QUOTE);
    StringBody(s1, [], limits)
  }

  // ---------------------------------------------------------------- literals and numbers

  function RequireAll(s: Input, word: Str): (r: Parsed<()>)
    requires EOF !in word
    ensures r.Got? ==> Shorter(r.rest, s) && |r.rest.chars| + |word| <= |s.chars|
    decreases |word|
  {
    if word == [] then Got((), s) else
    var (_, s1) :- Require(s, word[0]);
    RequireAll(s1, word[1..])
  }

  /** Gathers number characters greedily. */
  function NumberRun(s: Input, gathered: Str): (r: Parsed<Str>)
    ensures r.Got? ==> Shorter(r.rest, s)
    ensures r.Got? && s.chars != [] && NumberChar(s.chars[0]) ==> |r.rest.chars| < |s.chars|
    decreases |s.chars|
  {
    if s.chars != [] && NumberChar(s.chars[0]) then NumberRun(Input(s.chars[1..], s.tail), gathered + [s.chars[0]]) else
    var (_, t) :- Peek(s);
    Got(gathered, t)
  }

  /** A number: everything gathered must match the grammar as a whole. */
  function ParseNumber(s: Input): (r: Parsed<Value>)
    ensures r.Got? ==> Shorter(r.rest, s)
    ensures r.Got? && s.chars != [] && NumberChar(s.chars[0]) ==> |r.rest.chars| < |s.chars|
  {
    var (token, t) :- NumberRun(s, []);
    if IsNumber(token) then Got(Number(token), t) else Failed(Syntax)
  }

  // ---------------------------------------------------------------- values

  /** A value together with the number of values met so far, duplicates included. */
  datatype Counted = Counted(value: Value, count: nat)

  function ParseValue(s: Input, count: nat, depth: nat, limits: Limits): (r: Parsed<Counted>)
    ensures r.Got? ==> Shorter(r.rest, s) && |r.rest.chars| < |s.chars|
    decreases |s.chars|, 1
  {
    var n := count + 1;
    if n > limits.maxItems || depth > limits.maxDepth then Failed(Limit) else
    var (_, s1) :- SkipSpace(s);
    var (first, _) :- Peek(s1);
    if first == QUOTE then
      var (text, s2) :- ParseString(s1, limits);
      Got(Counted(Text(text), n), s2)
    else if first == OPEN_BRACE || first == OPEN_BRACKET then
      ParseContainer(Take(s1).rest, first == OPEN_BRACE, n, depth, limits)
    else if first == 'n' as int then Word(s1, Null, n)
    else if first == 't' as int then Word(s1, Bool(true), n)
    else if first == 'f' as int then Word(s1, Bool(false), n)
    else if Digit(first) || first == '-' as int then
      var (v, s2) :- ParseNumber(s1);
      Got(Counted(v, n), s2)
    else Failed(Syntax)
  }

  function Word(s: Input, v: Value, n: nat): (r: Parsed<Counted>)
    requires v.Null? || v.Bool?
    requires s.chars != []
    ensures r.Got? ==> Shorter(r.rest, s) && |r.rest.chars| < |s.chars|
  {
    var (_, t) :- RequireAll(s, Literal(v));
    Got(Counted(v, n), t)
  }

  /** What follows an opening brace or bracket. */
  function ParseContainer(s: Input, isObject: bool, count: nat, depth: nat, limits: Limits): (r: Parsed<Counted>)
    ensures r.Got? ==> Shorter(r.rest, s) && |r.rest.chars| < |s.chars|
    decreases |s.chars|, 3
  {
    var (_, s1) :- SkipSpace(s);
    var (next, _) :- Peek(s1);
    var close := if isObject then CLOSE_BRACE else CLOSE_BRACKET;
    if next == close then
      var (_, s2) :- Require(s1, close);
      Got(Counted(if isObject then Object(map[]) else Array([]), count), s2)
    else if isObject then ParseMembers(s1, map[], count, depth, limits)
    else ParseItems(s1, [], count, depth, limits)
  }

  /** Members up to the closing brace. A repeated key keeps its last value; every value is counted. */
  function ParseMembers(s: Input, members: map<Str, Value>, count: nat, depth: nat,
                        limits: Limits): (r: Parsed<Counted>)
    ensures r.Got? ==> Shorter(r.rest, s) && |r.rest.chars| < |s.chars|
    decreases |s.chars|, 0
  {
    var (key, s1) :- ParseString(s, limits);
    var (_, s2) :- SkipSpace(s1);
    var (_, s3) :- Require(s2, COLON);
    var (c, s4) :- ParseValue(s3, count, depth + 1, limits);
    var all := members[key := c.value];
    var (_, s5) :- SkipSpace(s4);
    var (next, _) :- Peek(s5);
    if next == CLOSE_BRACE then
      var (_, s6) :- Require(s5, CLOSE_BRACE);
      Got(Counted(Object(all), c.count), s6)
    else
      var (_, s6) :- Require(s5, COMMA);
      var (_, s7) :- SkipSpace(s6);
      ParseMembers(s7, all, c.count, depth, limits)
  }

  /** Items up to the closing bracket. */
  function ParseItems(s: Input, items: seq<Value>, count: nat, depth: nat, limits: Limits): (r: Parsed<Counted>)
    ensures r.Got? ==> Shorter(r.rest, s) && |r.rest.chars| < |s.chars|
    decreases |s.chars|, 2
  {
    var (c, s1) :- ParseValue(s, count, depth + 1, limits);
    var all := items + [c.value];
    var (_, s2) :- SkipSpace(s1);
    var (next, _) :- Peek(s2);
    if next == CLOSE_BRACKET then
      var (_, s3) :- Require(s2, CLOSE_BRACKET);
      Got(Counted(Array(all), c.count), s3)
    else
      var (_, s3) :- Require(s2, COMMA);
      var (_, s4) :- SkipSpace(s3);
      ParseItems(s4, all, c.count, depth, limits)
  }

  /** A whole document: one value, white space, and the end of input. */
  function ParseDocument(s: Input, limits: Limits): (r: Parsed<Value>)
  {
    var (c, s1) :- ParseValue(s, 0, 0, limits);
    var (_, s2) :- SkipSpace(s1);
    var (next, _) :- Peek(s2);
    if next == EOF then Got(c.value, s2) else Failed(Syntax)
  }
}
