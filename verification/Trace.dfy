/** Trace context headers (W3C Trace Context, sections 3.2 and 3.3): parsing, rendering, and that each undoes
  * the other up to normalisation. */
module Trace {
  import opened Prelude
  import opened Text
  import WireValue

  datatype Member = Member(key: Str, value: Str)

  datatype Context = Context(traceId: Str, parentId: Str, flags: nat, state: seq<Member>)

  const DASH: int := '-' as int
  const COMMA: int := ',' as int
  const EQUALS: int := '=' as int
  const MAX_STATE: nat := 512
  const MAX_MEMBERS: nat := 32

  // ---------------------------------------------------------------- validity

  predicate LowerHex(c: int) {
    '0' as int <= c <= '9' as int || 'a' as int <= c <= 'f' as int
  }

  predicate AllHex(s: Str) {
    s != [] && forall i :: 0 <= i < |s| ==> LowerHex(s[i])
  }

  /** Lower-case hexadecimal of a length, and not all zeros. */
  predicate Identifier(s: Str, length: nat) {
    |s| == length && AllHex(s) && exists i :: 0 <= i < |s| && s[i] != '0' as int
  }

  predicate LowerAlnum(c: int) {
    '0' as int <= c <= '9' as int || 'a' as int <= c <= 'z' as int
  }

  predicate KeyChar(c: int) {
    LowerAlnum(c) || c == '_' as int || c == '*' as int || c == '/' as int || c == '@' as int || c == '-' as int
  }

  predicate ValidKey(k: Str) {
    1 <= |k| <= 256 && LowerAlnum(k[0]) && forall i :: 0 <= i < |k| ==> KeyChar(k[i])
  }

  predicate ValidValue(v: Str) {
    && 1 <= |v| <= 256 && v[|v| - 1] != ' ' as int
    && (forall i :: 0 <= i < |v| ==> 0x20 <= v[i] <= 0x7E && v[i] != COMMA && v[i] != EQUALS)
  }

  predicate DistinctKeys(ms: seq<Member>) {
    forall i, j :: 0 <= i < j < |ms| ==> ms[i].key != ms[j].key
  }

  predicate ValidMembers(ms: seq<Member>) {
    forall i :: 0 <= i < |ms| ==> ValidKey(ms[i].key) && ValidValue(ms[i].value)
  }

  /** What the constructor accepts. */
  predicate ValidState(ms: seq<Member>) {
    |ms| <= MAX_MEMBERS && ValidMembers(ms) && DistinctKeys(ms) && |JoinMembers(ms)| <= MAX_STATE
  }

  predicate ValidContext(c: Context) {
    Identifier(c.traceId, 32) && Identifier(c.parentId, 16) && c.flags <= 3 && ValidState(c.state)
  }

  // ---------------------------------------------------------------- rendering

  function RenderParent(c: Context): Str
    requires c.flags <= 3
  {
    ['0' as int, '0' as int, DASH] + c.traceId + [DASH] + c.parentId + [DASH, '0' as int, WireValue.HexDigit(c.flags)]
  }

  function MemberText(m: Member): Str {
    m.key + [EQUALS] + m.value
  }

  function JoinMembers(ms: seq<Member>): Str {
    if ms == [] then []
    else if |ms| == 1 then MemberText(ms[0])
    else MemberText(ms[0]) + [COMMA] + JoinMembers(ms[1..])
  }

  /** No header at all when there are no members. */
  function RenderState(c: Context): Option<Str> {
    if c.state == [] then None else Some(JoinMembers(c.state))
  }

  // ---------------------------------------------------------------- parsing

  predicate Blank(c: int) {
    c == ' ' as int || c == '\t' as int
  }

  function StripLeft(s: Str): (r: Str)
    ensures |r| <= |s|
  {
    if s != [] && Blank(s[0]) then StripLeft(s[1..]) else s
  }

  function StripRight(s: Str): (r: Str)
    ensures |r| <= |s|
  {
    if s != [] && Blank(s[|s| - 1]) then StripRight(s[..|s| - 1]) else s
  }

  /** The position of the first equals sign. */
  function FirstEquals(s: Str): (n: Option<nat>)
    ensures n.Some? ==> n.value < |s| && s[n.value] == EQUALS
    ensures n.None? ==> EQUALS !in s
  {
    if s == [] then None
    else if s[0] == EQUALS then Some(0)
    else match FirstEquals(s[1..]) case None => None case Some(n) => Some(n + 1)
  }

  function ParseMember(s: Str): (m: Option<Member>)
    ensures m.Some? ==> ValidKey(m.value.key) && ValidValue(m.value.value) && MemberText(m.value) == s
  {
    var n := FirstEquals(s);
    if n.None? then None
    else
      var m := Member(s[..n.value], s[n.value + 1..]);
      if ValidKey(m.key) && ValidValue(m.value) then Some(m) else None
  }

  /** Reads members, leaving out empty ones. */
  function ParseMembers(raw: seq<Str>): Option<seq<Member>> {
    if raw == [] then Some([])
    else
      var s := StripRight(StripLeft(raw[0]));
      var rest := ParseMembers(raw[1..]);
      if s == [] then rest
      else if ParseMember(s).None? || rest.None? then None
      else Some([ParseMember(s).value] + rest.value)
  }

  function ParseState(s: Str): Option<seq<Member>> {
    if |s| > MAX_STATE || |Split(s, COMMA)| > MAX_MEMBERS then None
    else
      var ms := ParseMembers(Split(s, COMMA));
      if ms.None? || !DistinctKeys(ms.value) then None else ms
  }

  function HexValueOf(c: int): nat
    requires LowerHex(c)
  {
    if c <= '9' as int then c - '0' as int else c - 'a' as int + 10
  }

  /** The shape of a traceparent of any version; a version above 00 may carry more fields after a dash. */
  predicate ParentShape(s: Str) {
    && 55 <= |s| <= 1024 && (forall i :: 0 <= i < |s| ==> 0x20 <= s[i] <= 0x7E)
    && s[2] == DASH && s[35] == DASH && s[52] == DASH
    && AllHex(s[..2]) && s[..2] != ['f' as int, 'f' as int]
    && (s[..2] == ['0' as int, '0' as int] ==> |s| == 55)
    && (|s| > 55 ==> s[55] == DASH)
    && Identifier(s[3..35], 32) && Identifier(s[36..52], 16) && LowerHex(s[53]) && LowerHex(s[54])
  }

  /** Only the lowest two flags are kept. */
  function FlagsOf(parent: Str): nat
    requires |parent| >= 55 && LowerHex(parent[53]) && LowerHex(parent[54])
  {
    (16 * HexValueOf(parent[53]) + HexValueOf(parent[54])) % 4
  }

  /** The constructor checks the result again. */
  function Parse(parent: Str, state: Option<Str>): Option<Context> {
    if !ParentShape(parent) then None
    else
      var members := if state.None? then Some([]) else ParseState(state.value);
      if members.None? then None
      else
        var c := Context(parent[3..35], parent[36..52], FlagsOf(parent), members.value);
        if ValidContext(c) then Some(c) else None
  }

  // ---------------------------------------------------------------- parsing inverts rendering

  lemma {:induction false} EqualsAfterKey(k: Str, v: Str)
    requires EQUALS !in k
    ensures FirstEquals(k + [EQUALS] + v) == Some(|k|)
  {
    var s := k + [EQUALS] + v;
    if k != [] {
      assert k[0] in k;
      EqualsAfterKey(k[1..], v);
      assert s[1..] == k[1..] + [EQUALS] + v;
    }
  }

  lemma MemberInverts(m: Member)
    requires ValidKey(m.key) && ValidValue(m.value)
    ensures var s := MemberText(m);
            StripRight(StripLeft(s)) == s && s != [] && ParseMember(s) == Some(m) && COMMA !in s
  {
    var s := MemberText(m);
    assert s[0] == m.key[0] && s[|s| - 1] == m.value[|m.value| - 1];
    EqualsAfterKey(m.key, m.value);
    assert s[..|m.key|] == m.key && s[|m.key| + 1..] == m.value;
    forall i | 0 <= i < |s| ensures s[i] != COMMA {
      if i < |m.key| { assert s[i] == m.key[i]; } else if i > |m.key| { assert s[i] == m.value[i - |m.key| - 1]; }
    }
  }

  lemma {:induction false} MembersInvert(ms: seq<Member>)
    requires ms != [] && ValidMembers(ms)
    ensures ParseMembers(Split(JoinMembers(ms), COMMA)) == Some(ms) && |Split(JoinMembers(ms), COMMA)| == |ms|
    decreases |ms|
  {
    hide ParseMember, StripLeft, StripRight, ValidKey, ValidValue, MemberText, Split, DistinctKeys;
    var s := MemberText(ms[0]);
    MemberInverts(ms[0]);
    if |ms| == 1 {
      SplitOne(s, COMMA);
      assert [s][1..] == [] && ms == [ms[0]] && [ms[0]] + [] == ms;
      assert ParseMembers([]) == Some([]);
    } else {
      var rest := Split(JoinMembers(ms[1..]), COMMA);
      SplitFirst(s, JoinMembers(ms[1..]), COMMA);
      MembersInvert(ms[1..]);
      assert ([s] + rest)[1..] == rest && ms == [ms[0]] + ms[1..];
    }
  }

  lemma ParentInverts(c: Context)
    requires ValidContext(c)
    ensures var s := RenderParent(c);
            && ParentShape(s) && s[3..35] == c.traceId && s[36..52] == c.parentId
            && FlagsOf(s) == c.flags
  {
    hide ValidState;
    var s := RenderParent(c);
    var zero := ['0' as int, '0' as int, DASH];
    assert s == zero + c.traceId + [DASH] + c.parentId + [DASH, '0' as int, WireValue.HexDigit(c.flags)];
    assert |s| == 55 && s[0] == zero[0] && s[1] == zero[1] && s[2] == zero[2] && s[35] == DASH && s[52] == DASH;
    assert s[3..35] == c.traceId && s[36..52] == c.parentId;
    assert s[..2] == ['0' as int, '0' as int] && s[53] == '0' as int && s[54] == WireValue.HexDigit(c.flags);
    forall i | 0 <= i < |s| ensures 0x20 <= s[i] <= 0x7E {
      if 3 <= i < 35 {
        assert s[i] == c.traceId[i - 3] && LowerHex(c.traceId[i - 3]);
      } else if 36 <= i < 52 {
        assert s[i] == c.parentId[i - 36] && LowerHex(c.parentId[i - 36]);
      }
    }
  }

  /** Parsing what was rendered gives the context back. */
  lemma ParseInvertsRender(c: Context)
    requires ValidContext(c)
    ensures Parse(RenderParent(c), RenderState(c)) == Some(c)
  {
    hide ParentShape, Split, ParseMembers, RenderParent;
    ParentInverts(c);
    if c.state != [] { MembersInvert(c.state); }
  }

  // ---------------------------------------------------------------- normalisation

  function TotalLength(parts: seq<Str>): nat {
    if parts == [] then 0 else |parts[0]| + TotalLength(parts[1..])
  }

  lemma {:induction false} SplitLength(s: Str, separator: int)
    ensures TotalLength(Split(s, separator)) + |Split(s, separator)| - 1 == |s|
  {
    if s == [] {
      var one: seq<Str> := [[]];
      assert one[1..] == [] && TotalLength(one) == 0;
    } else {
      var rest := Split(s[1..], separator);
      SplitLength(s[1..], separator);
      if s[0] == separator {
        assert ([[]] + rest)[1..] == rest;
      } else {
        assert ([[s[0]] + rest[0]] + rest[1..])[1..] == rest[1..];
      }
    }
  }

  /** Members take no more room joined than the raw parts they came from. */
  lemma {:induction false} JoinedIsShorter(raw: seq<Str>)
    requires ParseMembers(raw).Some?
    ensures var ms := ParseMembers(raw).value;
            && |ms| <= |raw| && ValidMembers(ms)
            && (ms != [] ==> |JoinMembers(ms)| + 1 <= TotalLength(raw) + |raw|)
    decreases |raw|
  {
    hide ParseMember, StripLeft, StripRight, ValidKey, ValidValue;
    if raw != [] {
      JoinedIsShorter(raw[1..]);
      var s := StripRight(StripLeft(raw[0]));
      var rest := ParseMembers(raw[1..]).value;
      if s != [] {
        var ms := [ParseMember(s).value] + rest;
        assert ms[1..] == rest;
      }
    }
  }

  /** Whatever is accepted is a valid context, so the constructor's own checks never reject after a successful
    * parse; and parsing its rendering gives it back, so that rendering normalises: blanks, empty members,
    * other versions and further fields and flags disappear once and for all. */
  lemma RenderNormalises(parent: Str, state: Option<Str>)
    ensures (ParentShape(parent) && (state.Some? ==> ParseState(state.value).Some?)) <==> Parse(parent, state).Some?
    ensures Parse(parent, state).Some? ==>
              var c := Parse(parent, state).value;
              Parse(RenderParent(c), RenderState(c)) == Some(c)
  {
    hide ParseMembers, Split, JoinMembers, Identifier, AllHex;
    if ParentShape(parent) && state.Some? && ParseState(state.value).Some? {
      SplitLength(state.value, COMMA);
      JoinedIsShorter(Split(state.value, COMMA));
      NothingJoined();
    }
    if ParentShape(parent) { NothingJoined(); }
    if Parse(parent, state).Some? { ParseInvertsRender(Parse(parent, state).value); }
  }

  lemma NothingJoined()
    ensures JoinMembers([]) == []
  {
  }

  // ---------------------------------------------------------------- the loop

  /** Reads the members of a tracestate in order. */
  method ParseTracestate(s: Str) returns (r: Option<seq<Member>>)
    ensures r == ParseState(s)
  {
    if |s| > MAX_STATE {
      return None;
    }
    var raw := Split(s, COMMA);
    if |raw| > MAX_MEMBERS {
      return None;
    }
    var members: seq<Member> := [];
    var i := 0;
    assert raw[0..] == raw;
    NothingRead(ParseMembers(raw));
    while i < |raw|
      invariant 0 <= i <= |raw| && ParseMembers(raw) == Read(members, ParseMembers(raw[i..]))
    {
      assert raw[i..][0] == raw[i] && raw[i..][1..] == raw[i + 1..];
      var member := StripRight(StripLeft(raw[i]));
      if member != [] {
        var parsed := ParseMember(member);
        if parsed.None? {
          return None;
        }
        OneMoreRead(members, parsed.value, ParseMembers(raw[i + 1..]));
        members := members + [parsed.value];
      }
      i := i + 1;
    }
    assert members + [] == members;
    return if DistinctKeys(members) then Some(members) else None;
  }

  function Read(members: seq<Member>, rest: Option<seq<Member>>): Option<seq<Member>> {
    if rest.None? then None else Some(members + rest.value)
  }

  lemma NothingRead(rest: Option<seq<Member>>)
    ensures Read([], rest) == rest
  {
    if rest.Some? { assert [] + rest.value == rest.value; }
  }

  lemma OneMoreRead(members: seq<Member>, m: Member, rest: Option<seq<Member>>)
    ensures Read(members, Read([m], rest)) == Read(members + [m], rest)
  {
    if rest.Some? { assert members + ([m] + rest.value) == members + [m] + rest.value; }
  }
}
