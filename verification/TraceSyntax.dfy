/** Which trace headers are accepted, and what is read from them, said by how they are written. */
module TraceSyntax {
  import opened Prelude
  import opened Text
  import opened Trace
  import WireValue

  // ---------------------------------------------------------------- traceparent

  /** A header of a version other than ff: two identifiers that are not all zeros, and two digits of flags; a
    * version above 00 may carry more after a dash. */
  ghost predicate ParentText(s: Str, version: Str, trace: Str, parent: Str, high: int, low: int, more: Str) {
    && 0 <= high < 16 && 0 <= low < 16
    && |version| == 2 && AllHex(version) && version != Codes("ff")
    && Identifier(trace, 32) && Identifier(parent, 16)
    && s == version + [DASH] + trace + [DASH] + parent + [DASH, WireValue.HexDigit(high), WireValue.HexDigit(low)] + more
    && (more == [] || (version != Codes("00") && more[0] == DASH && |s| <= 1024 && Printable(more)))
  }

  predicate Printable(s: Str) {
    forall i :: 0 <= i < |s| ==> 0x20 <= s[i] <= 0x7E
  }

  lemma HexIsPrintable(s: Str)
    requires AllHex(s)
    ensures Printable(s)
  {
  }

  lemma PrintableConcat(a: Str, b: Str)
    requires Printable(a) && Printable(b)
    ensures Printable(a + b)
  {
  }

  lemma ParentReads(s: Str, version: Str, trace: Str, parent: Str, high: int, low: int, more: Str)
    requires ParentText(s, version, trace, parent, high, low, more)
    ensures Parse(s, None) == Some(Context(trace, parent, low % 4, []))
  {
    hide AllHex, Printable;
    var flags := [DASH, WireValue.HexDigit(high), WireValue.HexDigit(low)];
    assert s[..2] == version && s[2] == DASH && s[3..35] == trace && s[35] == DASH;
    assert s[36..52] == parent && s[52] == DASH && s[53] == flags[1] && s[54] == flags[2];
    assert more != [] ==> s[55] == more[0];
    Flags(high, low);
    DashIsPrintable();
    ParentPrintable(version, trace, parent, flags, more);
    PrintableAll(s);
    assert Codes("00") == ['0' as int, '0' as int] && Codes("ff") == ['f' as int, 'f' as int];
    NothingJoined();
    assert ParentShape(s);
  }

  lemma PrintableAll(s: Str)
    requires Printable(s)
    ensures forall i :: 0 <= i < |s| ==> 0x20 <= s[i] <= 0x7E
  {
  }

  lemma ParentPrintable(version: Str, trace: Str, parent: Str, flags: Str, more: Str)
    requires AllHex(version) && Identifier(trace, 32) && Identifier(parent, 16) && Printable(flags) && Printable(more)
    ensures Printable(version + [DASH] + trace + [DASH] + parent + flags + more)
  {
    hide AllHex, Printable;
    HexIsPrintable(version);
    HexIsPrintable(trace);
    HexIsPrintable(parent);
    assert Printable([DASH]) by { DashIsPrintable(); }
    PrintableConcat(version, [DASH]);
    PrintableConcat(version + [DASH], trace);
    PrintableConcat(version + [DASH] + trace, [DASH]);
    PrintableConcat(version + [DASH] + trace + [DASH], parent);
    PrintableConcat(version + [DASH] + trace + [DASH] + parent, flags);
    PrintableConcat(version + [DASH] + trace + [DASH] + parent + flags, more);
  }

  lemma DashIsPrintable()
    ensures Printable([DASH]) && Printable([])
  {
  }

  lemma Flags(high: int, low: int)
    requires 0 <= high < 16 && 0 <= low < 16
    ensures var (a, b) := (WireValue.HexDigit(high), WireValue.HexDigit(low));
            && LowerHex(a) && LowerHex(b) && HexValueOf(a) == high && HexValueOf(b) == low
            && (16 * high + low) % 4 == low % 4 && Printable([DASH, a, b])
  {
  }

  lemma ParentWritten(s: Str) returns (version: Str, trace: Str, parent: Str, high: int, low: int, more: Str)
    requires ParentShape(s)
    ensures ParentText(s, version, trace, parent, high, low, more)
    ensures Parse(s, None) == Some(Context(trace, parent, low % 4, []))
  {
    hide AllHex, Printable;
    version, trace, parent, more := s[..2], s[3..35], s[36..52], s[55..];
    high, low := HexValueOf(s[53]), HexValueOf(s[54]);
    DigitOf(s[53]);
    DigitOf(s[54]);
    assert s[..3] == version + [DASH];
    assert s[..35] == s[..3] + trace;
    assert s[..36] == s[..35] + [DASH];
    assert s[..52] == s[..36] + parent;
    assert s[..55] == s[..52] + [DASH, s[53], s[54]];
    assert s == s[..55] + more;
    assert Codes("00") == ['0' as int, '0' as int] && Codes("ff") == ['f' as int, 'f' as int];
    RestPrintable(s);
    ParentReads(s, version, trace, parent, high, low, more);
  }

  lemma RestPrintable(s: Str)
    requires |s| >= 55 && forall i :: 0 <= i < |s| ==> 0x20 <= s[i] <= 0x7E
    ensures Printable(s[55..])
  {
  }

  lemma DigitOf(c: int)
    requires LowerHex(c)
    ensures 0 <= HexValueOf(c) < 16 && WireValue.HexDigit(HexValueOf(c)) == c
  {
  }

  /** A traceparent is accepted, and read as two identifiers and the lowest two flags, exactly if it is written
    * in this way. */
  lemma ParentExactly(s: Str, trace: Str, parent: Str, flags: nat)
    ensures Parse(s, None) == Some(Context(trace, parent, flags, [])) <==>
            exists version, high, low, more ::
              ParentText(s, version, trace, parent, high, low, more) && flags == low % 4
  {
    hide ParentText, ParentShape;
    if Parse(s, None) == Some(Context(trace, parent, flags, [])) {
      var version, trace', parent', high, low, more := ParentWritten(s);
      assert ParentText(s, version, trace, parent, high, low, more) && flags == low % 4;
    }
    forall version, high, low, more | ParentText(s, version, trace, parent, high, low, more) && flags == low % 4
      ensures Parse(s, None) == Some(Context(trace, parent, flags, []))
    {
      ParentReads(s, version, trace, parent, high, low, more);
    }
  }

  // ---------------------------------------------------------------- tracestate

  /** What stands between two commas: blanks alone, or a member between blanks. */
  datatype Part = Gap(blank: Str) | Padded(before: Str, member: Member, after: Str) {
    ghost predicate Correct() {
      match this
      case Gap(b) => Blanks(b)
      case Padded(b, m, a) => Blanks(b) && ValidKey(m.key) && ValidValue(m.value) && Blanks(a)
    }

    function Written(): Str {
      match this
      case Gap(b) => b
      case Padded(b, m, a) => b + (m.key + [EQUALS] + m.value) + a
    }
  }

  predicate Blanks(s: Str) {
    forall i :: 0 <= i < |s| ==> s[i] == 0x20 || s[i] == 0x09
  }

  function Written(ps: seq<Part>): seq<Str> {
    if ps == [] then [] else [ps[0].Written()] + Written(ps[1..])
  }

  ghost predicate AllCorrect(ps: seq<Part>) {
    ps == [] || (ps[0].Correct() && AllCorrect(ps[1..]))
  }

  function Given(ps: seq<Part>): seq<Member> {
    if ps == [] then [] else (if ps[0].Padded? then [ps[0].member] else []) + Given(ps[1..])
  }

  /** A list of at most 32 parts in at most 512 characters, whose members have different keys. */
  ghost predicate StateText(s: Str, ps: seq<Part>, ms: seq<Member>) {
    && 1 <= |ps| <= 32 && |s| <= 512 && AllCorrect(ps) && s == Join(Written(ps), COMMA) && ms == Given(ps)
    && forall i, j :: 0 <= i < j < |ms| ==> ms[i].key != ms[j].key
  }

  lemma {:induction false} LeftBlanks(s: Str) returns (b: Str)
    ensures Blanks(b) && s == b + StripLeft(s)
  {
    if s != [] && Trace.Blank(s[0]) {
      var later := LeftBlanks(s[1..]);
      b := [s[0]] + later;
    } else {
      b := [];
    }
  }

  lemma {:induction false} RightBlanks(s: Str) returns (b: Str)
    ensures Blanks(b) && s == StripRight(s) + b
  {
    if s != [] && Trace.Blank(s[|s| - 1]) {
      var earlier := RightBlanks(s[..|s| - 1]);
      b := earlier + [s[|s| - 1]];
    } else {
      b := [];
    }
  }

  lemma {:induction false} LeftStripped(b: Str, s: Str)
    requires Blanks(b) && (s == [] || !Trace.Blank(s[0]))
    ensures StripLeft(b + s) == s
  {
    if b == [] {
      assert b + s == s;
    } else {
      assert (b + s)[1..] == b[1..] + s;
      LeftStripped(b[1..], s);
    }
  }

  lemma {:induction false} RightStripped(s: Str, b: Str)
    requires Blanks(b) && (s == [] || !Trace.Blank(s[|s| - 1]))
    ensures StripRight(s + b) == s
    decreases |b|
  {
    if b == [] {
      assert s + b == s;
    } else {
      assert (s + b)[..|s + b| - 1] == s + b[..|b| - 1];
      RightStripped(s, b[..|b| - 1]);
    }
  }

  /** A part without its blanks is its member, or nothing; and no part holds a comma. */
  lemma PartReads(p: Part)
    requires p.Correct()
    ensures var t := StripRight(StripLeft(p.Written()));
            && COMMA !in p.Written()
            && (p.Gap? ==> t == [])
            && (p.Padded? ==> t != [] && ParseMember(t) == Some(p.member))
  {
    hide ValidKey, ValidValue, ParseMember;
    match p
    case Gap(b) =>
      assert b + [] == b;
      LeftStripped(b, []);
      assert StripRight([]) == [];
    case Padded(b, m, a) =>
      var t := m.key + [EQUALS] + m.value;
      assert t == MemberText(m);
      MemberInverts(m);
      MemberEnds(m);
      assert p.Written() == b + (t + a);
      assert (t + a)[0] == t[0];
      LeftStripped(b, t + a);
      RightStripped(t, a);
  }

  lemma MemberEnds(m: Member)
    requires ValidKey(m.key) && ValidValue(m.value)
    ensures var t := MemberText(m); t != [] && !Trace.Blank(t[0]) && !Trace.Blank(t[|t| - 1])
  {
    var t := MemberText(m);
    assert t[0] == m.key[0] && t[|t| - 1] == m.value[|m.value| - 1];
  }

  lemma {:induction false} PartsRead(ps: seq<Part>)
    requires AllCorrect(ps)
    ensures ParseMembers(Written(ps)) == Some(Given(ps))
    ensures ps != [] ==> Split(Join(Written(ps), COMMA), COMMA) == Written(ps)
  {
    hide ParseMember, StripLeft, StripRight, Split, Part.Written, Part.Correct;
    if ps != [] {
      var (t, later) := (ps[0].Written(), Written(ps[1..]));
      PartReads(ps[0]);
      PartsRead(ps[1..]);
      assert Written(ps)[1..] == later;
      if |ps| == 1 {
        SplitOne(t, COMMA);
        assert Written(ps) == [t];
      } else {
        SplitFirst(t, Join(later, COMMA), COMMA);
      }
      assert [] + Given(ps[1..]) == Given(ps[1..]);
    }
  }

  lemma PartWritten(raw: Str) returns (p: Part)
    requires var t := StripRight(StripLeft(raw)); t == [] || ParseMember(t).Some?
    ensures p.Correct() && p.Written() == raw
    ensures var t := StripRight(StripLeft(raw));
            if t == [] then p.Gap? else p.Padded? && Some(p.member) == ParseMember(t)
  {
    hide ValidKey, ValidValue, ParseMember;
    var before := LeftBlanks(raw);
    var after := RightBlanks(StripLeft(raw));
    var t := StripRight(StripLeft(raw));
    if t == [] {
      p := Gap(before + after);
    } else {
      p := Padded(before, ParseMember(t).value, after);
    }
  }

  lemma {:induction false} PartsWritten(raw: seq<Str>) returns (ps: seq<Part>)
    requires ParseMembers(raw).Some?
    ensures AllCorrect(ps) && Written(ps) == raw && Given(ps) == ParseMembers(raw).value && |ps| == |raw|
  {
    hide ParseMember, StripLeft, StripRight, Part.Written, Part.Correct;
    if raw == [] {
      ps := [];
    } else {
      var p := PartWritten(raw[0]);
      var later := PartsWritten(raw[1..]);
      ps := [p] + later;
      assert ps[1..] == later;
      assert raw == [raw[0]] + raw[1..];
      assert [] + Given(later) == Given(later);
    }
  }

  /** A tracestate is accepted, and read as some members, exactly if it lists them in this order, with blanks
    * around them and empty parts between them anywhere, within the limits. */
  lemma StateExactly(s: Str, ms: seq<Member>)
    ensures ParseState(s) == Some(ms) <==> exists ps :: StateText(s, ps, ms)
  {
    hide ParseMembers, Split, Written, Given, Join, AllCorrect;
    if ParseState(s) == Some(ms) {
      var ps := PartsWritten(Split(s, COMMA));
      JoinSplit(s, COMMA);
      assert StateText(s, ps, ms);
    }
    forall ps | StateText(s, ps, ms) ensures ParseState(s) == Some(ms) {
      PartsRead(ps);
      AsMany(ps);
    }
  }

  lemma {:induction false} AsMany(ps: seq<Part>)
    ensures |Written(ps)| == |ps|
  {
    if ps != [] { AsMany(ps[1..]); }
  }
}
