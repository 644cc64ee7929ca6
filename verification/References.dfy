/** Reference resolution: the walk with its stack and its counter, and plain bounded inlining. */
module References {
  import opened Prelude
  import opened Text
  import opened JsonPointer

  type Path(==,!new)

  /** A referenced place: a file and a pointer into it. */
  datatype Marker = Marker(file: Path, pointer: Str)

  /** The documents below the root, where each reference leads from each file (nowhere, if it is not a local
    * one), and the limits. */
  datatype World = World(files: map<Path, Json>, target: (Str, Path) -> Option<Marker>, maxDepth: nat,
                         maxReferences: nat)

  datatype Code = DepthLimit | ReferenceLimit | BadTarget | CyclicReference | BadPointer | IncompatibleSiblings

  const REF: Str := Codes("$ref")
  const ALL_OF: Str := Codes("allOf")

  /** The reference of an object, when its member of that name is a string. */
  function ReferenceOf(ms: seq<Member>): Option<Str> {
    match Find(ms, REF)
    case Some(String(text)) => Some(text)
    case _ => None
  }

  predicate HasSiblings(ms: seq<Member>) {
    exists m :: m in ms && m.key != REF
  }

  /** The value that a marker stands for. */
  function Lookup(w: World, m: Marker): Option<Json> {
    if m.file !in w.files then None else Evaluate(w.files[m.file], m.pointer)
  }

  function Combined(resolved: Json, siblings: seq<Member>): Json {
    Object([Member(ALL_OF, List([resolved, Object(siblings)]))])
  }

  // ---------------------------------------------------------------- the walk

  /** A value and the number of references met so far, or why the walk stopped. */
  datatype Walked<T> = Done(value: T, references: nat) | Stopped(code: Code)

  function Walk(w: World, v: Json, file: Path, depth: nat, stack: seq<Marker>, count: nat): Walked<Json>
    requires depth <= w.maxDepth + 1
    decreases w.maxDepth + 1 - depth, v, 1
  {
    if depth > w.maxDepth then Stopped(DepthLimit)
    else
      match v
      case List(items) =>
        (match WalkItems(w, items, file, depth, stack, count)
         case Done(all, n) => Done(List(all), n)
         case Stopped(c) => Stopped(c))
      case Object(ms) =>
        if ReferenceOf(ms).Some? then WalkReference(w, ms, file, depth, stack, count)
        else
          (match WalkMembers(w, ms, false, file, depth, stack, count)
           case Done(all, n) => Done(Object(all), n)
           case Stopped(c) => Stopped(c))
      case _ => Done(v, count)
  }

  /** A reference: resolves its target one level deeper, and combines it with the walked siblings. */
  function WalkReference(w: World, ms: seq<Member>, file: Path, depth: nat, stack: seq<Marker>, count: nat)
    : Walked<Json>
    requires depth <= w.maxDepth && ReferenceOf(ms).Some?
    decreases w.maxDepth + 1 - depth, ms, 1
  {
    if count + 1 > w.maxReferences then Stopped(ReferenceLimit)
    else
      var m := w.target(ReferenceOf(ms).value, file);
      if m.None? then Stopped(BadTarget)
      else if m.value in stack then Stopped(CyclicReference)
      else
        var target := Lookup(w, m.value);
        if target.None? then Stopped(BadPointer)
        else
          match Walk(w, target.value, m.value.file, depth + 1, stack + [m.value], count + 1)
          case Stopped(c) => Stopped(c)
          case Done(resolved, n) =>
            if !HasSiblings(ms) then Done(resolved, n)
            else
              match WalkMembers(w, ms, true, file, depth, stack, n)
              case Stopped(c) => Stopped(c)
              case Done(siblings, k) =>
                if Find(siblings, ALL_OF).Some? then Stopped(IncompatibleSiblings)
                else Done(Combined(resolved, siblings), k)
  }

  function WalkItems(w: World, items: seq<Json>, file: Path, depth: nat, stack: seq<Marker>, count: nat)
    : Walked<seq<Json>>
    requires depth <= w.maxDepth
    decreases w.maxDepth + 1 - depth, items, 0
  {
    if items == [] then Done([], count)
    else
      match Walk(w, items[0], file, depth, stack, count)
      case Stopped(c) => Stopped(c)
      case Done(first, n) =>
        match WalkItems(w, items[1..], file, depth, stack, n)
        case Stopped(c) => Stopped(c)
        case Done(rest, k) => Done([first] + rest, k)
  }

  /** The members of an object in order; as siblings, those that are not the reference. */
  function WalkMembers(w: World, ms: seq<Member>, siblings: bool, file: Path, depth: nat, stack: seq<Marker>,
                       count: nat)
    : Walked<seq<Member>>
    requires depth <= w.maxDepth
    decreases w.maxDepth + 1 - depth, ms, 0
  {
    if ms == [] then Done([], count)
    else if siblings && ms[0].key == REF then WalkMembers(w, ms[1..], siblings, file, depth, stack, count)
    else
      match Walk(w, ms[0].value, file, depth, stack, count)
      case Stopped(c) => Stopped(c)
      case Done(first, n) =>
        match WalkMembers(w, ms[1..], siblings, file, depth, stack, n)
        case Stopped(c) => Stopped(c)
        case Done(rest, k) => Done([Member(ms[0].key, first)] + rest, k)
  }

  /** Resolves a document of the root. */
  function Resolve(w: World, file: Path): Walked<Json>
    requires file in w.files
  {
    Walk(w, w.files[file], file, 0, [], 0)
  }

  // ---------------------------------------------------------------- bounded inlining

  /** A value with every reference replaced, and the number of replacements. */
  datatype Inlined<T> = Inlined(value: T, references: nat)

  /** Replaces every reference by the inlining of its target, to at most n references in a row; siblings
    * are kept beside the target under allOf, which they must not define themselves. */
  function Inline(w: World, v: Json, file: Path, n: nat): Option<Inlined<Json>>
    decreases n, v, 1
  {
    match v
    case List(items) =>
      (match InlineItems(w, items, file, n)
       case Some(r) => Some(Inlined(List(r.value), r.references))
       case None => None)
    case Object(ms) =>
      if ReferenceOf(ms).Some? then InlineReference(w, ms, file, n)
      else
        (match InlineMembers(w, ms, false, file, n)
         case Some(r) => Some(Inlined(Object(r.value), r.references))
         case None => None)
    case _ => Some(Inlined(v, 0))
  }

  function InlineReference(w: World, ms: seq<Member>, file: Path, n: nat): Option<Inlined<Json>>
    requires ReferenceOf(ms).Some?
    decreases n, ms, 1
  {
    var target := TargetOf(w, ms, file);
    if n == 0 || target.None? then None
    else
      var resolved := Inline(w, target.value.0, target.value.1.file, n - 1);
      if resolved.None? then None
      else if !HasSiblings(ms) then Some(Inlined(resolved.value.value, resolved.value.references + 1))
      else
        var siblings := InlineMembers(w, ms, true, file, n);
        if siblings.None? || Find(siblings.value.value, ALL_OF).Some? then None
        else Some(Inlined(Combined(resolved.value.value, siblings.value.value),
                          resolved.value.references + siblings.value.references + 1))
  }

  /** Where the reference of an object leads, and the value there. */
  function TargetOf(w: World, ms: seq<Member>, file: Path): Option<(Json, Marker)>
    requires ReferenceOf(ms).Some?
  {
    var m := w.target(ReferenceOf(ms).value, file);
    if m.None? || Lookup(w, m.value).None? then None else Some((Lookup(w, m.value).value, m.value))
  }

  function InlineItems(w: World, items: seq<Json>, file: Path, n: nat): Option<Inlined<seq<Json>>>
    decreases n, items, 0
  {
    if items == [] then Some(Inlined([], 0))
    else
      var first := Inline(w, items[0], file, n);
      var rest := InlineItems(w, items[1..], file, n);
      if first.None? || rest.None? then None
      else Some(Inlined([first.value.value] + rest.value.value, first.value.references + rest.value.references))
  }

  function InlineMembers(w: World, ms: seq<Member>, siblings: bool, file: Path, n: nat): Option<Inlined<seq<Member>>>
    decreases n, ms, 0
  {
    if ms == [] then Some(Inlined([], 0))
    else if siblings && ms[0].key == REF then InlineMembers(w, ms[1..], siblings, file, n)
    else
      var first := Inline(w, ms[0].value, file, n);
      var rest := InlineMembers(w, ms[1..], siblings, file, n);
      if first.None? || rest.None? then None
      else Some(Inlined([Member(ms[0].key, first.value.value)] + rest.value.value,
                        first.value.references + rest.value.references))
  }

  // ---------------------------------------------------------------- more fuel changes nothing

  lemma {:induction false} InlineMore(w: World, v: Json, file: Path, n: nat)
    requires Inline(w, v, file, n).Some?
    ensures Inline(w, v, file, n + 1) == Inline(w, v, file, n)
    decreases n, v, 1
  {
    hide InlineItems, InlineMembers, InlineReference, ReferenceOf;
    match v
    case List(items) => ItemsMore(w, items, file, n);
    case Object(ms) =>
      if ReferenceOf(ms).Some? { ReferenceMore(w, ms, file, n); } else { MembersMore(w, ms, false, file, n); }
    case _ =>
  }

  lemma {:induction false} ReferenceMore(w: World, ms: seq<Member>, file: Path, n: nat)
    requires ReferenceOf(ms).Some? && InlineReference(w, ms, file, n).Some?
    ensures InlineReference(w, ms, file, n + 1) == InlineReference(w, ms, file, n)
    decreases n, ms, 1
  {
    hide Inline, InlineMembers, ReferenceOf, TargetOf, HasSiblings;
    var target := TargetOf(w, ms, file).value;
    InlineMore(w, target.0, target.1.file, n - 1);
    if HasSiblings(ms) { MembersMore(w, ms, true, file, n); }
  }

  lemma {:induction false} ItemsMore(w: World, items: seq<Json>, file: Path, n: nat)
    requires InlineItems(w, items, file, n).Some?
    ensures InlineItems(w, items, file, n + 1) == InlineItems(w, items, file, n)
    decreases n, items, 0
  {
    hide Inline;
    if items != [] {
      InlineMore(w, items[0], file, n);
      ItemsMore(w, items[1..], file, n);
    }
  }

  lemma {:induction false} MembersMore(w: World, ms: seq<Member>, siblings: bool, file: Path, n: nat)
    requires InlineMembers(w, ms, siblings, file, n).Some?
    ensures InlineMembers(w, ms, siblings, file, n + 1) == InlineMembers(w, ms, siblings, file, n)
    decreases n, ms, 0
  {
    hide Inline;
    if ms != [] {
      if !(siblings && ms[0].key == REF) { InlineMore(w, ms[0].value, file, n); }
      MembersMore(w, ms[1..], siblings, file, n);
    }
  }

  // ---------------------------------------------------------------- a successful walk is the inlining

  lemma {:induction false} WalkIsInline(w: World, v: Json, file: Path, depth: nat, stack: seq<Marker>, count: nat)
    requires depth <= w.maxDepth + 1 && Walk(w, v, file, depth, stack, count).Done?
    ensures var r := Walk(w, v, file, depth, stack, count);
            && depth <= w.maxDepth && count <= r.references && (count <= w.maxReferences ==> r.references <= w.maxReferences)
            && Inline(w, v, file, w.maxDepth - depth) == Some(Inlined(r.value, r.references - count))
    decreases w.maxDepth + 1 - depth, v, 1
  {
    hide WalkItems, WalkMembers, WalkReference, InlineItems, InlineMembers, InlineReference, ReferenceOf;
    match v
    case List(items) => WalkItemsIsInline(w, items, file, depth, stack, count);
    case Object(ms) =>
      if ReferenceOf(ms).Some? {
        WalkReferenceIsInline(w, ms, file, depth, stack, count);
      } else {
        WalkMembersIsInline(w, ms, false, file, depth, stack, count);
      }
    case _ =>
  }

  lemma {:induction false} WalkReferenceIsInline(w: World, ms: seq<Member>, file: Path, depth: nat, stack: seq<Marker>,
                                                 count: nat)
    requires depth <= w.maxDepth && ReferenceOf(ms).Some? && WalkReference(w, ms, file, depth, stack, count).Done?
    ensures var r := WalkReference(w, ms, file, depth, stack, count);
            && count <= r.references && (count <= w.maxReferences ==> r.references <= w.maxReferences)
            && InlineReference(w, ms, file, w.maxDepth - depth) == Some(Inlined(r.value, r.references - count))
    decreases w.maxDepth + 1 - depth, ms, 1
  {
    hide Walk, WalkMembers, Inline, InlineMembers, ReferenceOf, HasSiblings, Lookup;
    var m := w.target(ReferenceOf(ms).value, file).value;
    var target := Lookup(w, m).value;
    WalkIsInline(w, target, m.file, depth + 1, stack + [m], count + 1);
    if HasSiblings(ms) {
      WalkMembersIsInline(w, ms, true, file, depth, stack,
                          Walk(w, target, m.file, depth + 1, stack + [m], count + 1).references);
    }
  }

  lemma {:induction false} WalkItemsIsInline(w: World, items: seq<Json>, file: Path, depth: nat, stack: seq<Marker>,
                                             count: nat)
    requires depth <= w.maxDepth && WalkItems(w, items, file, depth, stack, count).Done?
    ensures var r := WalkItems(w, items, file, depth, stack, count);
            && count <= r.references && (count <= w.maxReferences ==> r.references <= w.maxReferences)
            && InlineItems(w, items, file, w.maxDepth - depth) == Some(Inlined(r.value, r.references - count))
    decreases w.maxDepth + 1 - depth, items, 0
  {
    hide Walk, Inline;
    if items != [] {
      WalkIsInline(w, items[0], file, depth, stack, count);
      WalkItemsIsInline(w, items[1..], file, depth, stack, Walk(w, items[0], file, depth, stack, count).references);
    }
  }

  lemma {:induction false} WalkMembersIsInline(w: World, ms: seq<Member>, siblings: bool, file: Path, depth: nat,
                                               stack: seq<Marker>, count: nat)
    requires depth <= w.maxDepth && WalkMembers(w, ms, siblings, file, depth, stack, count).Done?
    ensures var r := WalkMembers(w, ms, siblings, file, depth, stack, count);
            && count <= r.references && (count <= w.maxReferences ==> r.references <= w.maxReferences)
            && InlineMembers(w, ms, siblings, file, w.maxDepth - depth) == Some(Inlined(r.value, r.references - count))
    decreases w.maxDepth + 1 - depth, ms, 0
  {
    hide Walk, Inline;
    if ms != [] {
      if siblings && ms[0].key == REF {
        WalkMembersIsInline(w, ms[1..], siblings, file, depth, stack, count);
      } else {
        WalkIsInline(w, ms[0].value, file, depth, stack, count);
        WalkMembersIsInline(w, ms[1..], siblings, file, depth, stack,
                            Walk(w, ms[0].value, file, depth, stack, count).references);
      }
    }
  }

  // ---------------------------------------------------------------- an inlining within the limits is found

  /** Fuel that inlines the value of a marker. */
  ghost predicate MarkerInlines(w: World, m: Marker, n: nat) {
    Lookup(w, m).Some? && Inline(w, Lookup(w, m).value, m.file, n).Some?
  }

  ghost predicate Inlines(w: World, v: Json, file: Path, n: nat) {
    Inline(w, v, file, n).Some?
  }

  ghost predicate MembersInline(w: World, ms: seq<Member>, siblings: bool, file: Path, n: nat) {
    InlineMembers(w, ms, siblings, file, n).Some?
  }

  ghost predicate ItemsInline(w: World, items: seq<Json>, file: Path, n: nat) {
    InlineItems(w, items, file, n).Some?
  }

  /** Whatever fuel inlines something on the stack also inlines what is being walked. */
  ghost predicate Below(w: World, stack: seq<Marker>, v: Json, file: Path) {
    forall m, n: nat | m in stack && MarkerInlines(w, m, n) :: Inlines(w, v, file, n)
  }

  ghost predicate ItemsBelow(w: World, stack: seq<Marker>, items: seq<Json>, file: Path) {
    forall m, n: nat | m in stack && MarkerInlines(w, m, n) :: ItemsInline(w, items, file, n)
  }

  ghost predicate MembersBelow(w: World, stack: seq<Marker>, ms: seq<Member>, siblings: bool, file: Path) {
    forall m, n: nat | m in stack && MarkerInlines(w, m, n) :: MembersInline(w, ms, siblings, file, n)
  }

  lemma BelowParts(w: World, stack: seq<Marker>, v: Json, file: Path)
    requires Below(w, stack, v, file)
    ensures v.List? ==> ItemsBelow(w, stack, v.items, file)
    ensures v.Object? && ReferenceOf(v.members).None? ==> MembersBelow(w, stack, v.members, false, file)
    ensures v.Object? && ReferenceOf(v.members).Some? && HasSiblings(v.members) ==>
              MembersBelow(w, stack, v.members, true, file)
  {
    hide InlineItems, InlineMembers, ReferenceOf, HasSiblings, MarkerInlines;
    forall m, n: nat | m in stack && MarkerInlines(w, m, n)
      ensures v.List? ==> ItemsInline(w, v.items, file, n)
      ensures v.Object? && ReferenceOf(v.members).None? ==> MembersInline(w, v.members, false, file, n)
      ensures v.Object? && ReferenceOf(v.members).Some? && HasSiblings(v.members) ==>
                MembersInline(w, v.members, true, file, n)
    {
      assert Inlines(w, v, file, n);
      if v.Object? && ReferenceOf(v.members).Some? { assert InlineReference(w, v.members, file, n).Some?; }
    }
  }

  lemma ItemsBelowParts(w: World, stack: seq<Marker>, items: seq<Json>, file: Path)
    requires ItemsBelow(w, stack, items, file) && items != []
    ensures Below(w, stack, items[0], file) && ItemsBelow(w, stack, items[1..], file)
  {
    hide Inline, MarkerInlines;
    forall m, n: nat | m in stack && MarkerInlines(w, m, n)
      ensures Inlines(w, items[0], file, n) && ItemsInline(w, items[1..], file, n)
    {
      assert ItemsInline(w, items, file, n);
    }
  }

  lemma MembersBelowParts(w: World, stack: seq<Marker>, ms: seq<Member>, siblings: bool, file: Path)
    requires MembersBelow(w, stack, ms, siblings, file) && ms != []
    ensures !(siblings && ms[0].key == REF) ==> Below(w, stack, ms[0].value, file)
    ensures MembersBelow(w, stack, ms[1..], siblings, file)
  {
    hide Inline, MarkerInlines;
    forall m, n: nat | m in stack && MarkerInlines(w, m, n)
      ensures !(siblings && ms[0].key == REF) ==> Inlines(w, ms[0].value, file, n)
      ensures MembersInline(w, ms[1..], siblings, file, n)
    {
      assert MembersInline(w, ms, siblings, file, n);
    }
  }

  /** A reference needs more fuel than its target. */
  lemma ReferenceNeedsMore(w: World, ms: seq<Member>, file: Path, n: nat)
    requires ReferenceOf(ms).Some? && Inlines(w, Object(ms), file, n)
    ensures n > 0 && w.target(ReferenceOf(ms).value, file).Some?
    ensures MarkerInlines(w, w.target(ReferenceOf(ms).value, file).value, n - 1)
  {
    hide ReferenceOf, HasSiblings, InlineMembers, Lookup;
    assert InlineReference(w, ms, file, n).Some?;
  }

  lemma BelowTarget(w: World, stack: seq<Marker>, ms: seq<Member>, file: Path, m: Marker)
    requires ReferenceOf(ms).Some? && Below(w, stack, Object(ms), file)
    requires w.target(ReferenceOf(ms).value, file) == Some(m) && Lookup(w, m).Some?
    ensures Below(w, stack + [m], Lookup(w, m).value, m.file)
  {
    hide ReferenceOf, Inline, Lookup;
    forall k, n: nat | k in stack + [m] && MarkerInlines(w, k, n) ensures Inlines(w, Lookup(w, m).value, m.file, n) {
      if k in stack {
        assert Inlines(w, Object(ms), file, n);
        ReferenceNeedsMore(w, ms, file, n);
        InlineMore(w, Lookup(w, m).value, m.file, n - 1);
      }
    }
  }

  /** What is on the stack is never met again in a value that can be inlined. */
  lemma {:induction false} NotOnStack(w: World, stack: seq<Marker>, ms: seq<Member>, file: Path, m: Marker, n: nat)
    requires ReferenceOf(ms).Some? && Below(w, stack, Object(ms), file)
    requires w.target(ReferenceOf(ms).value, file) == Some(m) && MarkerInlines(w, m, n)
    ensures m !in stack
    decreases n
  {
    hide ReferenceOf, Inline, Lookup, MarkerInlines;
    if m in stack {
      assert Inlines(w, Object(ms), file, n);
      ReferenceNeedsMore(w, ms, file, n);
      NotOnStack(w, stack, ms, file, m, n - 1);
    }
  }

  lemma {:induction false} InlineIsWalked(w: World, v: Json, file: Path, depth: nat, stack: seq<Marker>, count: nat)
    requires depth <= w.maxDepth && Below(w, stack, v, file)
    requires var r := Inline(w, v, file, w.maxDepth - depth);
             r.Some? && count + r.value.references <= w.maxReferences
    ensures var r := Inline(w, v, file, w.maxDepth - depth).value;
            Walk(w, v, file, depth, stack, count) == Done(r.value, count + r.references)
    decreases w.maxDepth + 1 - depth, v, 1
  {
    hide WalkItems, WalkMembers, WalkReference, InlineItems, InlineMembers, InlineReference, ReferenceOf, HasSiblings,
      Below, ItemsBelow, MembersBelow;
    BelowParts(w, stack, v, file);
    match v
    case List(items) => InlineItemsWalked(w, items, file, depth, stack, count);
    case Object(ms) =>
      if ReferenceOf(ms).Some? {
        InlineReferenceWalked(w, ms, file, depth, stack, count);
      } else {
        InlineMembersWalked(w, ms, false, file, depth, stack, count);
      }
    case _ =>
  }

  lemma {:induction false} InlineReferenceWalked(w: World, ms: seq<Member>, file: Path, depth: nat, stack: seq<Marker>,
                                                 count: nat)
    requires depth <= w.maxDepth && ReferenceOf(ms).Some? && Below(w, stack, Object(ms), file)
    requires HasSiblings(ms) ==> MembersBelow(w, stack, ms, true, file)
    requires var r := InlineReference(w, ms, file, w.maxDepth - depth);
             r.Some? && count + r.value.references <= w.maxReferences
    ensures var r := InlineReference(w, ms, file, w.maxDepth - depth).value;
            WalkReference(w, ms, file, depth, stack, count) == Done(r.value, count + r.references)
    decreases w.maxDepth + 1 - depth, ms, 1
  {
    hide Walk, WalkMembers, Inline, InlineMembers, ReferenceOf, HasSiblings, Lookup, Below, MembersBelow, MarkerInlines;
    var n := w.maxDepth - depth;
    var (target, m) := TargetOf(w, ms, file).value;
    TargetInlines(w, ms, file, n);
    NotOnStack(w, stack, ms, file, m, n - 1);
    BelowTarget(w, stack, ms, file, m);
    InlineIsWalked(w, target, m.file, depth + 1, stack + [m], count + 1);
    if HasSiblings(ms) {
      InlineMembersWalked(w, ms, true, file, depth, stack,
                          count + 1 + Inline(w, target, m.file, n - 1).value.references);
    }
  }

  lemma TargetInlines(w: World, ms: seq<Member>, file: Path, n: nat)
    requires ReferenceOf(ms).Some? && InlineReference(w, ms, file, n).Some?
    ensures n > 0 && TargetOf(w, ms, file).Some? && MarkerInlines(w, TargetOf(w, ms, file).value.1, n - 1)
    ensures w.target(ReferenceOf(ms).value, file) == Some(TargetOf(w, ms, file).value.1)
    ensures Lookup(w, TargetOf(w, ms, file).value.1) == Some(TargetOf(w, ms, file).value.0)
  {
    hide ReferenceOf, HasSiblings, InlineMembers, Lookup;
  }

  lemma {:induction false} InlineItemsWalked(w: World, items: seq<Json>, file: Path, depth: nat, stack: seq<Marker>,
                                             count: nat)
    requires depth <= w.maxDepth && ItemsBelow(w, stack, items, file)
    requires var r := InlineItems(w, items, file, w.maxDepth - depth);
             r.Some? && count + r.value.references <= w.maxReferences
    ensures var r := InlineItems(w, items, file, w.maxDepth - depth).value;
            WalkItems(w, items, file, depth, stack, count) == Done(r.value, count + r.references)
    decreases w.maxDepth + 1 - depth, items, 0
  {
    hide Walk, Inline, Below, ItemsBelow;
    if items != [] {
      ItemsBelowParts(w, stack, items, file);
      var first := Inline(w, items[0], file, w.maxDepth - depth).value;
      InlineIsWalked(w, items[0], file, depth, stack, count);
      InlineItemsWalked(w, items[1..], file, depth, stack, count + first.references);
    }
  }

  lemma {:induction false} InlineMembersWalked(w: World, ms: seq<Member>, siblings: bool, file: Path, depth: nat,
                                               stack: seq<Marker>, count: nat)
    requires depth <= w.maxDepth && MembersBelow(w, stack, ms, siblings, file)
    requires var r := InlineMembers(w, ms, siblings, file, w.maxDepth - depth);
             r.Some? && count + r.value.references <= w.maxReferences
    ensures var r := InlineMembers(w, ms, siblings, file, w.maxDepth - depth).value;
            WalkMembers(w, ms, siblings, file, depth, stack, count) == Done(r.value, count + r.references)
    decreases w.maxDepth + 1 - depth, ms, 0
  {
    hide Walk, Inline, Below, MembersBelow;
    if ms != [] {
      MembersBelowParts(w, stack, ms, siblings, file);
      if siblings && ms[0].key == REF {
        InlineMembersWalked(w, ms[1..], siblings, file, depth, stack, count);
      } else {
        var first := Inline(w, ms[0].value, file, w.maxDepth - depth).value;
        InlineIsWalked(w, ms[0].value, file, depth, stack, count);
        InlineMembersWalked(w, ms[1..], siblings, file, depth, stack, count + first.references);
      }
    }
  }

  // ---------------------------------------------------------------- theorems

  /** Resolution succeeds exactly when the document has an inlining within the depth limit that takes no more
    * references than allowed, and then yields that inlining and their number. */
  lemma ResolveIsInlining(w: World, file: Path, r: Json, n: nat)
    requires file in w.files
    ensures Resolve(w, file) == Done(r, n) <==>
              Inline(w, w.files[file], file, w.maxDepth) == Some(Inlined(r, n)) && n <= w.maxReferences
  {
    hide Walk, Inline;
    var v := w.files[file];
    if Resolve(w, file).Done? { WalkIsInline(w, v, file, 0, [], 0); }
    if Inline(w, v, file, w.maxDepth).Some? && Inline(w, v, file, w.maxDepth).value.references <= w.maxReferences {
      InlineIsWalked(w, v, file, 0, [], 0);
    }
  }
}
