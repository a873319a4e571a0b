/**
 * Properties of the content tree model: what the derived properties mean in
 * terms of the tree's leaves, and what each rebuild operation keeps and changes.
 */
module ContentNodeProperties {
  import opened Wrappers
  import opened ContentKinds
  import opened ContentNodes

  // ---------------------------------------------------------------------------
  // Leaves: an independent description of a whole subtree
  // ---------------------------------------------------------------------------

  /** The leaves of a tree, left to right (a table's header rows are not its children). */
  function Leaves(n: Node): (r: seq<Node>)
    ensures forall l :: l in r ==> IsLeaf(l)
    decreases Size(n), 0
  {
    if IsLeaf(n) then [n] else LeavesAll(ChildrenOf(n))
  }

  function LeavesAll(cs: seq<Node>): (r: seq<Node>)
    ensures forall l :: l in r ==> IsLeaf(l)
    decreases SizeAll(cs), 1
  {
    if cs == [] then [] else Leaves(cs[0]) + LeavesAll(cs[1..])
  }

  /** A node has content iff some leaf below it has content. */
  lemma {:induction false} HasAnyContentViaLeaves(n: Node)
    ensures HasAnyContent(n) <==> exists l :: l in Leaves(n) && HasAnyContent(l)
    decreases Size(n), 0
  {
    if IsComposite(n) {
      HasAnyContentViaLeavesAll(ChildrenOf(n));
    }
  }

  lemma {:induction false} HasAnyContentViaLeavesAll(cs: seq<Node>)
    ensures (exists c :: c in cs && HasAnyContent(c)) <==> exists l :: l in LeavesAll(cs) && HasAnyContent(l)
    decreases SizeAll(cs), 1
  {
    if cs != [] {
      HasAnyContentViaLeaves(cs[0]);
      HasAnyContentViaLeavesAll(cs[1..]);
      assert forall c :: c in cs <==> c == cs[0] || c in cs[1..];
    }
  }

  /** A node's source sets are exactly the union of the source sets stored on the leaves below it. */
  lemma {:induction false} SourceSetsViaLeaves(n: Node, s: SourceSet)
    ensures s in SourceSetsOf(n) <==> exists l :: l in Leaves(n) && s in l.sourceSets
    decreases Size(n), 0
  {
    if IsComposite(n) {
      SourceSetsViaLeavesAll(ChildrenOf(n), s);
    }
  }

  lemma {:induction false} SourceSetsViaLeavesAll(cs: seq<Node>, s: SourceSet)
    ensures (exists c :: c in cs && s in SourceSetsOf(c)) <==> exists l :: l in LeavesAll(cs) && s in l.sourceSets
    decreases SizeAll(cs), 1
  {
    if cs != [] {
      SourceSetsViaLeaves(cs[0], s);
      SourceSetsViaLeavesAll(cs[1..], s);
      assert forall c :: c in cs <==> c == cs[0] || c in cs[1..];
    }
  }

  /** A composite without children has no source sets and no content. */
  lemma EmptyComposite(n: Node)
    requires IsComposite(n) && ChildrenOf(n) == []
    ensures SourceSetsOf(n) == {}
    ensures !HasAnyContent(n)
  {
    forall s | s in SourceSetsOf(n) ensures false {
      SourceSetsViaLeaves(n, s);
    }
    HasAnyContentViaLeaves(n);
  }

  // ---------------------------------------------------------------------------
  // Leaves
  // ---------------------------------------------------------------------------

  /** A text has content iff it has a non-whitespace character; a break line always has content. */
  lemma LeafContent(n: Node)
    requires IsLeaf(n)
    ensures n.ContentText? ==> (HasAnyContent(n) <==> exists i :: 0 <= i < |n.text| && !IsWhitespace(n.text[i]))
    ensures n.ContentBreakLine? ==> HasAnyContent(n)
    ensures SourceSetsOf(n) == n.sourceSets && ChildrenOf(n) == []
  {
  }

  /** Re-tagging a leaf with its old source sets restores it exactly: nothing else was changed. */
  lemma WithSourceSetsRoundTrip(n: Node, sourceSets: set<SourceSet>)
    requires IsLeaf(n)
    ensures WithSourceSets(n, sourceSets).Success?
    ensures WithSourceSets(WithSourceSets(n, sourceSets).value, n.sourceSets) == Success(n)
  {
  }

  /** Restoring the old extras restores a node exactly: nothing else was changed. */
  lemma WithNewExtrasRoundTrip(n: Node, newExtras: Extra)
    requires !n.PlatformHintedContent?
    ensures WithNewExtras(n, newExtras).Success?
    ensures WithNewExtras(WithNewExtras(n, newExtras).value, ExtraOf(n)) == Success(n)
  {
  }

  // ---------------------------------------------------------------------------
  // transformChildren
  // ---------------------------------------------------------------------------

  /**
   * Every successful transform keeps the variant and maps exactly the node's
   * children, in order; only a table or a divergent group can fail, with a
   * failed cast.
   */
  lemma TransformChildrenShape(n: Node, f: Node -> Node)
    requires IsComposite(n)
    ensures TransformChildren(n, f).Success? ==>
      SameVariant(TransformChildren(n, f).value, n) &&
      ChildrenOf(TransformChildren(n, f).value) == Map(f, ChildrenOf(n))
    ensures TransformChildren(n, f).Failure? ==>
      (n.ContentTable? || n.ContentDivergentGroup?) && TransformChildren(n, f).error.ClassCast?
  {
    if n.ContentDivergentInstance? {
      DivergentInstanceTransform(n, f);
    }
  }

  /** The members of `Map(f, cs)` are the images of the members of `cs`. */
  lemma MapMembers(f: Node -> Node, cs: seq<Node>, x: Node)
    ensures x in Map(f, cs) <==> exists c :: c in cs && x == f(c)
  {
    if x in Map(f, cs) {
      var i :| 0 <= i < |cs| && Map(f, cs)[i] == x;
      assert cs[i] in cs;
    }
    if exists c :: c in cs && x == f(c) {
      var c :| c in cs && x == f(c);
      var i :| 0 <= i < |cs| && cs[i] == c;
      assert Map(f, cs)[i] == x;
    }
  }

  /**
   * After a successful transform the composite's source sets are the union of
   * the transformed children's.
   */
  lemma TransformChildrenSourceSets(n: Node, f: Node -> Node, s: SourceSet)
    requires IsComposite(n) && TransformChildren(n, f).Success?
    ensures s in SourceSetsOf(TransformChildren(n, f).value) <==>
            exists c :: c in ChildrenOf(n) && s in SourceSetsOf(f(c))
  {
    var m := TransformChildren(n, f).value;
    TransformChildrenShape(n, f);
    var cs := ChildrenOf(n);
    assert IsComposite(m);
    if s in SourceSetsOf(m) {
      var x :| x in ChildrenOf(m) && s in SourceSetsOf(x);
      MapMembers(f, cs, x);
    }
    if exists c :: c in cs && s in SourceSetsOf(f(c)) {
      var c :| c in cs && s in SourceSetsOf(f(c));
      MapMembers(f, cs, f(c));
    }
  }

  /** After a successful transform the composite has content iff some transformed child has. */
  lemma TransformChildrenContent(n: Node, f: Node -> Node)
    requires IsComposite(n) && TransformChildren(n, f).Success?
    ensures HasAnyContent(TransformChildren(n, f).value) <==> exists c :: c in ChildrenOf(n) && HasAnyContent(f(c))
  {
    var m := TransformChildren(n, f).value;
    TransformChildrenShape(n, f);
    var cs := ChildrenOf(n);
    assert IsComposite(m);
    if HasAnyContent(m) {
      var x :| x in ChildrenOf(m) && HasAnyContent(x);
      MapMembers(f, cs, x);
    }
    if exists c :: c in cs && HasAnyContent(f(c)) {
      var c :| c in cs && HasAnyContent(f(c));
      MapMembers(f, cs, f(c));
    }
  }

  /** Transforming with the identity leaves a well-typed composite as it was. */
  lemma TransformIdentity(n: Node)
    requires IsComposite(n) && WellTyped(n)
    ensures TransformChildren(n, x => x) == Success(n)
  {
    var id := (x: Node) => x;
    if n.ContentTable? || n.ContentDivergentGroup? || IsPlainComposite(n) {
      assert Map(id, n.children) == n.children;
    }
  }

  /**
   * The plain composites always succeed, keep their variant and every field
   * other than `children`, and map their children in order.
   */
  lemma PlainTransform(n: Node, f: Node -> Node)
    requires IsPlainComposite(n)
    ensures TransformChildren(n, f).Success?
    ensures var m := TransformChildren(n, f).value;
      SameVariant(m, n) && m.children == Map(f, n.children) && |m.children| == |n.children| &&
      m.dci == n.dci && m.style == n.style && m.extra == n.extra &&
      (n.ContentHeader? ==> m.level == n.level) &&
      (n.ContentCodeBlock? || n.ContentCodeInline? ==> m.language == n.language) &&
      (n.ContentDRILink? ==> m.target == n.target) &&
      (n.ContentResolvedLink? || n.ContentEmbeddedResource? ==> m.address == n.address) &&
      (n.ContentEmbeddedResource? ==> m.altText == n.altText) &&
      (n.ContentList? ==> m.ordered == n.ordered)
  {
  }

  /**
   * A table maps its body only and succeeds iff every transformed body row is
   * a `ContentGroup`; its header rows are never transformed.
   */
  lemma TableTransform(n: Node, f: Node -> Node)
    requires n.ContentTable?
    ensures TransformChildren(n, f).Success? <==>
      forall i :: 0 <= i < |n.children| ==> f(n.children[i]).ContentGroup?
    ensures TransformChildren(n, f).Success? ==>
      var m := TransformChildren(n, f).value;
      m.ContentTable? && m.header == n.header && m.children == Map(f, n.children) &&
      m.dci == n.dci && m.style == n.style && m.extra == n.extra
    ensures TransformChildren(n, f).Failure? ==> TransformChildren(n, f).error == ClassCast("ContentGroup")
  {
  }

  /** A table's source sets and content come from its body; its header rows do not count. */
  lemma TableIgnoresHeader(n: Node, header: seq<Node>)
    requires n.ContentTable?
    ensures SourceSetsOf(ContentTable(header, n.children, n.dci, n.style, n.extra)) == SourceSetsOf(n)
    ensures HasAnyContent(ContentTable(header, n.children, n.dci, n.style, n.extra)) == HasAnyContent(n)
  {
  }

  /**
   * A divergent group succeeds iff every transformed child is a
   * `ContentDivergentInstance`, and keeps its group id and hint flag.
   */
  lemma DivergentGroupTransform(n: Node, f: Node -> Node)
    requires n.ContentDivergentGroup?
    ensures TransformChildren(n, f).Success? <==>
      forall i :: 0 <= i < |n.children| ==> f(n.children[i]).ContentDivergentInstance?
    ensures TransformChildren(n, f).Success? ==>
      var m := TransformChildren(n, f).value;
      m.ContentDivergentGroup? && m.children == Map(f, n.children) &&
      m.groupID == n.groupID && m.implicitlySourceSetHinted == n.implicitlySourceSetHinted &&
      m.dci == n.dci && m.style == n.style && m.extra == n.extra
    ensures TransformChildren(n, f).Failure? ==>
      TransformChildren(n, f).error == ClassCast("ContentDivergentInstance")
  {
  }

  /** Mapping a well-typed list with a transform that keeps nodes well typed gives a well-typed list. */
  lemma MapWellTyped(f: Node -> Node, cs: seq<Node>)
    requires forall c :: c in cs ==> WellTyped(c)
    requires forall x :: WellTyped(x) ==> WellTyped(f(x))
    ensures forall x :: x in Map(f, cs) ==> WellTyped(x)
  {
    forall x | x in Map(f, cs) ensures WellTyped(x) {
      MapMembers(f, cs, x);
    }
  }

  /** A transform that keeps every node well typed keeps the transformed composite well typed. */
  lemma TransformPreservesWellTyped(n: Node, f: Node -> Node)
    requires IsComposite(n) && WellTyped(n)
    requires forall x :: WellTyped(x) ==> WellTyped(f(x))
    ensures TransformChildren(n, f).Success? ==> WellTyped(TransformChildren(n, f).value)
  {
    if TransformChildren(n, f).Success? {
      var m := TransformChildren(n, f).value;
      TransformChildrenShape(n, f);
      assert forall c :: c in ChildrenOf(n) ==> WellTyped(c);
      MapWellTyped(f, ChildrenOf(n));
      assert forall c :: c in ChildrenOf(m) ==> WellTyped(c);
      if n.ContentTable? {
        assert m.header == n.header;
        assert forall i :: 0 <= i < |m.header| ==> m.header[i].ContentGroup? && WellTyped(m.header[i]);
        assert forall i :: 0 <= i < |m.children| ==> m.children[i].ContentGroup?;
      } else if n.ContentDivergentGroup? {
        assert forall i :: 0 <= i < |m.children| ==> m.children[i].ContentDivergentInstance?;
      } else {
        assert !m.ContentTable? && !m.ContentDivergentGroup?;
      }
    }
  }

  // ---------------------------------------------------------------------------
  // ContentDivergentInstance
  // ---------------------------------------------------------------------------

  /**
   * The children of a divergent instance are `before`, `divergent` and
   * `after` in that order, the absent ones dropped: one to three children,
   * always including `divergent`.
   */
  lemma DivergentInstanceChildren(n: Node)
    requires n.ContentDivergentInstance?
    ensures var cs := ChildrenOf(n);
      |cs| == 1 + (if n.before.Some? then 1 else 0) + (if n.after.Some? then 1 else 0) &&
      1 <= |cs| <= 3 &&
      cs[if n.before.Some? then 1 else 0] == n.divergent &&
      (n.before.Some? ==> cs[0] == n.before.value) &&
      (n.after.Some? ==> cs[|cs| - 1] == n.after.value)
  {
  }

  /** A divergent instance's source sets are those of its present parts. */
  lemma DivergentInstanceSourceSets(n: Node)
    requires n.ContentDivergentInstance?
    ensures SourceSetsOf(n) ==
      (if n.before.Some? then SourceSetsOf(n.before.value) else {}) +
      SourceSetsOf(n.divergent) +
      (if n.after.Some? then SourceSetsOf(n.after.value) else {})
  {
    var cs := ChildrenOf(n);
    DivergentInstanceChildren(n);
    assert forall c :: c in cs <==>
      (n.before.Some? && c == n.before.value) || c == n.divergent || (n.after.Some? && c == n.after.value);
  }

  /**
   * Transforming a divergent instance applies the transformer to each present
   * part, keeps absent parts absent, and so maps its children list.
   */
  lemma DivergentInstanceTransform(n: Node, f: Node -> Node)
    requires n.ContentDivergentInstance?
    ensures TransformChildren(n, f).Success?
    ensures var m := TransformChildren(n, f).value;
      m.ContentDivergentInstance? &&
      (m.before.Some? <==> n.before.Some?) && (n.before.Some? ==> m.before.value == f(n.before.value)) &&
      m.divergent == f(n.divergent) &&
      (m.after.Some? <==> n.after.Some?) && (n.after.Some? ==> m.after.value == f(n.after.value)) &&
      m.dci == n.dci && m.style == n.style && m.extra == n.extra &&
      ChildrenOf(m) == Map(f, ChildrenOf(n))
  {
    ListOfNotNullMap(f, n.before, n.divergent, n.after);
  }

  /** Mapping the parts and then dropping the absent ones is mapping the list of present parts. */
  lemma ListOfNotNullMap(f: Node -> Node, before: Option<Node>, divergent: Node, after: Option<Node>)
    ensures ListOfNotNull(OptionMap(f, before), f(divergent), OptionMap(f, after)) ==
            Map(f, ListOfNotNull(before, divergent, after))
  {
    var xs, ys := OptionToSeq(before), OptionToSeq(after);
    var mapped := ListOfNotNull(OptionMap(f, before), f(divergent), OptionMap(f, after));
    var cs := ListOfNotNull(before, divergent, after);
    assert |mapped| == |cs|;
    forall i | 0 <= i < |cs| ensures mapped[i] == f(cs[i]) {
      if i < |xs| {
        assert cs[i] == before.value && mapped[i] == f(before.value);
      } else if i == |xs| {
        assert cs[i] == divergent && mapped[i] == f(divergent);
      } else {
        assert cs[i] == after.value && mapped[i] == f(after.value);
      }
    }
  }

  // ---------------------------------------------------------------------------
  // PlatformHintedContent
  // ---------------------------------------------------------------------------

  /**
   * A platform-hinted wrapper has exactly its inner node as child, shows the
   * inner node's dci, style, extras, source sets and content, transforms into
   * a wrapper around the transformed inner node, and rejects both re-tagging
   * operations.
   */
  lemma PlatformHinted(n: Node, f: Node -> Node, e: Extra, ss: set<SourceSet>)
    requires n.PlatformHintedContent?
    ensures ChildrenOf(n) == [n.inner]
    ensures DciOf(n) == DciOf(n.inner) && StyleOf(n) == StyleOf(n.inner) && ExtraOf(n) == ExtraOf(n.inner)
    ensures SourceSetsOf(n) == SourceSetsOf(n.inner) && (HasAnyContent(n) <==> HasAnyContent(n.inner))
    ensures TransformChildren(n, f) == Success(PlatformHintedContent(f(n.inner)))
    ensures WithNewExtras(n, e).Failure? && WithSourceSets(n, ss).Failure?
  {
    assert forall c :: c in ChildrenOf(n) <==> c == n.inner;
  }

  /** The innermost node under any number of platform-hinted wrappers. */
  function Unwrap(n: Node): (r: Node)
    ensures !r.PlatformHintedContent?
  {
    match n
    case PlatformHintedContent(inner) => Unwrap(inner)
    case _ => n
  }

  /**
   * Through nested wrappers, dci, style and extras are those
   * stored on the innermost node.
   */
  lemma {:induction false} DelegationToInnermost(n: Node)
    ensures DciOf(n) == Unwrap(n).dci && StyleOf(n) == Unwrap(n).style && ExtraOf(n) == Unwrap(n).extra
  {
    match n
    case PlatformHintedContent(inner) => DelegationToInnermost(inner);
    case _ =>
  }

  /** `hasStyle(s)` holds iff `s` is in the style set stored on the innermost node (the node itself when it is no wrapper). */
  lemma HasStyleThroughWrappers(n: Node, s: Style)
    ensures HasStyle(n, s) <==> s in Unwrap(n).style
    ensures !n.PlatformHintedContent? ==> (HasStyle(n, s) <==> s in n.style)
  {
    DelegationToInnermost(n);
  }
}
