/**
 * The documentation content tree (core/src/main/kotlin/pages/ContentNodes.kt).
 *
 * Every Kotlin class implementing `ContentNode` is one constructor of `Node`.
 * A constructor holds exactly the fields its Kotlin class stores; the
 * properties the source derives (`children` of a divergent instance or of a
 * platform-hinted wrapper, `sourceSets` of every composite, `dci`, `style` and
 * `extra` of a platform-hinted wrapper) are the functions `ChildrenOf`,
 * `SourceSetsOf`, `DciOf`, `StyleOf` and `ExtraOf`.
 */
module ContentNodes {
  import opened Wrappers
  import opened ContentKinds

  /** Symbol reference (`DRI`), not part of this model. */
  type DRI(==)

  /** `ContentSourceSet`, not part of this model. */
  type SourceSet(==)

  /** `PropertyContainer<ContentNode>`, the node's extra properties, not part of this model. */
  type Extra(==)

  /** `DCI`: the symbols a node documents and its kind. */
  datatype DCI = DCI(dri: set<DRI>, kind: Kind)

  /** `ContentDivergentGroup.GroupID`. */
  datatype GroupID = GroupID(name: string)

  datatype Node =
    | ContentText(text: string, dci: DCI, sourceSets: set<SourceSet>, style: set<Style>, extra: Extra)
    | ContentBreakLine(sourceSets: set<SourceSet>, dci: DCI, style: set<Style>, extra: Extra)
    | ContentHeader(children: seq<Node>, level: int, dci: DCI, style: set<Style>, extra: Extra)
    | ContentCodeBlock(children: seq<Node>, language: string, dci: DCI, style: set<Style>, extra: Extra)
    | ContentCodeInline(children: seq<Node>, language: string, dci: DCI, style: set<Style>, extra: Extra)
      /** `address` of a `ContentDRILink`: the symbol the link still has to be resolved to. */
    | ContentDRILink(children: seq<Node>, target: DRI, dci: DCI, style: set<Style>, extra: Extra)
    | ContentResolvedLink(children: seq<Node>, address: string, dci: DCI, style: set<Style>, extra: Extra)
    | ContentEmbeddedResource(children: seq<Node>, address: string, altText: Option<string>,
                              dci: DCI, style: set<Style>, extra: Extra)
      /** `header` and `children` (the body) are lists of `ContentGroup` in the source; see `WellTyped`. */
    | ContentTable(header: seq<Node>, children: seq<Node>, dci: DCI, style: set<Style>, extra: Extra)
    | ContentList(children: seq<Node>, ordered: bool, dci: DCI, style: set<Style>, extra: Extra)
    | ContentGroup(children: seq<Node>, dci: DCI, style: set<Style>, extra: Extra)
      /** `children` is a list of `ContentDivergentInstance` in the source; see `WellTyped`. */
    | ContentDivergentGroup(children: seq<Node>, dci: DCI, style: set<Style>, extra: Extra,
                            groupID: GroupID, implicitlySourceSetHinted: bool)
    | ContentDivergentInstance(before: Option<Node>, divergent: Node, after: Option<Node>,
                               dci: DCI, style: set<Style>, extra: Extra)
    | PlatformHintedContent(inner: Node)

  /** The exceptions the source throws. */
  datatype NodeError =
    | UnsupportedOperation(message: Option<string>)
      /** A failed `as` cast to the named class. */
    | ClassCast(expected: string)

  const PlatformHintedExtrasMessage := "This method should not be called on this PlatformHintedContent"

  predicate IsLeaf(n: Node) {
    n.ContentText? || n.ContentBreakLine?
  }

  /** The classes implementing `ContentComposite`. */
  predicate IsComposite(n: Node) {
    !IsLeaf(n)
  }

  /** Both nodes are built by the same constructor (are instances of the same Kotlin class). */
  predicate SameVariant(a: Node, b: Node) {
    && a.ContentText? == b.ContentText?
    && a.ContentBreakLine? == b.ContentBreakLine?
    && a.ContentHeader? == b.ContentHeader?
    && a.ContentCodeBlock? == b.ContentCodeBlock?
    && a.ContentCodeInline? == b.ContentCodeInline?
    && a.ContentDRILink? == b.ContentDRILink?
    && a.ContentResolvedLink? == b.ContentResolvedLink?
    && a.ContentEmbeddedResource? == b.ContentEmbeddedResource?
    && a.ContentTable? == b.ContentTable?
    && a.ContentList? == b.ContentList?
    && a.ContentGroup? == b.ContentGroup?
    && a.ContentDivergentGroup? == b.ContentDivergentGroup?
    && a.ContentDivergentInstance? == b.ContentDivergentInstance?
    && a.PlatformHintedContent? == b.PlatformHintedContent?
  }

  /** The composites whose transform maps a stored `children` list and cannot fail. */
  predicate IsPlainComposite(n: Node) {
    n.ContentHeader? || n.ContentCodeBlock? || n.ContentCodeInline? || n.ContentDRILink? ||
    n.ContentResolvedLink? || n.ContentEmbeddedResource? || n.ContentList? || n.ContentGroup?
  }

  // ---------------------------------------------------------------------------
  // A size measure, so that functions recursing through `ChildrenOf` terminate
  // ---------------------------------------------------------------------------

  function Size(n: Node): (r: nat)
    ensures r >= 1
    decreases n
  {
    match n
    case ContentText(_, _, _, _, _) => 1
    case ContentBreakLine(_, _, _, _) => 1
    case ContentTable(h, cs, _, _, _) => 1 + SizeAll(h) + SizeAll(cs)
    case ContentDivergentInstance(b, d, a, _, _, _) => 1 + SizeOption(b) + Size(d) + SizeOption(a)
    case PlatformHintedContent(inner) => 1 + Size(inner)
    case _ => 1 + SizeAll(n.children)
  }

  function SizeOption(o: Option<Node>): nat
    decreases o
  {
    match o
    case None => 0
    case Some(c) => Size(c)
  }

  /** The sizes of a list add up; each element is at most the total. */
  function SizeAll(cs: seq<Node>): (r: nat)
    ensures r >= |cs|
    ensures forall i :: 0 <= i < |cs| ==> Size(cs[i]) <= r
    decreases cs
  {
    if cs == [] then 0 else Size(cs[0]) + SizeAll(cs[1..])
  }

  lemma {:induction false} SizeAllConcat(xs: seq<Node>, ys: seq<Node>)
    ensures SizeAll(xs + ys) == SizeAll(xs) + SizeAll(ys)
    decreases |xs|
  {
    if xs == [] {
      assert xs + ys == ys;
    } else {
      assert (xs + ys)[1..] == xs[1..] + ys;
      SizeAllConcat(xs[1..], ys);
    }
  }

  lemma SizeAllOption(o: Option<Node>)
    ensures SizeAll(OptionToSeq(o)) == SizeOption(o)
  {
    if o.Some? {
      assert OptionToSeq(o)[1..] == [];
    }
  }

  lemma SizeAllMembers(cs: seq<Node>)
    ensures forall c :: c in cs ==> Size(c) <= SizeAll(cs)
  {
    forall c | c in cs ensures Size(c) <= SizeAll(cs) {
      var i :| 0 <= i < |cs| && cs[i] == c;
    }
  }

  lemma ListOfNotNullSize(before: Option<Node>, divergent: Node, after: Option<Node>)
    ensures SizeAll(ListOfNotNull(before, divergent, after)) == SizeOption(before) + Size(divergent) + SizeOption(after)
  {
    SizeAllConcat(OptionToSeq(before) + [divergent], OptionToSeq(after));
    SizeAllConcat(OptionToSeq(before), [divergent]);
    SizeAllOption(before);
    SizeAllOption(after);
    assert SizeAll([divergent]) == Size(divergent) by { assert [divergent][1..] == []; }
  }

  // ---------------------------------------------------------------------------
  // The derived properties of `ContentNode`
  // ---------------------------------------------------------------------------

  /** `listOfNotNull(before, divergent, after)`. */
  function ListOfNotNull(before: Option<Node>, divergent: Node, after: Option<Node>): seq<Node> {
    OptionToSeq(before) + [divergent] + OptionToSeq(after)
  }

  /**
   * `children`: empty for a leaf (the interface default), and otherwise the
   * list the class stores or derives. A table's children are its body only.
   */
  function ChildrenOf(n: Node): (r: seq<Node>)
    ensures SizeAll(r) < Size(n)
    ensures forall c :: c in r ==> Size(c) < Size(n)
  {
    if IsLeaf(n) then []
    else if n.ContentDivergentInstance? then
      var cs := ListOfNotNull(n.before, n.divergent, n.after);
      DivergentInstanceSize(n);
      SizeAllMembers(cs);
      cs
    else if n.PlatformHintedContent? then
      PlatformHintedSize(n);
      SizeAllMembers([n.inner]);
      [n.inner]
    else
      StoredChildrenSize(n);
      SizeAllMembers(n.children);
      n.children
  }

  lemma DivergentInstanceSize(n: Node)
    requires n.ContentDivergentInstance?
    ensures SizeAll(ListOfNotNull(n.before, n.divergent, n.after)) < Size(n)
  {
    ListOfNotNullSize(n.before, n.divergent, n.after);
  }

  lemma PlatformHintedSize(n: Node)
    requires n.PlatformHintedContent?
    ensures SizeAll([n.inner]) < Size(n)
  {
    assert [n.inner][1..] == [];
  }

  lemma StoredChildrenSize(n: Node)
    requires IsComposite(n) && !n.ContentDivergentInstance? && !n.PlatformHintedContent?
    ensures SizeAll(n.children) < Size(n)
  {
  }

  /** `dci`: stored, except that a platform-hinted wrapper delegates to its inner node. */
  function DciOf(n: Node): DCI {
    match n
    case PlatformHintedContent(inner) => DciOf(inner)
    case _ => n.dci
  }

  /** `style`: stored, except that a platform-hinted wrapper delegates to its inner node. */
  function StyleOf(n: Node): set<Style> {
    match n
    case PlatformHintedContent(inner) => StyleOf(inner)
    case _ => n.style
  }

  /** `extra`: stored, except that a platform-hinted wrapper delegates to its inner node. */
  function ExtraOf(n: Node): Extra {
    match n
    case PlatformHintedContent(inner) => ExtraOf(inner)
    case _ => n.extra
  }

  /**
   * `sourceSets`: stored on a leaf; on a composite, `children.flatMap { it.sourceSets }.toSet()`.
   */
  function SourceSetsOf(n: Node): set<SourceSet>
    decreases Size(n)
  {
    if IsLeaf(n) then n.sourceSets
    else set c, s | c in ChildrenOf(n) && s in SourceSetsOf(c) :: s
  }

  /** Kotlin's `Char.isWhitespace()` on the JVM: `Character.isWhitespace || Character.isSpaceChar`. */
  predicate IsWhitespace(c: char) {
    ('\t' <= c <= '\r') || ('\U{1C}' <= c <= ' ') ||
    c == '\U{A0}' || c == '\U{1680}' || ('\U{2000}' <= c <= '\U{200A}') ||
    c == '\U{2028}' || c == '\U{2029}' || c == '\U{202F}' || c == '\U{205F}' || c == '\U{3000}'
  }

  /** Kotlin's `CharSequence.isBlank()`: empty, or whitespace only. */
  predicate IsBlank(s: string) {
    forall i :: 0 <= i < |s| ==> IsWhitespace(s[i])
  }

  /** `hasAnyContent()`. */
  predicate HasAnyContent(n: Node)
    decreases Size(n)
  {
    if n.ContentText? then !IsBlank(n.text)
    else if n.ContentBreakLine? then true
    else exists c :: c in ChildrenOf(n) && HasAnyContent(c)
  }

  /** `ContentNode.hasStyle(style)`. */
  predicate HasStyle(n: Node, s: Style) {
    s in StyleOf(n)
  }

  // ---------------------------------------------------------------------------
  // Rebuild operations
  // ---------------------------------------------------------------------------

  /**
   * `withSourceSets(sourceSets)`: a leaf is copied with the new source sets;
   * every composite throws `UnsupportedOperationException()`.
   */
  function WithSourceSets(n: Node, sourceSets: set<SourceSet>): (r: Result<Node, NodeError>)
    ensures IsLeaf(n) ==>
      r.Success? && SameVariant(r.value, n) && SourceSetsOf(r.value) == sourceSets &&
      r.value.dci == n.dci && r.value.style == n.style && r.value.extra == n.extra &&
      (n.ContentText? ==> r.value.text == n.text) && ChildrenOf(r.value) == []
    ensures IsComposite(n) ==> r == Failure(UnsupportedOperation(None))
  {
    match n
    case ContentText(t, d, _, s, e) => Success(ContentText(t, d, sourceSets, s, e))
    case ContentBreakLine(_, d, s, e) => Success(ContentBreakLine(sourceSets, d, s, e))
    case _ => Failure(UnsupportedOperation(None))
  }

  /**
   * `withNewExtras(newExtras)`: every node is copied with the new extras,
   * except a platform-hinted wrapper, which throws.
   */
  function WithNewExtras(n: Node, newExtras: Extra): (r: Result<Node, NodeError>)
    ensures n.PlatformHintedContent? ==> r == Failure(UnsupportedOperation(Some(PlatformHintedExtrasMessage)))
    ensures !n.PlatformHintedContent? ==>
      r.Success? && SameVariant(r.value, n) && ExtraOf(r.value) == newExtras &&
      ChildrenOf(r.value) == ChildrenOf(n) && DciOf(r.value) == DciOf(n) && StyleOf(r.value) == StyleOf(n) &&
      SourceSetsOf(r.value) == SourceSetsOf(n)
    ensures !n.PlatformHintedContent? ==> r == Success(n.(extra := newExtras))
  {
    var e := newExtras;
    match n
    case ContentText(t, d, ss, s, _) => Success(ContentText(t, d, ss, s, e))
    case ContentBreakLine(ss, d, s, _) => Success(ContentBreakLine(ss, d, s, e))
    case ContentHeader(cs, l, d, s, _) => Success(ContentHeader(cs, l, d, s, e))
    case ContentCodeBlock(cs, l, d, s, _) => Success(ContentCodeBlock(cs, l, d, s, e))
    case ContentCodeInline(cs, l, d, s, _) => Success(ContentCodeInline(cs, l, d, s, e))
    case ContentDRILink(cs, t, d, s, _) => Success(ContentDRILink(cs, t, d, s, e))
    case ContentResolvedLink(cs, a, d, s, _) => Success(ContentResolvedLink(cs, a, d, s, e))
    case ContentEmbeddedResource(cs, a, alt, d, s, _) => Success(ContentEmbeddedResource(cs, a, alt, d, s, e))
    case ContentTable(h, cs, d, s, _) => Success(ContentTable(h, cs, d, s, e))
    case ContentList(cs, o, d, s, _) => Success(ContentList(cs, o, d, s, e))
    case ContentGroup(cs, d, s, _) => Success(ContentGroup(cs, d, s, e))
    case ContentDivergentGroup(cs, d, s, _, g, h) => Success(ContentDivergentGroup(cs, d, s, e, g, h))
    case ContentDivergentInstance(b, v, a, d, s, _) => Success(ContentDivergentInstance(b, v, a, d, s, e))
    case PlatformHintedContent(_) => Failure(UnsupportedOperation(Some(PlatformHintedExtrasMessage)))
  }

  /** `children.map(transformer)`. */
  function Map(f: Node -> Node, cs: seq<Node>): (r: seq<Node>)
    ensures |r| == |cs|
    ensures forall i :: 0 <= i < |cs| ==> r[i] == f(cs[i])
  {
    seq(|cs|, i requires 0 <= i < |cs| => f(cs[i]))
  }

  /**
   * `transformChildren(transformer)` of a composite. The plain composites copy
   * themselves with mapped children; a table maps its body and casts every
   * result to `ContentGroup`; a divergent group maps its instances and casts
   * every result to `ContentDivergentInstance`; a divergent instance maps its
   * present parts; a platform-hinted wrapper maps its inner node.
   */
  function TransformChildren(n: Node, f: Node -> Node): (r: Result<Node, NodeError>)
    requires IsComposite(n)
  {
    match n
    case ContentTable(h, cs, d, s, e) =>
      var body := Map(f, cs);
      if forall i :: 0 <= i < |body| ==> body[i].ContentGroup? then Success(ContentTable(h, body, d, s, e))
      else Failure(ClassCast("ContentGroup"))
    case ContentDivergentGroup(cs, d, s, e, g, hinted) =>
      var instances := Map(f, cs);
      if forall i :: 0 <= i < |instances| ==> instances[i].ContentDivergentInstance? then
        Success(ContentDivergentGroup(instances, d, s, e, g, hinted))
      else Failure(ClassCast("ContentDivergentInstance"))
    case ContentDivergentInstance(b, v, a, d, s, e) =>
      Success(ContentDivergentInstance(OptionMap(f, b), f(v), OptionMap(f, a), d, s, e))
    case PlatformHintedContent(inner) => Success(PlatformHintedContent(f(inner)))
    case ContentHeader(cs, l, d, s, e) => Success(ContentHeader(Map(f, cs), l, d, s, e))
    case ContentCodeBlock(cs, l, d, s, e) => Success(ContentCodeBlock(Map(f, cs), l, d, s, e))
    case ContentCodeInline(cs, l, d, s, e) => Success(ContentCodeInline(Map(f, cs), l, d, s, e))
    case ContentDRILink(cs, t, d, s, e) => Success(ContentDRILink(Map(f, cs), t, d, s, e))
    case ContentResolvedLink(cs, a, d, s, e) => Success(ContentResolvedLink(Map(f, cs), a, d, s, e))
    case ContentEmbeddedResource(cs, a, alt, d, s, e) => Success(ContentEmbeddedResource(Map(f, cs), a, alt, d, s, e))
    case ContentList(cs, o, d, s, e) => Success(ContentList(Map(f, cs), o, d, s, e))
    case ContentGroup(cs, d, s, e) => Success(ContentGroup(Map(f, cs), d, s, e))
  }

  /**
   * The secondary constructor `ContentHeader(level, c)`: a header with the
   * children, dci, style and extra of the composite `c`.
   */
  function HeaderFrom(level: int, c: Node): (r: Node)
    requires IsComposite(c)
    ensures r.ContentHeader? && r.level == level
    ensures ChildrenOf(r) == ChildrenOf(c)
    ensures SourceSetsOf(r) == SourceSetsOf(c) && (HasAnyContent(r) <==> HasAnyContent(c))
    ensures DciOf(r) == DciOf(c) && StyleOf(r) == StyleOf(c) && ExtraOf(r) == ExtraOf(c)
  {
    ContentHeader(ChildrenOf(c), level, DciOf(c), StyleOf(c), ExtraOf(c))
  }

  /**
   * The static types the source gives to structurally constrained fields:
   * a table's header and body hold only `ContentGroup`s and a divergent group
   * holds only `ContentDivergentInstance`s, throughout the tree.
   */
  predicate WellTyped(n: Node)
    decreases Size(n)
  {
    (n.ContentTable? ==>
       (forall i :: 0 <= i < |n.header| ==> n.header[i].ContentGroup? && WellTyped(n.header[i])) &&
       (forall i :: 0 <= i < |n.children| ==> n.children[i].ContentGroup?)) &&
    (n.ContentDivergentGroup? ==>
       forall i :: 0 <= i < |n.children| ==> n.children[i].ContentDivergentInstance?) &&
    (forall c :: c in ChildrenOf(n) ==> WellTyped(c))
  }
}
