/**
 * The tags attached to content nodes: the semantic `Kind` of a node and the
 * formatting `Style`s it carries (core/src/main/kotlin/pages/ContentNodes.kt:268-304).
 * Both are open interfaces in the source; the built-in enumerations are modelled
 * exactly and every other implementation is an `Other...` value with a name.
 */
module ContentKinds {

  /** The enumeration `ContentKind`, in declaration order. */
  datatype ContentKind =
    | Comment | Constructors | Functions | Parameters | Properties | Classlikes | Packages
    | Symbol | Sample | Main | BriefComment | Empty | Source | TypeAliases | Cover
    | Inheritors | SourceSetDependentHint | Extensions | Annotations

  /** The interface `Kind`: a `ContentKind` constant or any other implementation. */
  datatype Kind = BuiltInKind(contentKind: ContentKind) | OtherKind(name: string)

  datatype TextStyle =
    | Bold | Italic | Strong | Strikethrough | Paragraph | Block | Span | Monospace
    | Indented | Cover | UnderCoverText | BreakableAfter | Breakable

  datatype ContentStyle = RowTitle | TabbedContent | WithExtraAttributes | RunnableSample | InDocumentationAnchor

  /** The interface `Style`: the two enumerations, the two singleton objects, or any other implementation. */
  datatype Style =
    | Text(textStyle: TextStyle)
    | Content(contentStyle: ContentStyle)
    | CommentTable
    | MultimoduleTable
    | OtherStyle(name: string)

  /** The private set `platformTagged` of the companion object. */
  const PlatformTagged: set<Kind> := {
    BuiltInKind(Constructors), BuiltInKind(Functions), BuiltInKind(Properties),
    BuiltInKind(Classlikes), BuiltInKind(Packages), BuiltInKind(Source),
    BuiltInKind(TypeAliases), BuiltInKind(Inheritors), BuiltInKind(Extensions)
  }

  /** `ContentKind.shouldBePlatformTagged(kind)`. */
  predicate ShouldBePlatformTagged(kind: Kind) {
    kind in PlatformTagged
  }

  /**
   * The complement of the platform-tagged kinds: every kind that is not a
   * `ContentKind`, and the ten `ContentKind` constants outside the set.
   */
  lemma NotPlatformTagged(kind: Kind)
    ensures !ShouldBePlatformTagged(kind) <==>
      kind.OtherKind? ||
      kind.contentKind in {Comment, Parameters, Symbol, Sample, Main, BriefComment, Empty,
                           ContentKind.Cover, SourceSetDependentHint, Annotations}
  {
    match kind
    case OtherKind(_) =>
    case BuiltInKind(k) =>
      match k
      case Comment => case Constructors => case Functions => case Parameters =>
      case Properties => case Classlikes => case Packages => case Symbol =>
      case Sample => case Main => case BriefComment => case Empty => case Source =>
      case TypeAliases => case Cover => case Inheritors => case SourceSetDependentHint =>
      case Extensions => case Annotations =>
  }

  /** Exactly nine kinds are platform-tagged, and all of them are `ContentKind` constants. */
  lemma PlatformTaggedSize()
    ensures |PlatformTagged| == 9
    ensures forall k :: k in PlatformTagged ==> k.BuiltInKind?
  {
  }
}
