# Dokka content tree and Javadoc provider dispatch, in Dafny

This project models two pure parts of Dokka, the Kotlin documentation engine.

1. **The content tree** (`core/src/main/kotlin/pages/ContentNodes.kt`). Pages are built from an immutable tree of content nodes. There are two leaves (`ContentText`, `ContentBreakLine`). There are twelve composites: header, code block, inline code, DRI link, resolved link, embedded resource, table, list, group, divergent group, divergent instance, and the `PlatformHintedContent` wrapper. Each node has a `DCI` (the symbols it documents plus its `Kind`), a set of source sets (platforms), a set of `Style`s and extra properties.
   - A composite's source sets are derived from its children.
   - `hasAnyContent` is recursive.
   - Nodes are rebuilt, never mutated, by `withSourceSets`, `withNewExtras` and `transformChildren`.
2. **Javadoc external-location dispatch** (`plugins/location/.../JavadocExternalLocationProviderFactory.kt`). This picks a location provider for an external documentation link:
   - the Android provider for the two Android package-list URLs;
   - otherwise a Javadoc provider with two separator literals chosen by the link format;
   - otherwise no provider.

Files and modules:

- `wrappers.dfy` (`Wrappers`): `Option` (Kotlin's nullable values) and `Result` (thrown exceptions).
- `content_kinds.dfy` (`ContentKinds`): `ContentKind`, `Kind`, `TextStyle`, `ContentStyle`, `Style` and `ShouldBePlatformTagged`. `Kind` and `Style` are open interfaces in Kotlin. Their built-in implementations are modelled exactly, and any other implementation is an `OtherKind`/`OtherStyle` value.
- `content_nodes.dfy` (`ContentNodes`): the `Node` datatype and the node operations.
  - Each constructor stores exactly the fields its Kotlin class stores.
  - Derived properties are functions: `ChildrenOf`, `SourceSetsOf`, `DciOf`, `StyleOf`, `ExtraOf`, `HasAnyContent`, `HasStyle`.
  - The rebuild operations (`WithSourceSets`, `WithNewExtras`, `TransformChildren`) return `Result<Node, NodeError>`. Kotlin's `UnsupportedOperationException` becomes an `UnsupportedOperation` error, and a failed `as` cast becomes a `ClassCast` error.
  - Recursion through the derived children terminates by the `Size` measure.
- `content_node_properties.dfy` (`ContentNodeProperties`): lemmas about the tree.
  - `Leaves` (the leaves of a subtree, in order) is an independent reference: source sets and content are proved to be those of the leaves.
  - Lemmas state what each transform keeps and changes, for each variant.
- `javadoc_location.dfy` (`JavadocLocation`): `GetExternalLocationProvider` and lemmas stating, branch by branch, which provider it chooses.

`ContentDRILink`'s `address: DRI` field is called `target`. Dafny requires same-named fields of one datatype to have one type, and the other two `address` fields are strings.

A table's `children` is its body only, as in the source. The header row-groups are therefore not children, and they contribute neither source sets nor content (`TableIgnoresHeader`). The source's typing of `header`, a table's body and a divergent group's children is the predicate `WellTyped`, which `TransformChildren` preserves.

## Model

| member | source | states |
|---|---|---|
| `ContentNodes.WithSourceSets` | core/src/main/kotlin/pages/ContentNodes.kt:148-153 | a leaf is copied with exactly the new source sets, keeping its variant, text, dci, style and extras and having no children; every composite is rejected with an unsupported-operation error without a message |
| `ContentNodeProperties.WithSourceSetsRoundTrip` | core/src/main/kotlin/pages/ContentNodes.kt:34-46 | re-tagging a re-tagged leaf with its old source sets gives back the original leaf, so nothing but the source sets changed |
| `ContentNodes.WithNewExtras` | core/src/main/kotlin/pages/ContentNodes.kt:33-261 | every node but a platform-hinted wrapper is copied with exactly the new extras and every other field unchanged (the `copy(extra = newExtras)` overrides at :33, :45, :60, :77, :91, :109, :124, :140, :168, :183, :196, :215 and :234), so its variant, children, source sets, dci and style are kept; the wrapper is rejected with its exact exception message (:246-261) |
| `ContentNodeProperties.WithNewExtrasRoundTrip` | core/src/main/kotlin/pages/ContentNodes.kt:33-45 | re-tagging with the old extras undoes `withNewExtras`: it gives back the original node |
| `ContentNodes.HeaderFrom` | core/src/main/kotlin/pages/ContentNodes.kt:58 | a header built from a composite has that composite's children, source sets, content, dci, style and extras, and the given level |
| `ContentNodeProperties.LeafContent` | core/src/main/kotlin/pages/ContentNodes.kt:26-48 | a text has content iff it has a non-whitespace character; a break line always has content; a leaf's source sets are its stored ones and it has no children |
| `ContentNodeProperties.SourceSetsViaLeaves` | core/src/main/kotlin/pages/ContentNodes.kt:151 | a source set belongs to a node iff it is stored on some leaf below it: composite source sets are the union over the whole subtree |
| `ContentNodeProperties.HasAnyContentViaLeaves` | core/src/main/kotlin/pages/ContentNodes.kt:157 | a node has content iff some leaf below it has content |
| `ContentNodeProperties.EmptyComposite` | core/src/main/kotlin/pages/ContentNodes.kt:151-157 | a composite with no children has the empty set of source sets and no content |
| `ContentNodeProperties.TransformChildrenShape` | core/src/main/kotlin/pages/ContentNodes.kt:155 | a successful transform keeps the variant and its children are the old children mapped in order; only a table or a divergent group can fail, and then with a cast error |
| `ContentNodeProperties.TransformChildrenSourceSets` | core/src/main/kotlin/pages/ContentNodes.kt:151-155 | after a successful transform the source sets are exactly the union of the transformed children's |
| `ContentNodeProperties.TransformChildrenContent` | core/src/main/kotlin/pages/ContentNodes.kt:155-157 | after a successful transform the node has content iff some transformed child has |
| `ContentNodeProperties.TransformIdentity` | core/src/main/kotlin/pages/ContentNodes.kt:155 | transforming a well-typed composite with the identity gives it back unchanged |
| `ContentNodeProperties.PlainTransform` | core/src/main/kotlin/pages/ContentNodes.kt:62-199 | header, code block, inline code, DRI link, resolved link, embedded resource, list and group always succeed; they keep their variant, level, language, target, address, alt text, ordered flag, dci, style and extras; their new children are the old ones mapped, with the same length and order |
| `ContentNodeProperties.TableTransform` | core/src/main/kotlin/pages/ContentNodes.kt:170-171 | a table transform succeeds iff every transformed body row is a `ContentGroup`; on success the header is untouched, the body is mapped and dci, style and extras are kept; otherwise it fails with a `ContentGroup` cast error |
| `ContentNodeProperties.TableIgnoresHeader` | core/src/main/kotlin/pages/ContentNodes.kt:161-163 | replacing a table's header rows changes neither its source sets nor its content |
| `ContentNodeProperties.DivergentGroupTransform` | core/src/main/kotlin/pages/ContentNodes.kt:218-219 | a divergent-group transform succeeds iff every transformed child is a `ContentDivergentInstance`; on success the children are mapped and group id, hint flag, dci, style and extras are kept; otherwise it fails with a `ContentDivergentInstance` cast error |
| `ContentNodeProperties.TransformPreservesWellTyped` | core/src/main/kotlin/pages/ContentNodes.kt:161-219 | a transformer that keeps nodes well typed keeps the transformed composite well typed: table rows stay groups and divergent-group children stay instances |
| `ContentNodeProperties.DivergentInstanceChildren` | core/src/main/kotlin/pages/ContentNodes.kt:231-232 | a divergent instance's children are before, divergent and after in that order with absent parts dropped: 1 to 3 children, `divergent` always present at index 0 or 1 |
| `ContentNodeProperties.DivergentInstanceSourceSets` | core/src/main/kotlin/pages/ContentNodes.kt:223-232 | a divergent instance's source sets are the union of those of its present parts |
| `ContentNodeProperties.DivergentInstanceTransform` | core/src/main/kotlin/pages/ContentNodes.kt:237-242 | the transformer is applied to each present part; absent parts stay absent; dci, style and extras are kept; the children list is the old one mapped |
| `ContentNodeProperties.PlatformHinted` | core/src/main/kotlin/pages/ContentNodes.kt:246-264 | a wrapper's only child is its inner node; its dci, style, extras, source sets and content are the inner node's; transforming yields a wrapper around the transformed inner node; both `withNewExtras` and `withSourceSets` are rejected |
| `ContentNodeProperties.DelegationToInnermost` | core/src/main/kotlin/pages/ContentNodes.kt:251-258 | through any number of nested wrappers, dci, style and extras are those stored on the innermost node |
| `ContentNodeProperties.HasStyleThroughWrappers` | core/src/main/kotlin/pages/ContentNodes.kt:306 | `hasStyle(s)` holds iff `s` is in the node's style set, which for a wrapper is the innermost node's |
| `ContentKinds.NotPlatformTagged` | core/src/main/kotlin/pages/ContentNodes.kt:277-290 | a kind is not platform-tagged iff it is not a `ContentKind`, or it is one of the ten constants Comment, Parameters, Symbol, Sample, Main, BriefComment, Empty, Cover, SourceSetDependentHint, Annotations |
| `ContentKinds.PlatformTaggedSize` | core/src/main/kotlin/pages/ContentNodes.kt:277-288 | exactly nine kinds are platform-tagged, all of them `ContentKind` constants |
| `JavadocLocation.GetExternalLocationProvider` | plugins/location/src/main/kotlin/external/javadoc/JavadocExternalLocationProviderFactory.kt:16-32 | any provider returned is built for the given documentation descriptor |
| `JavadocLocation.DispatchDeterministic` | plugins/location/src/main/kotlin/external/javadoc/JavadocExternalLocationProviderFactory.kt:16-32 | two descriptors with the same package-list URL and link format get the same choice: the dispatch depends on nothing else |
| `JavadocLocation.AndroidWins` | plugins/location/src/main/kotlin/external/javadoc/JavadocExternalLocationProviderFactory.kt:17-20 | the androidX or androidSdk package-list URL selects the Android provider whatever the link format |
| `JavadocLocation.JavadocSeparators` | plugins/location/src/main/kotlin/external/javadoc/JavadocExternalLocationProviderFactory.kt:22-29 | for any other URL: Javadoc1 uses `"()"` and `", "`, Javadoc8 uses `"--"` and `"-"`, Javadoc10 and DokkaJavadoc use `"()"` and `","` |
| `JavadocLocation.Javadoc10MatchesDokkaJavadoc` | plugins/location/src/main/kotlin/external/javadoc/JavadocExternalLocationProviderFactory.kt:23-29 | Javadoc10 and DokkaJavadoc give the same choice, which has Javadoc1's brackets and a different separator |
| `JavadocLocation.NoProviderExactly` | plugins/location/src/main/kotlin/external/javadoc/JavadocExternalLocationProviderFactory.kt:30 | there is no provider (a `null`, not an error) exactly when the URL is not an Android one and the format is none of the four named ones |

## Left out

- `plugins/webhelp/src/main/kotlin/renderers/WebhelpRenderer.kt`: its overrides sit on an HTML renderer that is not part of this model, and all its output goes through an HTML-builder library.
- `ExternalLocationProviderFactoryWithCache`: the compute-once, thread-safe cache around the factory is not part of this model. It concerns concurrency and memoisation, not the choice of provider.
- How `AndroidExternalLocationProvider` and `JavadocExternalLocationProvider` build URLs is not part of this model. The values behind `androidX()`/`androidSdk()` are not part of it either, so the two package-list URLs are unspecified constants. `RecognizedLinkFormat`'s other constants are one `OtherFormat(name)` case.
- The `DokkaContext` passed to every provider is not modelled.
- `DRI`, `ContentSourceSet` and `PropertyContainer` are abstract types, and `DCI.toString` is not modelled.
- Default argument values are not modelled: `emptySet()` styles, `PropertyContainer.empty()` extras, `ContentBreakLine`'s default `DCI(emptySet(), ContentKind.Empty)`, `ContentEmbeddedResource`'s default `children = emptyList()` and `ContentDivergentGroup`'s default `implicitlySourceSetHinted = true`. Every constructor takes all its fields.
- `ContentHeader.level` is an unbounded `int`. The source never computes with it, so 32-bit width does not matter.
- Merging divergent groups by `groupID`: only a doc comment mentions it, and no merge code exists to model.
- `TransformChildren` takes a total `Node -> Node`. A transformer that itself throws is not modelled. Calling it on a leaf is excluded by a precondition, as Kotlin's static types exclude it.
- A table's and a divergent group's transform map every child before casting. The model checks the casts after mapping, which is the same for pure transformers.
- `IsWhitespace` is written out from the JVM definition of Kotlin's `Char.isWhitespace` (`Character.isWhitespace || Character.isSpaceChar`), which is not part of this model. The character set is that of JDK 9 and later (Unicode 6.3 or newer); on JDK 8, U+180E MONGOLIAN VOWEL SEPARATOR is also a space character, so `isBlank` differs there.
- `IsAndroidPackageList` compares package-list URLs as strings. The source compares `java.net.URL` values with `URL.equals`, which ignores case in the host, fills in the default port and resolves host names, so the source's Android branch can match URLs that string equality does not; `DispatchDeterministic` holds of that string comparison.
