/**
 * Choosing an external location provider for a Javadoc-style documentation
 * link (plugins/location/src/main/kotlin/external/javadoc/JavadocExternalLocationProviderFactory.kt).
 * The providers themselves, the cache the factory delegates to and the
 * plugin context are not part of this model.
 */
module JavadocLocation {
  import opened Wrappers

  /**
   * `RecognizedLinkFormat`: the four formats the dispatch names, and any
   * other constant of the enumeration.
   */
  datatype RecognizedLinkFormat = Javadoc1 | Javadoc8 | Javadoc10 | DokkaJavadoc | OtherFormat(name: string)

  /** The package list of an external documentation set: its URL and the link format it was recognised to use. */
  datatype PackageList = PackageList(url: string, linkFormat: RecognizedLinkFormat)

  /** `ExternalDocumentation`: where the documentation lives and its package list. */
  datatype ExternalDocumentation = ExternalDocumentation(documentationUrl: string, packageList: PackageList)

  /** The package-list URL of `ExternalDocumentationLink.androidX()`, not part of this model. */
  const AndroidXPackageListUrl: string

  /** The package-list URL of `ExternalDocumentationLink.androidSdk()`, not part of this model. */
  const AndroidSdkPackageListUrl: string

  /**
   * The providers the factory can build, each for the documentation it was
   * built from. A Javadoc provider carries the literal that brackets (or
   * replaces) a member's parameter list in an anchor and the literal between
   * parameter types.
   */
  datatype Provider =
    | AndroidProvider(doc: ExternalDocumentation)
    | JavadocProvider(doc: ExternalDocumentation, brackets: string, separator: string)

  predicate IsAndroidPackageList(url: string) {
    url == AndroidXPackageListUrl || url == AndroidSdkPackageListUrl
  }

  /** `getExternalLocationProvider(doc)` of the factory's delegate; `None` is Kotlin's `null`. */
  function GetExternalLocationProvider(doc: ExternalDocumentation): (r: Option<Provider>)
    ensures r.Some? ==> r.value.doc == doc
  {
    if IsAndroidPackageList(doc.packageList.url) then Some(AndroidProvider(doc))
    else
      match doc.packageList.linkFormat
      case Javadoc1 => Some(JavadocProvider(doc, "()", ", "))
      case Javadoc8 => Some(JavadocProvider(doc, "--", "-"))
      case Javadoc10 => Some(JavadocProvider(doc, "()", ","))
      case DokkaJavadoc => Some(JavadocProvider(doc, "()", ","))
      case OtherFormat(_) => None
  }

  /** What was chosen, forgetting the documentation it was built for. */
  datatype Choice = Android | Javadoc(brackets: string, separator: string) | NoProvider

  function ChoiceOf(r: Option<Provider>): Choice {
    match r
    case None => NoProvider
    case Some(AndroidProvider(_)) => Android
    case Some(JavadocProvider(_, b, s)) => Javadoc(b, s)
  }

  /**
   * Two descriptors with the same package-list URL and link format get the
   * same choice: the documentation URL plays no part in the dispatch.
   */
  lemma DispatchDeterministic(d1: ExternalDocumentation, d2: ExternalDocumentation)
    requires d1.packageList.url == d2.packageList.url && d1.packageList.linkFormat == d2.packageList.linkFormat
    ensures ChoiceOf(GetExternalLocationProvider(d1)) == ChoiceOf(GetExternalLocationProvider(d2))
  {
    if IsAndroidPackageList(d1.packageList.url) {
      assert GetExternalLocationProvider(d1) == Some(AndroidProvider(d1));
      assert GetExternalLocationProvider(d2) == Some(AndroidProvider(d2));
    } else {
      match d1.packageList.linkFormat
      case Javadoc1 =>
      case Javadoc8 =>
      case Javadoc10 =>
      case DokkaJavadoc =>
      case OtherFormat(_) =>
    }
  }

  /** Either Android package-list URL selects the Android provider, whatever the link format. */
  lemma AndroidWins(doc: ExternalDocumentation)
    requires doc.packageList.url in {AndroidXPackageListUrl, AndroidSdkPackageListUrl}
    ensures GetExternalLocationProvider(doc) == Some(AndroidProvider(doc))
  {
  }

  /**
   * For any other URL: `Javadoc1` uses `"()"` and `", "`, `Javadoc8` uses
   * `"--"` and `"-"`, and `Javadoc10` and `DokkaJavadoc` both use `"()"` and `","`.
   */
  lemma JavadocSeparators(doc: ExternalDocumentation)
    requires !IsAndroidPackageList(doc.packageList.url)
    ensures doc.packageList.linkFormat == Javadoc1 ==> GetExternalLocationProvider(doc) == Some(JavadocProvider(doc, "()", ", "))
    ensures doc.packageList.linkFormat == Javadoc8 ==> GetExternalLocationProvider(doc) == Some(JavadocProvider(doc, "--", "-"))
    ensures doc.packageList.linkFormat in {Javadoc10, DokkaJavadoc} ==>
      GetExternalLocationProvider(doc) == Some(JavadocProvider(doc, "()", ","))
  {
  }

  /**
   * `Javadoc10` and `DokkaJavadoc` give the same provider, which differs from
   * the `Javadoc1` one only in the parameter separator (no space after the comma).
   */
  lemma Javadoc10MatchesDokkaJavadoc(url: string, documentationUrl: string)
    requires !IsAndroidPackageList(url)
    ensures var j10 := GetExternalLocationProvider(ExternalDocumentation(documentationUrl, PackageList(url, Javadoc10)));
            var dj := GetExternalLocationProvider(ExternalDocumentation(documentationUrl, PackageList(url, DokkaJavadoc)));
            var j1 := GetExternalLocationProvider(ExternalDocumentation(documentationUrl, PackageList(url, Javadoc1)));
            ChoiceOf(j10) == ChoiceOf(dj) &&
            ChoiceOf(j10).brackets == ChoiceOf(j1).brackets &&
            ChoiceOf(j10).separator != ChoiceOf(j1).separator
  {
  }

  /**
   * There is no provider exactly when the URL is not an Android one and the
   * link format is none of the four named formats; that is a `null`, not an error.
   */
  lemma NoProviderExactly(doc: ExternalDocumentation)
    ensures GetExternalLocationProvider(doc).None? <==>
      !IsAndroidPackageList(doc.packageList.url) && doc.packageList.linkFormat.OtherFormat?
  {
  }
}
