/**
 The data the SEO health check works on: its configuration, the snapshot of
 the page it inspects (in place of the DOM queries of the browser), the
 findings it reports and the three lists it files them into.
 */
module SeoTypes {

  datatype Option<+T> = None | Some(value: T)

  /** The health-check configuration: thresholds and required names. */
  datatype Config = Config(
    siteName: string,
    expectedTitle: string,
    minTitleLength: int,
    maxTitleLength: int,
    minDescriptionLength: int,
    maxDescriptionLength: int,
    requiredMetaTags: seq<string>,
    structuredDataTypes: seq<string>)

  /** The configuration the site ships with. */
  const SeoConfig: Config := Config(
    "Kids Center Costa Rica",
    "Kids Center Costa Rica",
    30, 60,
    120, 160,
    ["description", "keywords", "author", "robots", "viewport",
     "og:title", "og:description", "og:image", "twitter:card"],
    ["LocalBusiness", "FAQPage", "BreadcrumbList", "WebSite", "Review", "Course"])

  /** A `<meta>` element: its `name`, `property` and `content` attributes (None when absent). */
  datatype MetaTag = MetaTag(name: Option<string>, property: Option<string>, content: Option<string>)

  /**
   What parsing the text of one `application/ld+json` script yields.
   `Parsed(Some(s))` when the value is not null and its "@type" is the string s;
   `Parsed(None)` when "@type" is absent or is not a string (a number, an array,
   an object), since such a value can never equal a configured type name.
   */
  datatype JsonLd = Malformed | ParsesToNull | Parsed(typeName: Option<string>)

  /** An `<img>` element: its `alt`, `width`, `height` and `loading` attributes. */
  datatype Image = Image(alt: Option<string>, width: Option<string>, height: Option<string>, loading: Option<string>)

  /** An `<a>` element: its `href` and `rel` attributes. */
  datatype Link = Link(href: Option<string>, rel: Option<string>)

  /** A `<script>` element: whether it carries `src`, `defer` and `async`. */
  datatype Script = Script(hasSrc: bool, hasDefer: bool, hasAsync: bool)

  /** The level of a heading element h1 .. h6. */
  type HeadingLevel = l: int | 1 <= l <= 6 witness 1

  /** A read-only snapshot of the rendered page, in document order. */
  datatype Document = Document(
    title: Option<string>,          // text of the first <title>, None when there is none
    meta: seq<MetaTag>,
    jsonLd: seq<JsonLd>,
    images: seq<Image>,
    headings: seq<HeadingLevel>,
    links: seq<Link>,
    scripts: seq<Script>)

  /** A passed check, with the values its message shows. */
  datatype PassedFinding =
    | TitleOptimal
    | MetaPresent(name: string)
    | DescriptionOptimal
    | TypePresent(typeName: string)
    | AllImagesHaveAlt
    | AllImagesHaveDimensions
    | SingleH1
    | HeadingsFound(count: nat)
    | LinksFound(count: nat)
    | LazyImages(count: nat)
    | DeferredScripts(deferred: nat, total: nat)

  /** A warning, with the values its message shows. */
  datatype WarningFinding =
    | TitleLengthOff(length: nat, min: int, max: int)
    | DescriptionLengthOff(length: nat, min: int, max: int)
    | TypeMissing(typeName: string)
    | ImagesMissingAlt(count: nat)
    | ImagesMissingDimensions(count: nat)
    | MultipleH1(count: nat)
    | ExternalLinkMissingNoopener(hrefPrefix: string)
    | BrokenAnchors(count: nat)
    | NoLazyImages

  /** An error, with the values its message shows. */
  datatype ErrorFinding =
    | TitleMissing
    | MetaMissing(name: string)
    | InvalidJsonLd
    | NoH1
    | NoHeadings

  /**
   The three finding lists of a health check, without the score. Each list
   holds only findings of its own category.
   */
  datatype Results = Results(passed: seq<PassedFinding>, warnings: seq<WarningFinding>, errors: seq<ErrorFinding>) {

    /** These results followed by `more`, list by list. */
    function Append(more: Results): Results {
      Results(passed + more.passed, warnings + more.warnings, errors + more.errors)
    }

    function Total(): nat {
      |passed| + |warnings| + |errors|
    }
  }

  /** Appending findings in two steps is appending them in one. */
  lemma AppendTwice(a: Results, b: Results, c: Results)
    ensures a.Append(b).Append(c) == a.Append(b.Append(c))
  {
  }

  const NoFindings: Results := Results([], [], [])

  function OnePassed(f: PassedFinding): Results { Results([f], [], []) }
  function OneWarning(f: WarningFinding): Results { Results([], [f], []) }
  function OneError(f: ErrorFinding): Results { Results([], [], [f]) }

  /** The number of elements of `s` that satisfy `p`. */
  function Count<T>(s: seq<T>, p: T -> bool): (n: nat)
    ensures n <= |s|
    decreases |s|
  {
    if s == [] then 0
    else Count(s[..|s| - 1], p) + (if p(s[|s| - 1]) then 1 else 0)
  }

  /** The count is zero exactly when no element satisfies `p`. */
  lemma {:induction false} CountZero<T>(s: seq<T>, p: T -> bool)
    ensures Count(s, p) == 0 <==> forall i :: 0 <= i < |s| ==> !p(s[i])
    decreases |s|
  {
    if s != [] {
      var init := s[..|s| - 1];
      CountZero(init, p);
      assert forall i :: 0 <= i < |init| ==> init[i] == s[i];
    }
  }

  /** The count is the length exactly when every element satisfies `p`. */
  lemma {:induction false} CountAll<T>(s: seq<T>, p: T -> bool)
    ensures Count(s, p) == |s| <==> forall i :: 0 <= i < |s| ==> p(s[i])
    decreases |s|
  {
    if s != [] {
      var init := s[..|s| - 1];
      CountAll(init, p);
      assert forall i :: 0 <= i < |init| ==> init[i] == s[i];
    }
  }

  /** Counting one element more: the step every counting loop takes. */
  lemma CountSnoc<T>(s: seq<T>, x: T, p: T -> bool)
    ensures Count(s + [x], p) == Count(s, p) + (if p(x) then 1 else 0)
  {
    assert (s + [x])[..|s|] == s;
  }

  /**
   Inclusion-exclusion: counting the elements that satisfy `p` or `q` counts
   each such element once.
   */
  lemma {:induction false} CountEither<T>(s: seq<T>, p: T -> bool, q: T -> bool, pOrQ: T -> bool, pAndQ: T -> bool)
    requires forall x :: pOrQ(x) == (p(x) || q(x))
    requires forall x :: pAndQ(x) == (p(x) && q(x))
    ensures Count(s, pOrQ) + Count(s, pAndQ) == Count(s, p) + Count(s, q)
    decreases |s|
  {
    if s != [] {
      CountEither(s[..|s| - 1], p, q, pOrQ, pAndQ);
    }
  }
}
