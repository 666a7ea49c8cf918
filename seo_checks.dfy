/**
 What each of the six checks of the SEO health check adds to the three
 finding lists, as functions of the configuration and the page snapshot,
 with the properties each check promises.
 */
module SeoChecks {
  import opened SeoTypes

  // ---------------------------------------------------------------- title

  /** The title check: one finding, whatever the page holds. */
  function TitleFindings(cfg: Config, title: Option<string>): (r: Results)
    ensures r.Total() == 1
    ensures |r.errors| == 1 <==> title.None?
    ensures |r.passed| == 1 <==> title.Some? && cfg.minTitleLength <= |title.value| <= cfg.maxTitleLength
    ensures title.None? ==> r.errors == [TitleMissing]
    ensures title.Some? && cfg.minTitleLength <= |title.value| <= cfg.maxTitleLength ==> r.passed == [TitleOptimal]
    ensures title.Some? && !(cfg.minTitleLength <= |title.value| <= cfg.maxTitleLength) ==>
      r.warnings == [TitleLengthOff(|title.value|, cfg.minTitleLength, cfg.maxTitleLength)]
  {
    match title
    case None => OneError(TitleMissing)
    case Some(t) =>
      if cfg.minTitleLength <= |t| <= cfg.maxTitleLength then OnePassed(TitleOptimal)
      else OneWarning(TitleLengthOff(|t|, cfg.minTitleLength, cfg.maxTitleLength))
  }

  // ------------------------------------------------------------ meta tags

  /** The key a meta tag is filed under: a non-empty `name`, else a non-empty `property`. */
  function MetaKey(tag: MetaTag): (k: Option<string>)
    ensures k.Some? ==> k.value != "" && (k == tag.name || k == tag.property)
    ensures k.None? <==> (tag.name.None? || tag.name.value == "") && (tag.property.None? || tag.property.value == "")
    ensures tag.name.Some? && tag.name.value != "" ==> k == tag.name
  {
    if tag.name.Some? && tag.name.value != "" then tag.name
    else if tag.property.Some? && tag.property.value != "" then tag.property
    else None
  }

  /** The dictionary of meta contents by key, filled tag by tag in document order. */
  function FoundMeta(tags: seq<MetaTag>): (found: map<string, Option<string>>)
    ensures forall k :: k in found ==> k != ""
    decreases |tags|
  {
    if tags == [] then map[]
    else
      var last := tags[|tags| - 1];
      var earlier := FoundMeta(tags[..|tags| - 1]);
      match MetaKey(last)
      case None => earlier
      case Some(k) => earlier[k := last.content]
  }

  /** Tag i is the last tag of `tags` filed under key k. */
  predicate LastWithKey(tags: seq<MetaTag>, k: string, i: int) {
    && 0 <= i < |tags|
    && MetaKey(tags[i]) == Some(k)
    && forall j :: i < j < |tags| ==> MetaKey(tags[j]) != Some(k)
  }

  /** A key is in the dictionary iff some tag is filed under it. */
  lemma {:induction false} FoundMetaKeys(tags: seq<MetaTag>, k: string)
    ensures k in FoundMeta(tags) <==> exists i :: 0 <= i < |tags| && MetaKey(tags[i]) == Some(k)
    decreases |tags|
  {
    if tags != [] {
      var n := |tags|;
      var init := tags[..n - 1];
      FoundMetaKeys(init, k);
      if MetaKey(tags[n - 1]) != Some(k) && k in FoundMeta(tags) {
        var i :| 0 <= i < n - 1 && MetaKey(init[i]) == Some(k);
        assert MetaKey(tags[i]) == Some(k);
      }
      if exists i :: 0 <= i < n && MetaKey(tags[i]) == Some(k) {
        var i :| 0 <= i < n && MetaKey(tags[i]) == Some(k);
        if i < n - 1 {
          assert MetaKey(init[i]) == Some(k);
        }
      }
    }
  }

  /** The entry of a key is the content of the LAST tag filed under it: later tags overwrite earlier ones. */
  lemma {:induction false} FoundMetaLastWins(tags: seq<MetaTag>, k: string, i: int)
    requires LastWithKey(tags, k, i)
    ensures k in FoundMeta(tags) && FoundMeta(tags)[k] == tags[i].content
    decreases |tags|
  {
    var n := |tags|;
    if i < n - 1 {
      var init := tags[..n - 1];
      assert LastWithKey(init, k, i) by {
        assert forall j :: i < j < n - 1 ==> init[j] == tags[j];
      }
      FoundMetaLastWins(init, k, i);
    }
  }

  /** `foundMetaTags[name]` is truthy: the stored content is present and non-empty. */
  predicate HasContent(found: map<string, Option<string>>, name: string) {
    name in found && found[name].Some? && found[name].value != ""
  }

  /** One finding per required meta name, in the configured order. */
  function RequiredMetaFindings(required: seq<string>, found: map<string, Option<string>>): (r: Results)
    ensures r.warnings == []
    ensures |r.passed| + |r.errors| == |required|
    decreases |required|
  {
    if required == [] then NoFindings
    else
      var name := required[|required| - 1];
      RequiredMetaFindings(required[..|required| - 1], found).Append(
        if HasContent(found, name) then OnePassed(MetaPresent(name)) else OneError(MetaMissing(name)))
  }

  /**
   A required name is reported present iff it is required and its content is
   non-empty, and reported missing iff it is required and its content is not.
   */
  lemma {:induction false} RequiredMetaVerdicts(required: seq<string>, found: map<string, Option<string>>)
    ensures forall n :: MetaPresent(n) in RequiredMetaFindings(required, found).passed <==> n in required && HasContent(found, n)
    ensures forall n :: MetaMissing(n) in RequiredMetaFindings(required, found).errors <==> n in required && !HasContent(found, n)
    decreases |required|
  {
    if required != [] {
      var earlier := required[..|required| - 1];
      RequiredMetaVerdicts(earlier, found);
      assert required == earlier + [required[|required| - 1]];
    }
  }

  /** The description-length finding, present only when the description has content. */
  function DescriptionFindings(cfg: Config, found: map<string, Option<string>>): (r: Results)
    ensures r.errors == []
    ensures r.Total() == (if HasContent(found, "description") then 1 else 0)
    ensures |r.passed| == 1 <==>
      HasContent(found, "description")
      && cfg.minDescriptionLength <= |found["description"].value| <= cfg.maxDescriptionLength
    ensures (HasContent(found, "description")
             && cfg.minDescriptionLength <= |found["description"].value| <= cfg.maxDescriptionLength) ==>
      r.passed == [DescriptionOptimal]
    ensures (HasContent(found, "description")
             && !(cfg.minDescriptionLength <= |found["description"].value| <= cfg.maxDescriptionLength)) ==>
      r.warnings == [DescriptionLengthOff(|found["description"].value|, cfg.minDescriptionLength, cfg.maxDescriptionLength)]
  {
    if HasContent(found, "description") then
      var length := |found["description"].value|;
      if cfg.minDescriptionLength <= length <= cfg.maxDescriptionLength then OnePassed(DescriptionOptimal)
      else OneWarning(DescriptionLengthOff(length, cfg.minDescriptionLength, cfg.maxDescriptionLength))
    else NoFindings
  }

  /** `checkMetaTags`: the title, then the required tags, then the description length. */
  function MetaTagFindings(cfg: Config, doc: Document): (r: Results)
    ensures r.Total() == 1 + |cfg.requiredMetaTags| + (if HasContent(FoundMeta(doc.meta), "description") then 1 else 0)
  {
    var found := FoundMeta(doc.meta);
    TitleFindings(cfg, doc.title)
      .Append(RequiredMetaFindings(cfg.requiredMetaTags, found))
      .Append(DescriptionFindings(cfg, found))
  }

  // ------------------------------------------------------ structured data

  /** Parsing throws: malformed JSON, or JSON `null` whose "@type" cannot be read. */
  predicate ParseFails(j: JsonLd) {
    j.Malformed? || j.ParsesToNull?
  }

  /** The type a payload contributes: a parsed, truthy (non-empty) string "@type". */
  predicate HasTypeName(j: JsonLd) {
    j.Parsed? && j.typeName.Some? && j.typeName.value != ""
  }

  /** One error per payload whose parsing throws, in document order. */
  function JsonLdErrors(payloads: seq<JsonLd>): (e: seq<ErrorFinding>)
    ensures |e| == Count(payloads, ParseFails)
    decreases |payloads|
  {
    if payloads == [] then []
    else
      var init := payloads[..|payloads| - 1];
      JsonLdErrors(init) + (if ParseFails(payloads[|payloads| - 1]) then [InvalidJsonLd] else [])
  }

  /** Every error of the structured-data parse is the invalid JSON-LD error. */
  lemma {:induction false} JsonLdErrorsAllInvalid(payloads: seq<JsonLd>)
    ensures forall f :: f in JsonLdErrors(payloads) ==> f == InvalidJsonLd
    decreases |payloads|
  {
    if payloads != [] {
      JsonLdErrorsAllInvalid(payloads[..|payloads| - 1]);
    }
  }

  /** `foundTypes`: the type names of the payloads that parse, in document order. */
  function FoundTypes(payloads: seq<JsonLd>): (found: seq<string>)
    ensures |found| == Count(payloads, HasTypeName)
    decreases |payloads|
  {
    if payloads == [] then []
    else
      var last := payloads[|payloads| - 1];
      FoundTypes(payloads[..|payloads| - 1]) + (if HasTypeName(last) then [last.typeName.value] else [])
  }

  /** A name is found iff some payload parses with that (non-empty) string "@type". */
  lemma {:induction false} FoundTypesMembers(payloads: seq<JsonLd>)
    ensures forall s :: s in FoundTypes(payloads) <==>
      exists i :: 0 <= i < |payloads| && HasTypeName(payloads[i]) && payloads[i].typeName.value == s
    decreases |payloads|
  {
    if payloads != [] {
      var init := payloads[..|payloads| - 1];
      FoundTypesMembers(init);
      assert forall i :: 0 <= i < |init| ==> init[i] == payloads[i];
    }
  }

  /** A payload that fails to parse contributes no type. */
  lemma FailedPayloadsContributeNoType(payloads: seq<JsonLd>)
    ensures |FoundTypes(payloads)| + Count(payloads, ParseFails) <= |payloads|
  {
    CountEither(payloads, HasTypeName, ParseFails, TypedOrFails, TypedAndFails);
  }

  predicate TypedOrFails(j: JsonLd) { HasTypeName(j) || ParseFails(j) }
  predicate TypedAndFails(j: JsonLd) { HasTypeName(j) && ParseFails(j) }

  /** One finding per configured type, in the configured order. */
  function TypeFindings(types: seq<string>, found: seq<string>): (r: Results)
    ensures r.errors == []
    ensures |r.passed| + |r.warnings| == |types|
    decreases |types|
  {
    if types == [] then NoFindings
    else
      var t := types[|types| - 1];
      TypeFindings(types[..|types| - 1], found).Append(
        if t in found then OnePassed(TypePresent(t)) else OneWarning(TypeMissing(t)))
  }

  /** A configured type is reported present iff it was found, and missing iff it was not. */
  lemma {:induction false} TypeVerdicts(types: seq<string>, found: seq<string>)
    ensures forall t :: TypePresent(t) in TypeFindings(types, found).passed <==> t in types && t in found
    ensures forall t :: TypeMissing(t) in TypeFindings(types, found).warnings <==> t in types && t !in found
    decreases |types|
  {
    if types != [] {
      var earlier := types[..|types| - 1];
      TypeVerdicts(earlier, found);
      assert types == earlier + [types[|types| - 1]];
    }
  }

  /** The verdicts for two runs of configured types are the verdicts for each run, one after the other. */
  lemma {:induction false} TypeFindingsConcat(types: seq<string>, more: seq<string>, found: seq<string>)
    ensures TypeFindings(types + more, found) == TypeFindings(types, found).Append(TypeFindings(more, found))
    decreases |more|
  {
    if more == [] {
      assert types + more == types;
    } else {
      var init, t := more[..|more| - 1], more[|more| - 1];
      TypeFindingsConcat(types, init, found);
      var all := types + more;
      assert all[..|all| - 1] == types + init && all[|all| - 1] == t;
      var step := if t in found then OnePassed(TypePresent(t)) else OneWarning(TypeMissing(t));
      assert TypeFindings(all, found) == TypeFindings(types + init, found).Append(step);
      assert TypeFindings(more, found) == TypeFindings(init, found).Append(step);
      AppendTwice(TypeFindings(types, found), TypeFindings(init, found), step);
    }
  }

  /** `checkStructuredData`: the parse errors, then one finding per configured type. */
  function StructuredDataFindings(cfg: Config, payloads: seq<JsonLd>): (r: Results)
    ensures |r.errors| == Count(payloads, ParseFails)
    ensures |r.passed| + |r.warnings| == |cfg.structuredDataTypes|
  {
    var verdicts := TypeFindings(cfg.structuredDataTypes, FoundTypes(payloads));
    Results(verdicts.passed, verdicts.warnings, JsonLdErrors(payloads))
  }

  // --------------------------------------------------------------- images

  /** `!img.getAttribute(attr)`: the attribute is absent or empty. */
  predicate Lacks(attr: Option<string>) { attr.None? || attr.value == "" }

  predicate LacksAlt(img: Image) { Lacks(img.alt) }
  predicate LacksWidth(img: Image) { Lacks(img.width) }
  predicate LacksHeight(img: Image) { Lacks(img.height) }
  predicate LacksDimensions(img: Image) { LacksWidth(img) || LacksHeight(img) }
  predicate LacksBothDimensions(img: Image) { LacksWidth(img) && LacksHeight(img) }

  /** `checkImages`: one finding on alt text, one on dimensions. */
  function ImageFindings(images: seq<Image>): (r: Results)
    ensures r.errors == [] && r.Total() == 2
    ensures |r.passed| == 2 <==> forall i :: 0 <= i < |images| ==> !LacksAlt(images[i]) && !LacksDimensions(images[i])
    ensures AllImagesHaveAlt in r.passed <==> Count(images, LacksAlt) == 0
    ensures ImagesMissingAlt(Count(images, LacksAlt)) in r.warnings <==> Count(images, LacksAlt) > 0
    ensures AllImagesHaveDimensions in r.passed <==> Count(images, LacksDimensions) == 0
    ensures ImagesMissingDimensions(Count(images, LacksDimensions)) in r.warnings <==> Count(images, LacksDimensions) > 0
    ensures forall i :: 0 <= i < |r.warnings| ==>
      (r.warnings[i].ImagesMissingAlt? || r.warnings[i].ImagesMissingDimensions?) && 0 < r.warnings[i].count <= |images|
  {
    var missingAlt := Count(images, LacksAlt);
    var missingDimensions := Count(images, LacksDimensions);
    CountZero(images, LacksAlt);
    CountZero(images, LacksDimensions);
    (if missingAlt == 0 then OnePassed(AllImagesHaveAlt) else OneWarning(ImagesMissingAlt(missingAlt)))
      .Append(if missingDimensions == 0 then OnePassed(AllImagesHaveDimensions)
              else OneWarning(ImagesMissingDimensions(missingDimensions)))
  }

  /**
   An image that lacks both width and height is counted once: the missing
   dimensions count is the inclusion-exclusion of the two attribute counts.
   */
  lemma MissingDimensionsCountedOnce(images: seq<Image>)
    ensures Count(images, LacksDimensions) + Count(images, LacksBothDimensions)
         == Count(images, LacksWidth) + Count(images, LacksHeight)
    ensures Count(images, LacksWidth) <= Count(images, LacksDimensions)
    ensures Count(images, LacksHeight) <= Count(images, LacksDimensions)
  {
    CountEither(images, LacksWidth, LacksHeight, LacksDimensions, LacksBothDimensions);
    BothCountedWithin(images);
  }

  lemma {:induction false} BothCountedWithin(images: seq<Image>)
    ensures Count(images, LacksBothDimensions) <= Count(images, LacksWidth)
    ensures Count(images, LacksBothDimensions) <= Count(images, LacksHeight)
    decreases |images|
  {
    if images != [] {
      BothCountedWithin(images[..|images| - 1]);
    }
  }

  // ------------------------------------------------------------- headings

  predicate IsH1(level: HeadingLevel) { level == 1 }

  /** `checkHeaders`: one finding on the H1 count, one on the heading count. */
  function HeadingFindings(headings: seq<HeadingLevel>): (r: Results)
    ensures r.Total() == 2
    ensures SingleH1 in r.passed <==> Count(headings, IsH1) == 1
    ensures NoH1 in r.errors <==> Count(headings, IsH1) == 0
    ensures MultipleH1(Count(headings, IsH1)) in r.warnings <==> Count(headings, IsH1) > 1
    ensures HeadingsFound(|headings|) in r.passed <==> headings != []
    ensures NoHeadings in r.errors <==> headings == []
    ensures |r.errors| == 2 <==> headings == []
  {
    var h1Count := Count(headings, IsH1);
    CountZero(headings, IsH1);
    (if h1Count == 1 then OnePassed(SingleH1)
     else if h1Count == 0 then OneError(NoH1)
     else OneWarning(MultipleH1(h1Count)))
      .Append(if |headings| > 0 then OnePassed(HeadingsFound(|headings|)) else OneError(NoHeadings))
  }

  // ---------------------------------------------------------------- links

  /** `String.prototype.includes`: `sub` occurs somewhere in `s`. */
  predicate Contains(s: string, sub: string)
    decreases |s|
  {
    sub <= s || (s != [] && Contains(s[1..], sub))
  }

  /** `sub` occurs in `s` starting at position i. */
  predicate OccursAt(s: string, sub: string, i: int) {
    0 <= i && i + |sub| <= |s| && s[i..i + |sub|] == sub
  }

  /** `Contains` agrees with the occurrence of `sub` at some position of `s`. */
  lemma {:induction false} ContainsAt(s: string, sub: string)
    ensures Contains(s, sub) <==> exists i :: OccursAt(s, sub, i)
    decreases |s|
  {
    if s == [] {
      if sub == [] {
        assert OccursAt(s, sub, 0);
      }
    } else {
      ContainsAt(s[1..], sub);
      if sub <= s {
        assert OccursAt(s, sub, 0);
      } else if Contains(s[1..], sub) {
        var i :| OccursAt(s[1..], sub, i);
        assert s[1..][i..i + |sub|] == s[i + 1..i + 1 + |sub|];
        assert OccursAt(s, sub, i + 1);
      }
      if exists i :: OccursAt(s, sub, i) {
        var i :| OccursAt(s, sub, i);
        if i > 0 {
          assert s[1..][i - 1..i - 1 + |sub|] == s[i..i + |sub|];
          assert OccursAt(s[1..], sub, i - 1);
        }
      }
    }
  }

  /** No `href`, an empty one or the placeholder `#`. */
  predicate IsBrokenAnchor(link: Link) {
    link.href.None? || link.href.value == "" || link.href.value == "#"
  }

  /** An absolute `http://` or `https://` link. */
  predicate IsExternal(link: Link) {
    link.href.Some? && ("http://" <= link.href.value || "https://" <= link.href.value)
  }

  predicate HasNoopener(link: Link) {
    link.rel.Some? && Contains(link.rel.value, "noopener")
  }

  predicate NeedsNoopener(link: Link) {
    IsExternal(link) && !HasNoopener(link)
  }

  predicate IsNofollow(link: Link) {
    link.rel.Some? && Contains(link.rel.value, "nofollow")
  }

  /** `s.substring(0, n)` for n >= 0. */
  function Prefix(s: string, n: nat): (p: string)
    ensures p <= s && |p| <= n
    ensures |p| == n || p == s
  {
    if |s| <= n then s else s[..n]
  }

  /** The warning for one external link without `noopener`. */
  function NoopenerWarning(link: Link): WarningFinding
    requires IsExternal(link)
  {
    ExternalLinkMissingNoopener(Prefix(link.href.value, 50))
  }

  /** One warning per external link without `noopener`, in document order. */
  function NoopenerWarnings(links: seq<Link>): (w: seq<WarningFinding>)
    ensures |w| == Count(links, NeedsNoopener)
    decreases |links|
  {
    if links == [] then []
    else
      var last := links[|links| - 1];
      NoopenerWarnings(links[..|links| - 1]) + (if NeedsNoopener(last) then [NoopenerWarning(last)] else [])
  }

  /**
   The warnings are exactly the `noopener` warnings of the links that need one,
   each carrying the first 50 characters of that link's href.
   */
  lemma {:induction false} NoopenerWarningsMembers(links: seq<Link>)
    ensures forall f :: f in NoopenerWarnings(links) <==>
      exists i :: 0 <= i < |links| && NeedsNoopener(links[i]) && f == NoopenerWarning(links[i])
    decreases |links|
  {
    if links != [] {
      var init := links[..|links| - 1];
      NoopenerWarningsMembers(init);
      assert forall i :: 0 <= i < |init| ==> init[i] == links[i];
    }
  }

  /** The broken-anchor warning, present only when some anchor is broken. */
  function BrokenAnchorWarnings(links: seq<Link>): (w: seq<WarningFinding>)
    ensures |w| <= 1
    ensures w == [] <==> forall i :: 0 <= i < |links| ==> !IsBrokenAnchor(links[i])
    ensures Count(links, IsBrokenAnchor) > 0 ==> w == [BrokenAnchors(Count(links, IsBrokenAnchor))]
  {
    var broken := Count(links, IsBrokenAnchor);
    CountZero(links, IsBrokenAnchor);
    if broken > 0 then [BrokenAnchors(broken)] else []
  }

  /** `checkLinks`: the per-link warnings, the total, then the broken anchors. */
  function LinkFindings(links: seq<Link>): (r: Results)
    ensures r.errors == []
    ensures r.passed == [LinksFound(|links|)]
    ensures |r.warnings| == Count(links, NeedsNoopener) + (if Count(links, IsBrokenAnchor) > 0 then 1 else 0)
  {
    Results([LinksFound(|links|)], NoopenerWarnings(links) + BrokenAnchorWarnings(links), [])
  }

  predicate NeedsNoopenerOrBroken(link: Link) { NeedsNoopener(link) || IsBrokenAnchor(link) }
  predicate NeedsNoopenerAndBroken(link: Link) { NeedsNoopener(link) && IsBrokenAnchor(link) }

  /**
   A broken anchor is never external, so no link draws two warnings: the link
   check warns at most once per link.
   */
  lemma LinkWarningsAtMostOnePerLink(links: seq<Link>)
    ensures |LinkFindings(links).warnings| <= |links|
  {
    CountEither(links, NeedsNoopener, IsBrokenAnchor, NeedsNoopenerOrBroken, NeedsNoopenerAndBroken);
    CountZero(links, NeedsNoopenerAndBroken);
    if Count(links, IsBrokenAnchor) > 0 {
      assert Count(links, IsBrokenAnchor) <= Count(links, NeedsNoopenerOrBroken) by {
        CountWithin(links, IsBrokenAnchor, NeedsNoopenerOrBroken);
      }
    }
  }

  /** A count under `p` is at most the count under any `q` that `p` implies. */
  lemma {:induction false} CountWithin<T>(s: seq<T>, p: T -> bool, q: T -> bool)
    requires forall x :: p(x) ==> q(x)
    ensures Count(s, p) <= Count(s, q)
    decreases |s|
  {
    if s != [] {
      CountWithin(s[..|s| - 1], p, q);
    }
  }

  // ---------------------------------------------------------- performance

  predicate IsLazy(img: Image) { img.loading == Some("lazy") }
  predicate HasSrc(script: Script) { script.hasSrc }
  predicate IsDeferred(script: Script) { script.hasDefer || script.hasAsync }

  /** `checkPerformance`: lazy loading always, defer/async only when some script has it. */
  function PerformanceFindings(images: seq<Image>, scripts: seq<Script>): (r: Results)
    ensures r.errors == []
    ensures |r.warnings| == (if Count(images, IsLazy) == 0 then 1 else 0)
    ensures r.Total() == (if Count(scripts, IsDeferred) > 0 then 2 else 1)
    ensures Count(images, IsLazy) == 0 ==> r.warnings == [NoLazyImages]
    ensures Count(images, IsLazy) > 0 ==> LazyImages(Count(images, IsLazy)) in r.passed
    ensures Count(scripts, IsDeferred) > 0 ==>
      DeferredScripts(Count(scripts, IsDeferred), Count(scripts, HasSrc)) in r.passed
  {
    var lazyImages := Count(images, IsLazy);
    var deferred := Count(scripts, IsDeferred);
    (if lazyImages > 0 then OnePassed(LazyImages(lazyImages)) else OneWarning(NoLazyImages))
      .Append(if deferred > 0 then OnePassed(DeferredScripts(deferred, Count(scripts, HasSrc))) else NoFindings)
  }

  // ------------------------------------------------------------ all checks

  /** The six checks of `runAllChecks`, in order. */
  function AuditFindings(cfg: Config, doc: Document): (r: Results)
    ensures LinksFound(|doc.links|) in r.passed
    ensures r.Total() >= 7 + |cfg.requiredMetaTags| + |cfg.structuredDataTypes|
  {
    var meta := MetaTagFindings(cfg, doc);
    var structured := StructuredDataFindings(cfg, doc.jsonLd);
    var images := ImageFindings(doc.images);
    var headings := HeadingFindings(doc.headings);
    var links := LinkFindings(doc.links);
    var performance := PerformanceFindings(doc.images, doc.scripts);
    var r := meta.Append(structured).Append(images).Append(headings).Append(links).Append(performance);
    assert r.passed == meta.Append(structured).Append(images).Append(headings).passed + links.passed + performance.passed;
    assert links.passed[0] == LinksFound(|doc.links|);
    r
  }
}
