/**
 The SEO health-check object. It keeps three finding lists and a score,
 which each check extends in place; the lists are set up only by the
 constructor, so running the checks again keeps appending to them.
 Each method is proved against the specification functions of SeoChecks
 and SeoScore; the counting loops of the checks are methods of their own.
 */
module Monitor {
  import opened SeoTypes
  import opened SeoChecks
  import opened SeoScore

  /** The `foundMetaTags` dictionary, filled by one pass over the meta tags. */
  method CollectMetaTags(tags: seq<MetaTag>) returns (found: map<string, Option<string>>)
    ensures found == FoundMeta(tags)
    ensures forall k :: k in found ==> k != ""
  {
    found := map[];
    var i := 0;
    while i < |tags|
      invariant 0 <= i <= |tags|
      invariant found == FoundMeta(tags[..i])
      invariant forall k :: k in found ==> k != ""
    {
      var tag := tags[i];
      var key := if tag.name.Some? && tag.name.value != "" then tag.name else tag.property;
      if key.Some? && key.value != "" {
        found := found[key.value := tag.content];
      }
      assert tags[..i + 1][..i] == tags[..i];
      i := i + 1;
    }
    assert tags[..i] == tags;
  }

  /** The two image counters, in one pass over the images. */
  method CountImageDefects(images: seq<Image>) returns (missingAlt: nat, missingDimensions: nat)
    ensures missingAlt == Count(images, LacksAlt)
    ensures missingDimensions == Count(images, LacksDimensions)
  {
    missingAlt, missingDimensions := 0, 0;
    var i := 0;
    while i < |images|
      invariant 0 <= i <= |images|
      invariant missingAlt == Count(images[..i], LacksAlt)
      invariant missingDimensions == Count(images[..i], LacksDimensions)
    {
      var img := images[i];
      if img.alt.None? || img.alt.value == "" {
        missingAlt := missingAlt + 1;
      }
      if img.width.None? || img.width.value == "" || img.height.None? || img.height.value == "" {
        missingDimensions := missingDimensions + 1;
      }
      assert images[..i + 1] == images[..i] + [img];
      CountSnoc(images[..i], img, LacksAlt);
      CountSnoc(images[..i], img, LacksDimensions);
      i := i + 1;
    }
    assert images[..i] == images;
  }

  /** One verdict per required meta name, in the configured order. */
  method CheckRequiredMetaTags(required: seq<string>, found: map<string, Option<string>>)
    returns (present: seq<PassedFinding>, missing: seq<ErrorFinding>)
    ensures present == RequiredMetaFindings(required, found).passed
    ensures missing == RequiredMetaFindings(required, found).errors
  {
    present, missing := [], [];
    var j := 0;
    while j < |required|
      invariant 0 <= j <= |required|
      invariant present == RequiredMetaFindings(required[..j], found).passed
      invariant missing == RequiredMetaFindings(required[..j], found).errors
    {
      var tagName := required[j];
      if HasContent(found, tagName) {
        present := present + [MetaPresent(tagName)];
      } else {
        missing := missing + [MetaMissing(tagName)];
      }
      assert required[..j + 1][..j] == required[..j];
      j := j + 1;
    }
    assert required[..j] == required;
  }

  /** One pass over the JSON-LD payloads: the parse errors and the `foundTypes` list. */
  method ParseStructuredData(payloads: seq<JsonLd>) returns (foundTypes: seq<string>, invalid: seq<ErrorFinding>)
    ensures foundTypes == FoundTypes(payloads)
    ensures invalid == JsonLdErrors(payloads)
  {
    foundTypes, invalid := [], [];
    var i := 0;
    while i < |payloads|
      invariant 0 <= i <= |payloads|
      invariant foundTypes == FoundTypes(payloads[..i])
      invariant invalid == JsonLdErrors(payloads[..i])
    {
      var payload := payloads[i];
      if ParseFails(payload) {
        invalid := invalid + [InvalidJsonLd];
      } else if HasTypeName(payload) {
        foundTypes := foundTypes + [payload.typeName.value];
      }
      assert payloads[..i + 1][..i] == payloads[..i];
      i := i + 1;
    }
    assert payloads[..i] == payloads;
  }

  /** One verdict per configured structured-data type, in the configured order. */
  method CheckTypes(types: seq<string>, foundTypes: seq<string>)
    returns (present: seq<PassedFinding>, absent: seq<WarningFinding>)
    ensures present == TypeFindings(types, foundTypes).passed
    ensures absent == TypeFindings(types, foundTypes).warnings
  {
    present, absent := [], [];
    var j := 0;
    while j < |types|
      invariant 0 <= j <= |types|
      invariant present == TypeFindings(types[..j], foundTypes).passed
      invariant absent == TypeFindings(types[..j], foundTypes).warnings
    {
      var t := types[j];
      if t in foundTypes {
        present := present + [TypePresent(t)];
      } else {
        absent := absent + [TypeMissing(t)];
      }
      assert types[..j + 1][..j] == types[..j];
      j := j + 1;
    }
    assert types[..j] == types;
  }

  /**
   One pass over the links: the warnings for external links without
   `noopener` and the three counters. The external and nofollow counters are
   kept, as in the page script, but reported nowhere.
   */
  method ScanLinks(links: seq<Link>)
    returns (unprotected: seq<WarningFinding>, brokenAnchors: nat, externalLinks: nat, nofollowLinks: nat)
    ensures unprotected == NoopenerWarnings(links)
    ensures brokenAnchors == Count(links, IsBrokenAnchor)
    ensures externalLinks == Count(links, IsExternal)
    ensures nofollowLinks == Count(links, IsNofollow)
  {
    unprotected, brokenAnchors, externalLinks, nofollowLinks := [], 0, 0, 0;
    var i := 0;
    while i < |links|
      invariant 0 <= i <= |links|
      invariant unprotected == NoopenerWarnings(links[..i])
      invariant brokenAnchors == Count(links[..i], IsBrokenAnchor)
      invariant externalLinks == Count(links[..i], IsExternal)
      invariant nofollowLinks == Count(links[..i], IsNofollow)
    {
      var link := links[i];
      if IsBrokenAnchor(link) {
        brokenAnchors := brokenAnchors + 1;
      }
      if IsExternal(link) {
        externalLinks := externalLinks + 1;
        if !HasNoopener(link) {
          unprotected := unprotected + [ExternalLinkMissingNoopener(Prefix(link.href.value, 50))];
        }
      }
      if IsNofollow(link) {
        nofollowLinks := nofollowLinks + 1;
      }
      assert links[..i + 1] == links[..i] + [link];
      CountSnoc(links[..i], link, IsBrokenAnchor);
      CountSnoc(links[..i], link, IsExternal);
      CountSnoc(links[..i], link, IsNofollow);
      i := i + 1;
    }
    assert links[..i] == links;
  }

  class SeoMonitor {
    var passed: seq<PassedFinding>
    var warnings: seq<WarningFinding>
    var errors: seq<ErrorFinding>
    var score: ScoreValue

    /** The three lists as one value. */
    function Current(): Results
      reads this
    {
      Results(passed, warnings, errors)
    }

    constructor ()
      ensures passed == [] && warnings == [] && errors == []
      ensures score == Number(0)
    {
      passed, warnings, errors := [], [], [];
      score := Number(0);
    }

    /** The title step of `checkMetaTags`: missing, within the length bounds, or not. */
    method CheckTitle(cfg: Config, title: Option<string>)
      modifies this
      ensures passed == old(passed) + TitleFindings(cfg, title).passed
      ensures warnings == old(warnings) + TitleFindings(cfg, title).warnings
      ensures errors == old(errors) + TitleFindings(cfg, title).errors
      ensures score == old(score)
    {
      match title {
        case None =>
          errors := errors + [TitleMissing];
        case Some(t) =>
          if cfg.minTitleLength <= |t| <= cfg.maxTitleLength {
            passed := passed + [TitleOptimal];
          } else {
            warnings := warnings + [TitleLengthOff(|t|, cfg.minTitleLength, cfg.maxTitleLength)];
          }
      }
    }

    /** The description step of `checkMetaTags`: only a description with content is measured. */
    method CheckDescription(cfg: Config, found: map<string, Option<string>>)
      modifies this
      ensures passed == old(passed) + DescriptionFindings(cfg, found).passed
      ensures warnings == old(warnings) + DescriptionFindings(cfg, found).warnings
      ensures errors == old(errors) && score == old(score)
    {
      if HasContent(found, "description") {
        var descLength := |found["description"].value|;
        if cfg.minDescriptionLength <= descLength <= cfg.maxDescriptionLength {
          passed := passed + [DescriptionOptimal];
        } else {
          warnings := warnings + [DescriptionLengthOff(descLength, cfg.minDescriptionLength, cfg.maxDescriptionLength)];
        }
      }
    }

    /** The title, the required meta tags and the description length. */
    method CheckMetaTags(cfg: Config, doc: Document)
      modifies this
      ensures passed == old(passed) + MetaTagFindings(cfg, doc).passed
      ensures warnings == old(warnings) + MetaTagFindings(cfg, doc).warnings
      ensures errors == old(errors) + MetaTagFindings(cfg, doc).errors
      ensures score == old(score)
    {
      ghost var start := Results(passed, warnings, errors);
      CheckTitle(cfg, doc.title);
      ghost var title := TitleFindings(cfg, doc.title);
      assert Results(passed, warnings, errors) == start.Append(title);

      var found := CollectMetaTags(doc.meta);
      var present, missing := CheckRequiredMetaTags(cfg.requiredMetaTags, found);
      passed, errors := passed + present, errors + missing;
      ghost var checked := RequiredMetaFindings(cfg.requiredMetaTags, found);
      assert Results(passed, warnings, errors) == start.Append(title).Append(checked);

      CheckDescription(cfg, found);
      ghost var description := DescriptionFindings(cfg, found);
      assert Results(passed, warnings, errors) == start.Append(title).Append(checked).Append(description);
      AppendTwice(start, title, checked);
      AppendTwice(start, title.Append(checked), description);
    }

    /** One error per payload that fails to parse, then one finding per configured type. */
    method CheckStructuredData(cfg: Config, doc: Document)
      modifies this
      ensures passed == old(passed) + StructuredDataFindings(cfg, doc.jsonLd).passed
      ensures warnings == old(warnings) + StructuredDataFindings(cfg, doc.jsonLd).warnings
      ensures errors == old(errors) + StructuredDataFindings(cfg, doc.jsonLd).errors
      ensures score == old(score)
    {
      var foundTypes, invalid := ParseStructuredData(doc.jsonLd);
      errors := errors + invalid;
      var present, absent := CheckTypes(cfg.structuredDataTypes, foundTypes);
      passed, warnings := passed + present, warnings + absent;
    }

    /** One finding on alt text and one on dimensions. */
    method CheckImages(doc: Document)
      modifies this
      ensures passed == old(passed) + ImageFindings(doc.images).passed
      ensures warnings == old(warnings) + ImageFindings(doc.images).warnings
      ensures errors == old(errors) && score == old(score)
    {
      var missingAlt, missingDimensions := CountImageDefects(doc.images);
      if missingAlt == 0 {
        passed := passed + [AllImagesHaveAlt];
      } else {
        warnings := warnings + [ImagesMissingAlt(missingAlt)];
      }
      if missingDimensions == 0 {
        passed := passed + [AllImagesHaveDimensions];
      } else {
        warnings := warnings + [ImagesMissingDimensions(missingDimensions)];
      }
    }

    /** The number of level-1 headings, then whether there is any heading. */
    method CheckHeaders(doc: Document)
      modifies this
      ensures passed == old(passed) + HeadingFindings(doc.headings).passed
      ensures warnings == old(warnings) + HeadingFindings(doc.headings).warnings
      ensures errors == old(errors) + HeadingFindings(doc.headings).errors
      ensures score == old(score)
    {
      var h1Count := Count(doc.headings, IsH1);
      var headerCount := |doc.headings|;
      if h1Count == 1 {
        passed := passed + [SingleH1];
      } else if h1Count == 0 {
        errors := errors + [NoH1];
      } else {
        warnings := warnings + [MultipleH1(h1Count)];
      }
      if headerCount > 0 {
        passed := passed + [HeadingsFound(headerCount)];
      } else {
        errors := errors + [NoHeadings];
      }
    }

    /**
     One warning per external link without `noopener`, then the total link
     count, then the broken anchors if there are any.
     */
    method CheckLinks(doc: Document)
      modifies this
      ensures passed == old(passed) + LinkFindings(doc.links).passed
      ensures warnings == old(warnings) + LinkFindings(doc.links).warnings
      ensures errors == old(errors) && score == old(score)
    {
      var links := doc.links;
      var unprotected, brokenAnchors, externalLinks, nofollowLinks := ScanLinks(links);
      warnings := warnings + unprotected;

      passed := passed + [LinksFound(|links|)];
      if brokenAnchors > 0 {
        warnings := warnings + [BrokenAnchors(brokenAnchors)];
      }
    }

    /** Lazy-loaded images always give a finding; defer/async scripts only when there are some. */
    method CheckPerformance(doc: Document)
      modifies this
      ensures passed == old(passed) + PerformanceFindings(doc.images, doc.scripts).passed
      ensures warnings == old(warnings) + PerformanceFindings(doc.images, doc.scripts).warnings
      ensures errors == old(errors) && score == old(score)
    {
      var lazyImages := Count(doc.images, IsLazy);
      if lazyImages > 0 {
        passed := passed + [LazyImages(lazyImages)];
      } else {
        warnings := warnings + [NoLazyImages];
      }
      var scripts := Count(doc.scripts, HasSrc);
      var deferredScripts := Count(doc.scripts, IsDeferred);
      if deferredScripts > 0 {
        passed := passed + [DeferredScripts(deferredScripts, scripts)];
      }
    }

    /** Overwrites the score with the weighted pass rate of the current lists. */
    method CalculateScore()
      modifies this`score
      ensures score == ScoreOf(Current())
    {
      score := Score(|passed|, |warnings|, |errors|);
    }

    /** The six checks in order, then the score. */
    method RunAllChecks(cfg: Config, doc: Document)
      modifies this
      ensures Current() == old(Current()).Append(AuditFindings(cfg, doc))
      ensures score == ScoreOf(Current())
      ensures score.Number? && 0 <= score.value <= 100
    {
      ghost var start := Results(passed, warnings, errors);
      CheckMetaTags(cfg, doc);
      ghost var done := MetaTagFindings(cfg, doc);
      assert Results(passed, warnings, errors) == start.Append(done);

      CheckStructuredData(cfg, doc);
      ghost var next := StructuredDataFindings(cfg, doc.jsonLd);
      assert Results(passed, warnings, errors) == start.Append(done).Append(next);
      AppendTwice(start, done, next);
      done := done.Append(next);

      CheckImages(doc);
      next := ImageFindings(doc.images);
      assert Results(passed, warnings, errors) == start.Append(done).Append(next);
      AppendTwice(start, done, next);
      done := done.Append(next);

      CheckHeaders(doc);
      next := HeadingFindings(doc.headings);
      assert Results(passed, warnings, errors) == start.Append(done).Append(next);
      AppendTwice(start, done, next);
      done := done.Append(next);

      CheckLinks(doc);
      next := LinkFindings(doc.links);
      assert Results(passed, warnings, errors) == start.Append(done).Append(next);
      AppendTwice(start, done, next);
      done := done.Append(next);

      CheckPerformance(doc);
      next := PerformanceFindings(doc.images, doc.scripts);
      assert Results(passed, warnings, errors) == start.Append(done).Append(next);
      AppendTwice(start, done, next);
      done := done.Append(next);
      assert done == AuditFindings(cfg, doc);

      CalculateScore();
    }
  }

  /**
   Running the checks twice on one monitor doubles every list, because the
   lists are only emptied by the constructor, yet leaves the score as it was.
   */
  method RepeatedRunKeepsScore(cfg: Config, doc: Document)
    returns (monitor: SeoMonitor, first: ScoreValue, second: ScoreValue)
    ensures monitor.passed == AuditFindings(cfg, doc).passed + AuditFindings(cfg, doc).passed
    ensures monitor.warnings == AuditFindings(cfg, doc).warnings + AuditFindings(cfg, doc).warnings
    ensures monitor.errors == AuditFindings(cfg, doc).errors + AuditFindings(cfg, doc).errors
    ensures first == second && second == monitor.score
    ensures first.Number? && 0 <= first.value <= 100
  {
    monitor := new SeoMonitor();
    ghost var a := AuditFindings(cfg, doc);
    monitor.RunAllChecks(cfg, doc);
    first := monitor.score;
    assert monitor.passed == a.passed && monitor.warnings == a.warnings && monitor.errors == a.errors;
    monitor.RunAllChecks(cfg, doc);
    second := monitor.score;
    assert monitor.Current() == a.Append(a);
    RepeatedFindingsKeepScore(a);
  }
}
