/**
 What the health check gives, under the shipped configuration, on two
 concrete inputs: the site's own structured-data payloads, and a page with
 nothing on it.
 */
module SeoFixtures {
  import opened SeoTypes
  import opened SeoChecks
  import opened SeoScore

  /** The three JSON-LD payloads the site injects, by their "@type". */
  const SiteSchemas: seq<JsonLd> :=
    [Parsed(Some("LocalBusiness")), Parsed(Some("FAQPage")), Parsed(Some("BreadcrumbList"))]

  /** The site's payloads all parse, and contribute their three names to `foundTypes`. */
  lemma SiteSchemasTypes()
    ensures JsonLdErrors(SiteSchemas) == []
    ensures FoundTypes(SiteSchemas) == ["LocalBusiness", "FAQPage", "BreadcrumbList"]
  {
    assert SiteSchemas[..1][..0] == [];
    assert SiteSchemas[..2][..1] == SiteSchemas[..1];
    assert SiteSchemas[..2] == SiteSchemas[..|SiteSchemas| - 1];
  }

  /** Each of the first three configured types is among them. */
  lemma SiteTypesPresent()
    ensures TypeFindings(["LocalBusiness", "FAQPage", "BreadcrumbList"], ["LocalBusiness", "FAQPage", "BreadcrumbList"])
         == Results([TypePresent("LocalBusiness"), TypePresent("FAQPage"), TypePresent("BreadcrumbList")], [], [])
  {
    var types := ["LocalBusiness", "FAQPage", "BreadcrumbList"];
    assert types[..1][..0] == [];
    assert types[..2][..1] == types[..1];
    assert types[..2] == types[..|types| - 1];
  }

  /** None of the last three configured types is among them. */
  lemma SiteTypesMissing()
    ensures TypeFindings(["WebSite", "Review", "Course"], ["LocalBusiness", "FAQPage", "BreadcrumbList"])
         == Results([], [TypeMissing("WebSite"), TypeMissing("Review"), TypeMissing("Course")], [])
  {
    var types := ["WebSite", "Review", "Course"];
    assert types[..1][..0] == [];
    assert types[..2][..1] == types[..1];
    assert types[..2] == types[..|types| - 1];
  }

  /** The configured types: the site's three, then three more. */
  lemma ConfiguredTypesSplit()
    ensures SeoConfig.structuredDataTypes ==
      ["LocalBusiness", "FAQPage", "BreadcrumbList"] + ["WebSite", "Review", "Course"]
  {
  }

  /**
   The site's payloads carry three of the six configured types: three passed
   findings and three warnings, in the configured order, and no error.
   */
  lemma SiteSchemasFindings()
    ensures StructuredDataFindings(SeoConfig, SiteSchemas) == Results(
      [TypePresent("LocalBusiness"), TypePresent("FAQPage"), TypePresent("BreadcrumbList")],
      [TypeMissing("WebSite"), TypeMissing("Review"), TypeMissing("Course")],
      [])
  {
    SiteSchemasTypes();
    SiteTypesPresent();
    SiteTypesMissing();
    var found := ["LocalBusiness", "FAQPage", "BreadcrumbList"];
    TypeFindingsConcat(found, ["WebSite", "Review", "Course"], found);
    ConfiguredTypesSplit();
  }

  /** A page without title, meta tags, structured data, images, headings, links or scripts. */
  const EmptyPage: Document := Document(None, [], [], [], [], [], [])

  /**
   The empty page: a missing title, nine missing meta tags and two heading
   errors; six missing types and no lazy images as warnings; vacuously
   complete images and the link total as passed findings. That is 3 passed,
   7 warnings and 12 errors, and a score of 30 (13/44 of the whole).
   */
  lemma EmptyPageAudit()
    ensures |AuditFindings(SeoConfig, EmptyPage).passed| == 3
    ensures |AuditFindings(SeoConfig, EmptyPage).warnings| == 7
    ensures |AuditFindings(SeoConfig, EmptyPage).errors| == 12
    ensures ScoreOf(AuditFindings(SeoConfig, EmptyPage)) == Number(30)
  {
    var meta := MetaTagFindings(SeoConfig, EmptyPage);
    assert |RequiredMetaFindings(SeoConfig.requiredMetaTags, map[]).errors| == 9 by {
      RequiredMetaNoneFound(SeoConfig.requiredMetaTags);
    }
    var structured := StructuredDataFindings(SeoConfig, []);
    assert |structured.warnings| == 6 by {
      TypeVerdictsNoneFound(SeoConfig.structuredDataTypes);
    }
    ScoreIsRoundedShare(3, 7, 12, 30);
  }

  /** With an empty dictionary every required name is missing. */
  lemma {:induction false} RequiredMetaNoneFound(required: seq<string>)
    ensures RequiredMetaFindings(required, map[]).passed == []
    ensures |RequiredMetaFindings(required, map[]).errors| == |required|
    decreases |required|
  {
    if required != [] {
      RequiredMetaNoneFound(required[..|required| - 1]);
    }
  }

  /** With no type found every configured type is a warning. */
  lemma {:induction false} TypeVerdictsNoneFound(types: seq<string>)
    ensures TypeFindings(types, []).passed == []
    ensures |TypeFindings(types, []).warnings| == |types|
    decreases |types|
  {
    if types != [] {
      TypeVerdictsNoneFound(types[..|types| - 1]);
    }
  }
}
