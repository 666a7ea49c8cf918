# SEO health check, modelled in Dafny

This project models the `SEOMonitor` health-check auditor of the Kids Center
Costa Rica website (`seo-monitor.js`). The auditor inspects the rendered page
and runs six fixed checks, in order:

1. the title and the meta tags;
2. the JSON-LD structured data;
3. the images;
4. the headings;
5. the links;
6. the performance hints.

Each check appends findings to one of three lists: `passed`, `warnings` or
`errors`. A final step turns the three list sizes into a 0–100 score.

The model has five modules:

- `SeoTypes` (`seo_types.dfy`) holds the configuration record and the
  shipped `SEO_CONFIG`. It also holds a read-only page snapshot that stands
  in for the DOM queries, the findings and the counting function.
  - A finding is a kind plus the values its message shows.
  - There is one finding type per list, so a finding can never be filed in
    the wrong list.
- `SeoChecks` (`seo_checks.dfy`) states what each check appends, as a
  function of the configuration and the snapshot. Its lemmas prove what each
  check promises:
  - how many findings it adds, and to which list;
  - when each verdict is given;
  - that later meta tags overwrite earlier ones;
  - that a broken anchor is never external.
- `SeoScore` (`seo_score.dfy`) computes the score exactly on integers. The
  page script computes `Math.round(((P + W/2) / T) * 100)`; the model
  computes `((2P + W) * 100 + T) / (2T)`.
  - The result is characterised as the unique percentage within half a unit
    of the weighted share.
  - It lies in 0..100.
  - It is unchanged when every list grows by the same factor.
  - With no findings at all the page script computes 0/0, which is `NaN`;
    the model keeps that case as `NaN`.
- `Monitor` (`seo_monitor.dfy`) is the imperative form.
  - The class `SeoMonitor` has the three lists and the score as fields.
  - It has one method per check, each proved to append exactly what
    `SeoChecks` specifies and nothing else.
  - The `forEach` loops of the page script are `while` loops with their
    invariants: the meta dictionary, the image counters, the JSON-LD pass,
    the required names and types, and the link counters.
  - `RunAllChecks` is proved to leave the lists extended by the whole audit,
    and to leave a score in 0..100, never `NaN`. This holds because the link
    check always files a passed finding.
- `SeoFixtures` (`seo_fixtures.dfy`) proves what the checks give on two
  concrete inputs.
  - The site's own structured-data payloads (LocalBusiness, FAQPage,
    BreadcrumbList, from `src/schemas/structured-data.js`) give three passed
    findings and three warnings against the six configured types.
  - A page with nothing on it gives 3 passed findings, 7 warnings and
    12 errors, and a score of 30.

Repeated runs: one might expect each audit to start fresh, but the lists
are set up only in the constructor (seo-monitor.js:38-45). A second
`runAllChecks` on the same object therefore appends a second copy of every
finding. `RepeatedRunKeepsScore` proves that the lists double while the
score stays the same.

Inputs the page script reads from the browser are all fields of the
`Document` snapshot. This covers `querySelector*`, `getAttribute`,
`textContent` and the outcome of `JSON.parse`. `console` output and
analytics are not modelled.

## Model

| member | source | states |
|---|---|---|
| SeoChecks.TitleFindings | seo-monitor.js:53-62 | the title check files exactly one finding: the missing-title error iff there is no title; the optimal-title pass iff its length is within the inclusive bounds; otherwise the length warning carrying the length and both bounds (so an empty title is a warning) |
| SeoChecks.MetaKey | seo-monitor.js:67-68 | a non-empty `name` is always the key; otherwise the key is a non-empty `property`; a tag has no key iff both are absent or empty |
| SeoChecks.FoundMeta | seo-monitor.js:65-71 | the `foundMetaTags` dictionary filled tag by tag: every key is non-empty; `FoundMetaKeys` and `FoundMetaLastWins` state which keys it holds and which content each one keeps |
| SeoChecks.FoundMetaKeys | seo-monitor.js:65-71 | a key is in the meta dictionary iff some tag is filed under it |
| SeoChecks.FoundMetaLastWins | seo-monitor.js:66-71 | the dictionary entry of a key is the content of the last tag filed under it: later tags overwrite earlier ones |
| SeoChecks.RequiredMetaFindings | seo-monitor.js:74-80 | each required name gives exactly one finding, passed or error, and never a warning |
| SeoChecks.RequiredMetaVerdicts | seo-monitor.js:74-80 | a required name is reported present iff its stored content is non-empty, and missing iff it is not |
| SeoChecks.DescriptionFindings | seo-monitor.js:83-90 | a description finding appears iff the description content is non-empty; it is the optimal-description pass iff the length is within the inclusive bounds, otherwise the length warning carrying the length and both bounds; it is never an error |
| SeoChecks.MetaTagFindings | seo-monitor.js:48-91 | the meta-tag check files 1 + (number of required names) + (1 if the description has content) findings |
| SeoChecks.JsonLdErrors | seo-monitor.js:98-107 | one error per payload whose parse throws (malformed text, or JSON `null`, whose "@type" cannot be read) |
| SeoChecks.JsonLdErrorsAllInvalid | seo-monitor.js:104-106 | every error the structured-data parse files is the invalid JSON-LD error |
| SeoChecks.FoundTypes | seo-monitor.js:98-107 | `foundTypes` has one entry per payload that parses with a non-empty string "@type" |
| SeoChecks.FoundTypesMembers | seo-monitor.js:101-103 | a name is in `foundTypes` iff some parsed payload has it as its "@type" |
| SeoChecks.FailedPayloadsContributeNoType | seo-monitor.js:99-106 | a payload whose parse throws contributes no type: found types plus parse errors never exceed the payload count |
| SeoChecks.TypeFindings | seo-monitor.js:109-115 | each configured type gives exactly one finding, passed or warning, and never an error |
| SeoChecks.TypeVerdicts | seo-monitor.js:109-115 | a configured type is reported present iff it is in `foundTypes`, and missing iff it is not |
| SeoChecks.TypeFindingsConcat | seo-monitor.js:109-115 | the verdicts for a list of types split into the verdicts for any prefix followed by those for the rest |
| SeoChecks.StructuredDataFindings | seo-monitor.js:94-116 | the structured-data check files as many errors as failing payloads, and one passed-or-warning finding per configured type |
| SeoChecks.ImageFindings | seo-monitor.js:119-144 | the image check files exactly two findings and no error; each is passed iff its count is zero, else a warning carrying a count between 1 and the number of images; both pass iff every image has alt text and both dimensions |
| SeoChecks.MissingDimensionsCountedOnce | seo-monitor.js:128-130 | an image missing width or height is counted once: inclusion–exclusion over the two attributes, and each attribute's count is at most the dimensions count |
| SeoChecks.BothCountedWithin | seo-monitor.js:128-130 | images missing both dimensions are at most those missing either one |
| SeoChecks.HeadingFindings | seo-monitor.js:147-164 | the heading check files exactly two findings: one H1 passes, none is an error, several is a warning with the count; any heading passes, none is an error |
| SeoChecks.ContainsAt | seo-monitor.js:180 | `includes` holds iff the substring occurs at some position |
| SeoChecks.Prefix | seo-monitor.js:181 | `substring(0, n)` is a prefix of the string of length n, or the whole string when it is shorter |
| SeoChecks.NoopenerWarnings | seo-monitor.js:178-183 | one warning per external (`http://` or `https://`) link whose `rel` lacks `noopener` |
| SeoChecks.NoopenerWarningsMembers | seo-monitor.js:178-183 | a warning is filed iff some link needs `noopener` and the warning is that link's, carrying the first 50 characters of its href |
| SeoChecks.BrokenAnchorWarnings | seo-monitor.js:190-192 | a warning is filed iff some link has no, an empty or a `#` href, and it is then the single broken-anchors warning carrying their count |
| SeoChecks.LinkFindings | seo-monitor.js:167-193 | the link check always files exactly the total-links finding as passed, never an error, and its warnings number the links that need `noopener` plus one if any anchor is broken |
| SeoChecks.LinkWarningsAtMostOnePerLink | seo-monitor.js:173-192 | a broken anchor is never external, so the link check warns at most once per link |
| SeoChecks.PerformanceFindings | seo-monitor.js:196-211 | the lazy-loading finding is always filed: the no-lazy-images warning iff no image is lazy, otherwise the lazy-images pass carrying their count; the defer/async pass, carrying the deferred count and the `src` script count, is filed iff some script has `defer` or `async`; never an error |
| SeoChecks.AuditFindings | seo-monitor.js:227-232 | the six checks always include the total-links passed finding and file at least 7 + (required names) + (configured types) findings |
| SeoScore.RoundHalfUp | seo-monitor.js:220 | the integer form of the score lies within half a percent of the weighted share |
| SeoScore.RoundsToUnique | seo-monitor.js:220 | only one percentage lies within half a unit of a given share |
| SeoScore.RoundedShareAtMostHundred | seo-monitor.js:220 | a share of at most the whole rounds to at most 100 |
| SeoScore.Score | seo-monitor.js:214-221 | the score is NaN iff there are no findings; otherwise it lies in 0..100 and is within half a unit of 100·(P + W/2)/T |
| SeoScore.ScoreIsRoundedShare | seo-monitor.js:214-221 | the score is the one percentage within half a unit of the weighted share |
| SeoScore.AllPassedScoresHundred | seo-monitor.js:215-220 | with no warning and no error the score is 100 |
| SeoScore.OnlyErrorsScoreZero | seo-monitor.js:215-220 | with no passed finding and no warning the score is 0 |
| SeoScore.EvenSplitScoresFifty | seo-monitor.js:215-220 | as many passed findings as errors and no warning gives 50 |
| SeoScore.OnlyWarningsScoreFifty | seo-monitor.js:215-220 | only warnings gives 50 |
| SeoScore.ScoreScales | seo-monitor.js:214-221 | multiplying all three list sizes by the same factor leaves the score unchanged |
| SeoScore.RepeatedFindingsKeepScore | seo-monitor.js:214-221 | filing every finding a second time leaves the score unchanged |
| Monitor.CollectMetaTags | seo-monitor.js:65-71 | the loop over the meta tags builds exactly the meta dictionary, whose keys are all non-empty |
| Monitor.CheckRequiredMetaTags | seo-monitor.js:74-80 | the loop over the required names yields exactly their verdicts |
| Monitor.ParseStructuredData | seo-monitor.js:98-107 | the loop over the payloads yields exactly `foundTypes` and the parse errors |
| Monitor.CheckTypes | seo-monitor.js:109-115 | the loop over the configured types yields exactly their verdicts |
| Monitor.CountImageDefects | seo-monitor.js:121-131 | the loop over the images counts exactly the images missing alt text and those missing a dimension |
| Monitor.ScanLinks | seo-monitor.js:168-187 | the loop over the links yields exactly the `noopener` warnings and the broken-anchor, external and nofollow counts |
| Monitor.SeoMonitor.constructor | seo-monitor.js:38-45 | a new monitor has three empty lists and a score of 0 |
| Monitor.SeoMonitor.CheckTitle | seo-monitor.js:53-62 | appends the title finding to its list, leaving every earlier entry and the score untouched |
| Monitor.SeoMonitor.CheckDescription | seo-monitor.js:83-90 | appends the description finding, if any, leaving every earlier entry untouched |
| Monitor.SeoMonitor.CheckMetaTags | seo-monitor.js:48-91 | appends exactly the meta-tag findings to each list, after the earlier entries |
| Monitor.SeoMonitor.CheckStructuredData | seo-monitor.js:94-116 | appends exactly the structured-data findings to each list, after the earlier entries |
| Monitor.SeoMonitor.CheckImages | seo-monitor.js:119-144 | appends exactly the image findings, after the earlier entries, and no error |
| Monitor.SeoMonitor.CheckHeaders | seo-monitor.js:147-164 | appends exactly the heading findings to each list, after the earlier entries |
| Monitor.SeoMonitor.CheckLinks | seo-monitor.js:167-193 | appends exactly the link findings, after the earlier entries, and no error |
| Monitor.SeoMonitor.CheckPerformance | seo-monitor.js:196-211 | appends exactly the performance findings, after the earlier entries, and no error |
| Monitor.SeoMonitor.CalculateScore | seo-monitor.js:214-221 | overwrites the score with the score of the current lists and changes nothing else |
| Monitor.SeoMonitor.RunAllChecks | seo-monitor.js:224-233 | extends the lists by the six checks' findings in order; the score is that of the extended lists, a number in 0..100 and never NaN |
| Monitor.RepeatedRunKeepsScore | seo-monitor.js:224-233 | running the checks twice on a new monitor leaves each list holding the audit's findings twice, and gives the same score after both runs, in 0..100 |
| SeoFixtures.SiteSchemasTypes | src/schemas/structured-data.js:3-150 | the site's three payloads all parse and contribute LocalBusiness, FAQPage and BreadcrumbList |
| SeoFixtures.SiteSchemasFindings | seo-monitor.js:26-33 | against the six configured types, the site's payloads give three passed findings, three warnings and no error |
| SeoFixtures.EmptyPageAudit | seo-monitor.js:224-233 | an empty page gives 3 passed findings, 7 warnings and 12 errors, and a score of 30 |

## Left out

- `displayResults` (seo-monitor.js:239-271), with its console output and the `gtag` analytics event, is presentation only.
- The `DOMContentLoaded` bootstrap and the `window.SEOMonitor` export are browser wiring.
- `script.js` (menu, chat launcher, form submission, animations) is not part of this model.
- `build.js` (file I/O and evaluation of a script literal) is not part of this model.
- The structured-data injection of `src/schemas/structured-data.js` is not part of this model. Its "@type" values serve only as the fixture in `SeoFixtures`.
- DOM queries and `getAttribute` are replaced by the `Document` snapshot. That includes the CSS selector rules, such as attribute-value case matching for `loading="lazy"`.
- `JSON.parse` is replaced by its outcome in the snapshot: malformed, `null`, or an object with its "@type".
- SeoChecks.FoundTypes: keeps only string "@type" values. A truthy non-string "@type", which the page script pushes, can never equal a configured name, so no finding differs.
- SeoScore.Score: computes the rounding exactly. The floating-point division and `Math.round` may differ from it at exact half-percent boundaries.
- Lengths are counted in characters. JavaScript's `.length` counts UTF-16 code units.
- Finding messages are kept abstract: each finding is its kind plus the values its message interpolates. The emoji text is not modelled.
- Inherited `Object.prototype` names (such as `constructor`) looked up in the meta dictionary are not modelled. A required name that is not a stored key is missing.
- `siteName` and `expectedTitle` are part of the configuration record. No check reads them.
