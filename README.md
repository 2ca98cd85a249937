# PrevisIA Acessibilidade — a Dafny model of the analyser and the navigation guide

PrevisIA predicts how accessible a web page is. It does this in three steps:

1. It reads the page's HTML and extracts a handful of accessibility metrics, in `collector.py`:
   - images without alternative text (`imagens_sem_alt`);
   - the share of generic link texts such as "clique aqui" (`pct_links_genericos`);
   - whether a language is declared (`lang_presente`);
   - skipped heading levels (`erros_hierarquia`);
   - form fields without a label (`inputs_sem_label`);
   - ARIA roles (`aria_presente`);
   - videos without captions (`videos_sem_captions`);
   - a small `layout` record of the page's regions: header, menu, main content, footer, carousel and form.
2. A browser audit (axe) turns the number of violations into a 0–100 label score and counts contrast failures.
3. The web app (`app.py`) clamps and rounds the model's prediction. It then writes a *predictive navigation guide*: a Portuguese text, read aloud, that walks a screen-reader user through the page and warns about what will get in the way.

The project is made of these modules:

- `html.dfy` (`Html`): the parsed page as a tree of elements and text. It also gives the Beautiful Soup queries the analyser uses: `find_all`, `find`, `select_one` with the two selector shapes of the region table, `get` and `.text`.
- `strings.dfy` (`Strings`): `strip`, `lower`, `str(int)` and the last `/`-segment of a URL.
- `seqs.dfy` (`Seqs`): filtering, counting and "first that matches".
- `wrappers.dfy` (`Wrappers`): `Option`.
- `collector.dfy` (`Collector`): the feature extractor as functions on the page tree, with one specification function per metric. `ExtractFeatures` and its layout loop `DetectLayout` are methods proved equal to the specification record `Extracted`. It also holds the audit arithmetic and the two analyses, complete and quick, whose download and browser audit are inputs.
- `app.dfy` (`App`): the guide and the served score.
  - Every clause the guide can contain is a `Clause`, and `Render` holds its exact text.
  - `Enabled` is the condition under which the source writes the clause.
  - `Plan` is the enabled candidates in the order the source tries them. `GuideText` is their texts joined.
  - `ComposeGuide` follows the source's chain of `if`s block by block and is proved to return `GuideText`. Lemmas then state what that text contains, in what order, and under which conditions.

## Model

| member | source | states |
|---|---|---|
| Html.Elements | collector.py:43 | the document order `find_all` and `select_one` walk: only elements, every top-level element among them, a forest starting with an element lists it first |
| Html.ElementsOfElement | collector.py:43 | pre-order: an element is listed, then every element below it, in order |
| Html.ElementsConcat | collector.py:43 | the elements of two forests side by side are the first's, then the second's |
| Html.FindAll | collector.py:43 | `find_all`: exactly the elements below the page with one of the tags, taken from the document's elements, as many as the document holds |
| Html.FindAllCount | collector.py:43-44 | each occurrence is found once: counting any property over `find_all`'s result counts the document's matching elements that have it |
| Html.FindAllConcat | collector.py:43 | `find_all` over two forests side by side finds those of the first, then those of the second |
| Html.TextOf | collector.py:50 | `.text`: a lone text node gives its content, an empty forest nothing |
| Html.TextOfConcat | collector.py:50 | the text of two forests side by side is the first's text followed by the second's |
| Html.ElementText | collector.py:50 | an element's text is the text of its children |
| Html.Matches | collector.py:22-29 | the two selector shapes: `tag` matches exactly the elements with that tag; `tag[attr*="v"]` only elements with that tag, and nothing when `v` is empty |
| Html.SelectOne | collector.py:88 | `select_one`: nothing when no element matches; otherwise a matching element with no matching element before it in document order |
| Strings.Strip | collector.py:44 | `strip()` is the middle of the text once the whitespace at both ends is gone: empty exactly when the text is all whitespace, otherwise neither starting nor ending with whitespace |
| Strings.Lower | collector.py:50 | `lower()` keeps the length and lower-cases character by character |
| Strings.LastSegment | app.py:37 | `url.split('/')[-1]`: contains no `/`, is a suffix of the URL, and is preceded by a `/` unless it is the whole URL |
| Strings.IntToStringRoundTrip | app.py:37 | the decimal text of an integer has a sign exactly when it is negative, and reads back as the same integer |
| Collector.ImagensSemAlt | collector.py:43-44 | never more than the number of images on the page |
| Collector.ImagensSemAltCountsBlankAlts | collector.py:44 | counts exactly the images whose `alt` is absent or made only of whitespace |
| Collector.ImagensSemAltConcat | collector.py:43-44 | the count over two forests side by side is the sum of their counts |
| Collector.ImagensSemAltIgnoresOrder | collector.py:43-44 | two pages with the same images, in whatever order, have the same count |
| Collector.PctLinksGenericos | collector.py:49-51 | a percentage from 0 to 100; 0 exactly when no link is generic (in particular with no links); 100 exactly when there are links and all are generic |
| Collector.Percent | collector.py:51 | `(part / whole) * 100`, or 0 for no links: in range, 0 iff part is 0, 100 iff part equals whole, and r·whole = 100·part |
| Collector.LangPresente | collector.py:56 | 1 exactly when the first `html` element in document order has a non-empty `lang`; otherwise 0 |
| Collector.Level | collector.py:62 | `int(h.name[1])`: the level is 1 to 6 and is the digit written after the `h` of the tag |
| Collector.HeadingLevels | collector.py:61-62 | one level per heading of the page, in document order: the i-th level is the level of the i-th heading `find_all` returns |
| Collector.HierarchyErrors | collector.py:63 | counting level skips never gives more than one less than the number of headings |
| Collector.HierarchyErrorsCountsJumps | collector.py:63 | the count is the number of positions whose level is more than one above the level before it |
| Collector.JumpsSnoc | collector.py:63 | the skipped positions of a list are those of its prefix, plus the last position when it skips |
| Collector.HierarchyErrorsExamples | collector.py:63 | h1→h3 is one error, h1→h2→h3 none, h1→h3→h2 one (going back up is not an error) |
| Collector.ErrosHierarquia | collector.py:61-63 | the page's count equals its number of skips and is below the number of headings |
| Collector.InputsSemLabel | collector.py:68-70 | never more than the fields whose type is neither hidden nor submit |
| Collector.UnlabelledIff | collector.py:69 | a counted field with a non-empty id is unlabelled exactly when no `label` of the page has that `for` |
| Collector.AriaPresente | collector.py:75 | 1 exactly when some element of the page has a `role` attribute; otherwise 0 |
| Collector.VideosSemCaptions | collector.py:80-81 | never more than the number of videos |
| Collector.LacksCaptionsIff | collector.py:81 | a video lacks captions exactly when no element below it is a `track` with kind `captions` |
| Collector.Matched | collector.py:88 | the matches kept for a region are all elements |
| Collector.MatchedChoosesFirstSelector | collector.py:88-90 | a region is found exactly when some selector matches; the chosen element is the first match of the first selector that matches |
| Collector.CategoryWrites | collector.py:91-100 | a found region writes exactly its category's keys. Carousel: images without alt never exceed images. Form: flagged labelled iff the page has no unlabelled field. Header, main and footer: presence 1 |
| Collector.EntryWrites | collector.py:88-100 | an entry whose selectors match nothing writes nothing; otherwise exactly its category's keys |
| Collector.RecordRegion | collector.py:89-100 | the loop body's if/elif chain adds to the layout exactly what the category writes for the chosen element |
| Collector.Written | collector.py:89-100 | a region that is not found writes nothing; a found one writes exactly its category's keys |
| Collector.LayoutOf | collector.py:87-100 | the fold over a region table writes only keys of the table's categories |
| Collector.LayoutOfSnoc | collector.py:87-100 | processing one more entry of a region table merges in what that entry writes |
| Collector.LayoutOfSix | collector.py:87-100 | the layout of a six-entry table is the merge of the six entries' writes, in order |
| Collector.LayoutUnrolled | collector.py:22-29 | the layout is the merge of the six regions' writes, in table order |
| Collector.TableKeys | collector.py:22-28 | the six categories of the table and the keys each one writes |
| Collector.CategoryKeysDisjoint | collector.py:91-100 | no two categories write the same key, so table order never overwrites a value |
| Collector.LayoutFound | collector.py:86-101 | a key is in the layout exactly when its category's region was found, and then holds what the chosen element gave it |
| Collector.LayoutKeysKnown | collector.py:86-101 | the layout holds no key outside the eight the detector knows |
| Collector.LayoutShape | collector.py:86-101 | for each key: present iff its region was found; header, main and footer 1; `nav_itens` the menu's links, `carousel_imagens` the carousel's images, `carousel_sem_alt` its images without alt (never more), `form_campos` the form's fields, `form_rotulados` true iff inputs_sem_label is 0 |
| Collector.LayoutShapeRegions | collector.py:90-100 | the header, menu, main and footer keys: present iff found, with presence 1 and the menu's link count |
| Collector.LayoutShapeCounts | collector.py:93-98 | the carousel and form keys: present iff found, with the image, missing-alt and field counts and the labelled flag |
| Collector.DetectLayout | collector.py:86-101 | the loop over the region table builds exactly the layout of the specification fold |
| Collector.DetectRegion | collector.py:87-100 | one turn of the loop adds exactly what the table entry writes: nothing when no selector matches |
| Collector.Extracted | collector.py:31-103 | the record `extrair_features` returns: no contrast count or label, only the eight known layout keys, and the form flagged labelled iff inputs_sem_label is 0 |
| Collector.ExtractFeatures | collector.py:31-103 | the extracted record is the specification record: every metric and the layout, and no contrast count or label |
| Collector.AuditScore | collector.py:124-125 | in 0–100, 100 iff no violation, 0 iff 20 or more |
| Collector.AuditScoreStep | collector.py:125 | below 20 violations, each further violation costs exactly 5 points: with AuditScore(0) = 100, the score is 100 less 5 per violation |
| Collector.AuditScoreAntitone | collector.py:125 | more violations never raise the score |
| Collector.ContrastFailures | collector.py:129 | never more than the nodes of all violations; 0 when no violation is `color-contrast` |
| Collector.ContrastFailuresOne | collector.py:129 | one violation contributes its node count exactly when its id is `color-contrast` |
| Collector.ContrastFailuresSumsContrastNodes | collector.py:129 | the count is the total node count of the `color-contrast` violations alone |
| Collector.ContrastFailuresConcat | collector.py:129 | the contrast count of two reports together is the sum of their counts |
| Collector.DynamicAudit | collector.py:105-134 | the sentinel (-1, -1) exactly when the audit crashed; otherwise a score in 0–100 and a non-negative count |
| Collector.AnalyzeComplete | collector.py:136-158 | no result iff the download failed or the audit gave the sentinel; otherwise the extracted record with the audit's contrast count and label |
| Collector.AnalyzeQuick | collector.py:160-175 | no result iff the download failed; otherwise the extracted record with contrast count 0 and no label |
| App.LayoutGet | app.py:44 | `layout.get(key, 0)`: the stored value when present, 0 otherwise |
| App.BucketOf | app.py:76-81 | the closing bucket: direct iff score > 80, reasonable iff 50 < score ≤ 80, alternatives iff score ≤ 50 |
| App.PageName | app.py:37 | the page name is never empty: the last URL segment when it is not empty, otherwise `principal` |
| App.Render | app.py:37-81 | the exact sentence the source appends for each clause, with its values written out (no contract: the text is the model) |
| App.Enabled | app.py:42-81 | the condition under which each clause is written: the opening and the closing always; with a form, the unlabelled alert iff inputs_sem_label > 0 and the all-labelled sentence otherwise |
| App.ClauseAt | app.py:37-81 | the candidate at position i of the narrative has rank i |
| App.Narrative | app.py:37-81 | seventeen candidates, in strictly increasing rank |
| App.Advance | app.py:42-81 | considering one more candidate appends its text exactly when its condition holds |
| App.PartsSoFarArePlanTexts | app.py:37-81 | after the first k candidates, the texts written are those of the enabled ones among them, in order |
| App.PartsAreGuide | app.py:37-83 | once every candidate is considered, the joined texts are the guide |
| App.OpeningStep | app.py:37 | the guide starts with the opening sentence, with page name, URL and score |
| App.HeaderStep | app.py:42-43 | the header sentence is appended exactly when `header_presente` is truthy |
| App.FooterStep | app.py:62-63 | the footer sentence is appended exactly when `footer_presente` is truthy |
| App.ImagesStep | app.py:66-67 | the page-wide images warning is appended exactly when more than 5 images lack alt |
| App.VideosStep | app.py:68-69 | the videos alert, with the count, is appended exactly when some video lacks captions |
| App.ContrastStep | app.py:70-71 | the contrast warning is appended exactly when the contrast count is positive |
| App.AriaStep | app.py:72-73 | the ARIA warning is appended exactly when no role is present |
| App.ClosingStep | app.py:75-81 | the closing sentence of the score's bucket is always appended last |
| App.ComposeGuide | app.py:30-83 | the guide the if-chain builds is exactly the texts of the enabled clauses, in narrative order |
| App.DescribeLayout | app.py:41-63 | the structure part of the guide (header through footer) is the texts of the enabled structural clauses |
| App.DescribeNav | app.py:44-47 | the menu sentence with the item count when `nav_itens` > 0, then the generic-links warning when over 20% |
| App.DescribeCarousel | app.py:48-51 | the gallery sentence when `carousel_imagens` > 0, then the missing-alt alert when `carousel_sem_alt` > 0 |
| App.DescribeMain | app.py:52-55 | the main-content sentence when `main_presente`, then the hierarchy warning when there are errors |
| App.DescribeForm | app.py:56-61 | the form sentence when `form_campos` > 0, then exactly one of the two label sentences |
| App.GeneralAlerts | app.py:65-73 | the images, videos, contrast and ARIA alerts, in that order, each under its threshold |
| App.NarrativeRanks | app.py:41-81 | the candidates come in strictly increasing rank |
| App.PlanOrder | app.py:41-81 | the clauses of the guide keep the narrative's order |
| App.CandidateInPlan | app.py:41-81 | the candidate at any position is in the guide iff its condition holds |
| App.PlanMembership | app.py:41-81 | a candidate is in the guide iff its condition holds; every clause of the guide is the candidate of its own rank |
| App.PlanStartsWithOpening | app.py:37 | the first clause of the guide is the opening |
| App.PlanEndsWithClosing | app.py:75-81 | the last clause of the guide is the closing of the score's bucket |
| App.OneClosing | app.py:75-81 | the guide holds exactly one closing |
| App.GenericLinksWarningFollowsNav | app.py:44-47 | the generic-links warning only ever comes right after the menu sentence |
| App.CarouselAlertFollowsCarousel | app.py:48-51 | the carousel's missing-alt alert only ever comes right after the gallery sentence |
| App.HierarchyWarningFollowsMain | app.py:52-55 | the hierarchy warning only ever comes right after the main-content sentence |
| App.LabelSentenceFollowsForm | app.py:56-61 | either label sentence only ever comes right after the form sentence |
| App.StructureGates | app.py:41-63 | each structural clause is in the guide iff its layout test (and the enclosing block's test) holds |
| App.AlertGates | app.py:65-73 | each page-wide alert is in the guide iff its threshold is passed |
| App.FormFollowUp | app.py:56-61 | with a form exactly one label sentence is written; without one, neither |
| App.GuideOpens | app.py:37 | the guide text begins with the opening sentence |
| App.GuideCloses | app.py:75-81 | the guide text ends with the closing sentence of the score's bucket |
| App.Clamp | app.py:131 | `max(0, min(100, raw))`: in 0–100, unchanged inside the range, 0 below and 100 above |
| App.RoundHalfEven | app.py:131 | `round`: within one half of the input, and ties go to the even integer |
| App.RoundToNearest | app.py:131 | an integer closer than one half to the input is what it rounds to |
| App.RoundMonotone | app.py:131 | rounding keeps order |
| App.ClampScore | app.py:131 | the served score is in 0–100: 0 at or below 0, 100 at or above 100, within one half of the prediction in between |
| App.ClampScoreKeepsWholeScores | app.py:131 | a whole prediction from 0 to 100 is served unchanged |
| App.ClampScoreMonotone | app.py:131 | a higher prediction never gives a lower served score |
| App.ClampScoreExamples | app.py:131 | -15 → 0, 137 → 100, 80 → 80, 2.5 → 2, 3.5 → 4, 80.4 → 80, 80.6 → 81 |

## Left out

- Downloading the page (`requests`, headers, timeout, status check) and parsing the HTML are not modelled. The page is an input tree (`Fetch`), and a failed download is the `FetchFailed` case.
- The browser audit (Selenium, ChromeDriver, the 3-second wait, axe injection) is not modelled. Its outcome is an input: a crash or a list of violations (`AuditRun`).
- The Flask routes, templates, the trained model and its feature importances, the thread pool and the URL prefixing in `predict` (app.py:85-145) are not modelled. The model's prediction enters `ClampScore` as a real number.
- trainer.py, orquestrador.py, prepare_urls.py and utils/validate_url.py are not part of this model.
- Printed diagnostics and exception messages are left out. Every exception of an analysis is the `None` result.
- Python floats are modelled as exact reals, so rounding error, NaN and infinities are not modelled.
- Strings.Lower: lower-cases only A–Z and the Kelvin sign. The generic phrases are plain ASCII, so only these characters can lower-case into one of them. The full Unicode case mapping is not modelled.
- App.ComposeGuide: the source's repeated `guia +=` on one string is modelled as a list of parts joined once at the end. The text is the same.
- App.ComposeGuide: requires the record to carry a contrast count. The source reads `features['falhas_contraste']` without a default, so a record without it (straight from `extrair_features`) raises `KeyError` there.
- The source's dictionaries are records here. A key the source always writes (every metric) is a field. The two written later are `Option`s: the contrast count and the label.

Where the code and the project's own description disagree, the model follows the code:

- The guide's sentences are not pluralised: "1 itens" is written as is.
- The page-wide images warning needs more than 5 images without alt (app.py:66), not just one.
- A structural clause needs its layout value to be truthy or positive (app.py:42-62), not merely present. A menu with 0 links writes no menu sentence.
- A video's captions `track` is searched among all its descendants (`find` is recursive, collector.py:81), not only its children.
- `extrair_features` itself does not write `falhas_contraste`. The quick analysis writes 0 and the complete analysis writes the audit's count.
- The dynamic audit is not retried: a crash gives the sentinel at once (collector.py:132-134).
- The opening names the page by its last `/`-segment, or `principal` when that is empty. It never falls back to the host (app.py:37).
- The served score is rounded half to even, as Python's `round` does (2.5 → 2, 3.5 → 4).
