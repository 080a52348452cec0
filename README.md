# AMP plugin core: node classifier, stylesheet budget accountant, layout sanitizer

This project models three pieces of the AMP plugin for WordPress in Dafny and proves properties of them.

- **The AMP node classifier** (`Amp\Amp`, module `Amp`). It is a set of stateless predicates over one DOM
  node:
  - is the node the AMP runtime script, the viewer-integration script, or an extension script;
  - what is the extension's name;
  - does the extension delay rendering;
  - is the node an AMP custom element.

  The PHP string primitives it uses are modelled with their PHP 8 meaning, on characters rather than bytes, in module `PhpStrings`. The
  primitives are `strpos`, `substr` with a negative start, and `empty()`. The part of the DOM the
  classifier needs is modelled in module `Dom`: elements, tag names, and attributes kept in document
  order.
- **The stylesheet budget accountant** `calculateStylesheetSizes(stylesheets, budget, warningPercentage)`
  (module `StylesheetSizes`). It works in steps:
  - it keeps the records of the `amp-custom` group that are not duplicates;
  - it splits them into included and excluded records;
  - it lists each side in ascending priority;
  - it walks the included records in that order with a running total of their final sizes, which tells
    the stylesheets that fit the byte budget from the excessive ones;
  - it turns the usage of the budget into a rounded percentage with a valid, warning or exceeded status.

  The walk is the loop method `SplitByBudget`, proved against the function `BudgetCut`. The outcomes
  the tests expect are proved on the model in module `StylesheetFixtures`.
- **The layout sanitizer** `AMP_Layout_Sanitizer::sanitize` (module `LayoutSanitizer`). It changes the
  document in place. Every element that carries `data-amp-layout` gets this attribute replaced by the AMP
  `layout` attribute, with two special cases:
  - `width="100%"` together with `height="100%"` gives `layout="fill"`, and both dimensions are removed;
  - `width="100%"` alone gives `layout="fixed-height"` and `width="auto"`.

  Other elements are left as they are. The document is an array of attribute lists, which `Sanitize`
  rewrites element by element. Each rewrite is the function `RewriteLayout`, built from the DOM
  operations `setAttribute` and `removeAttribute`.

## Model

| member | source | states |
|---|---|---|
| PhpStrings.StrPos | lib/common/src/Amp.php:86 | `strpos` gives the first position where the needle occurs, and none when it occurs nowhere |
| PhpStrings.StrPosZeroIsPrefix | lib/common/src/Amp.php:86 | `strpos($s, $p) === 0` holds exactly when `$p` is a prefix of `$s` |
| PhpStrings.SubstrLast | lib/common/src/Amp.php:90-91 | `substr($s, -$n)` is a suffix of `$s`: the last `n` characters, or all of `$s` when `n` is 0 or more than its length |
| PhpStrings.SubstrLastIsSuffix | lib/common/src/Amp.php:90-91 | for a non-empty `$x`, `substr($s, -strlen($x)) === $x` holds exactly when `$x` is a suffix of `$s`, including when `$s` is shorter than `$x`; for `$x === ""` it holds only when `$s` is `""` |
| PhpStrings.IsEmpty | lib/common/src/Amp.php:135 | `empty()` on a string holds for `""` and `"0"` exactly: it holds for `""`, only for strings of at most one character, and for a one-character string exactly when it is `"0"` |
| Dom.GetAttribute | lib/common/src/Amp.php:84 | a missing attribute reads as `""`; a present one gives the value of an attribute of that name. Presence is `HasAttribute`, the model of `DOMElement::hasAttribute` (Amp.php:152-160, 208-209), in whose terms every DOM contract is stated |
| Dom.SetAttribute | tests/php/test-amp-layout-sanitizer.php:40-43 | afterwards the name has the new value and every other name is unchanged; a new name is appended at the end; duplicate names are never created |
| Dom.RemoveAttribute | tests/php/test-amp-layout-sanitizer.php:45-48 | afterwards the name is absent and every other name is unchanged; without that name the list is unchanged; duplicate names are never created |
| Amp.IsAsyncScript | lib/common/src/Amp.php:201-214 | an async script is a `script` element carrying both `src` and `async` |
| Amp.AsyncScriptAttributes | lib/common/src/Amp.php:201-214 | every `script` element carrying `src` and `async` is an async script; setting both on a `script` makes it one whatever else it carries; removing either, another tag, or a non-element makes it none |
| Amp.GetExtensionName | lib/common/src/Amp.php:146-165 | `""` for a non-element and for any tag other than `script`; otherwise the value of the first of `custom-element`, `custom-template`, `host-service` that is present; a non-empty name is the value of one of those attributes |
| Amp.ExtensionNamePriority | lib/common/src/Amp.php:152-164 | on a script, `custom-element` beats `custom-template`, which beats `host-service`; with none of the three the name is `""` |
| Amp.ExtensionCharacterization | lib/common/src/Amp.php:133-136 | `isExtension` holds exactly for a script that carries one of the three attributes and whose winning value is not `empty()` |
| Amp.IsExtension | lib/common/src/Amp.php:133-136 | an extension is a `script` element that carries one of `custom-element`, `custom-template`, `host-service` with its extension name as value |
| Amp.ZeroNamedScriptIsNotExtension | lib/common/src/Amp.php:133-136 | a script whose `custom-element` is `"0"` is not an extension, because PHP treats `"0"` as empty |
| Amp.IsRuntimeScript | lib/common/src/Amp.php:77-96 | holds exactly for an async script with `src` that is no extension, whose `src` starts with `https://cdn.ampproject.org/` and ends with `/v0.js` or `/amp4ads-v0.js` |
| Amp.IsViewerScript | lib/common/src/Amp.php:107-125 | holds exactly for an async script with `src` that is no extension, whose `src` starts with `https://cdn.ampproject.org/v0/amp-viewer-integration-` and ends with `.js` |
| Amp.ExtensionIsNeitherRuntimeNorViewer | lib/common/src/Amp.php:77-125 | an extension script is never the runtime script and never the viewer script |
| Amp.CanonicalRuntimeScript | lib/common/src/Amp.php:70-96 | `<script async src="https://cdn.ampproject.org/v0.js">` is the runtime script |
| Amp.RuntimeAndViewerOverlap | lib/common/src/Amp.php:77-125 | one script can be both the runtime and the viewer script, for example `.../v0/amp-viewer-integration-/v0.js` |
| Amp.IsRenderDelayingExtension | lib/common/src/Amp.php:173-182 | holds exactly when the extension name is one of `RENDER_DELAYING_EXTENSIONS`; it implies `isExtension` |
| Amp.RenderDelayingNamesAreNotEmpty | lib/common/src/Amp.php:63-67 | every render-delaying name is non-empty, so the `empty()` early return never changes the answer |
| Amp.IsCustomElement | lib/common/src/Amp.php:190-193 | holds exactly for an element whose tag name starts with `amp-` |
| StylesheetSizes.Account | assets/src/validated-url-page/helpers/test/calculateStylesheetSizes.js:7-10 | the result is null exactly when the list is absent or empty |
| StylesheetSizes.CalculateStylesheetSizes | assets/src/validated-url-page/helpers/test/calculateStylesheetSizes.js:63-77 | the method builds the report `Account` describes |
| StylesheetSizes.SplitByBudget | assets/src/validated-url-page/helpers/test/calculateStylesheetSizes.js:63-71 | the walk lists the hashes of the sorted records before `BudgetCut` as within budget, and those from it on as excessive |
| StylesheetSizes.BudgetCutIsWalk | assets/src/validated-url-page/helpers/test/calculateStylesheetSizes.js:63-71 | record `i` comes before the cut exactly when the running total up to and including it is at most the budget |
| StylesheetSizes.ExcessiveStaysExcessive | assets/src/validated-url-page/helpers/test/calculateStylesheetSizes.js:69-71 | once the running total has passed the budget it stays past it, even for a record of final size 0 |
| StylesheetSizes.IncludedSplitFollowsWalk | assets/src/validated-url-page/helpers/test/calculateStylesheetSizes.js:63-71 | `included` followed by `excessive` lists every included hash in ascending priority; a record is in `included` exactly when its running total fits the budget |
| StylesheetSizes.IncludedTotalsCoverExcessive | assets/src/validated-url-page/helpers/test/calculateStylesheetSizes.js:64-67 | the sizes of the `included` bucket sum every included record, the excessive ones too |
| StylesheetSizes.NoExcessiveIffWithinBudget | assets/src/validated-url-page/helpers/test/calculateStylesheetSizes.js:63-71 | nothing is excessive exactly when the included final sizes fit the budget as a whole |
| StylesheetSizes.ReportPartition | assets/src/validated-url-page/helpers/test/calculateStylesheetSizes.js:63-77 | every accounted record is listed exactly once: an included one in `included` or `excessive`, any other in `excluded` |
| StylesheetSizes.SortIsSorted | assets/src/validated-url-page/helpers/test/calculateStylesheetSizes.js:72-76 | the lists are in ascending priority |
| StylesheetSizes.SortPermutes | assets/src/validated-url-page/helpers/test/calculateStylesheetSizes.js:72-76 | sorting only reorders the records |
| StylesheetSizes.SortIsStable | assets/src/validated-url-page/helpers/test/calculateStylesheetSizes.js:72-76 | records of equal priority keep their input order; the tests have no ties, so this is the modelling choice listed under "Left out" |
| StylesheetSizes.SortHashes | assets/src/validated-url-page/helpers/test/calculateStylesheetSizes.js:72-76 | sorting only reorders the hashes |
| StylesheetSizes.SortKeepsSums | assets/src/validated-url-page/helpers/test/calculateStylesheetSizes.js:63-77 | sorting does not change a bucket's original or final total |
| StylesheetSizes.AccountedMembership | assets/src/validated-url-page/helpers/test/calculateStylesheetSizes.js:80-107 | a record is kept for a side exactly when it has group `amp-custom`, is not a duplicate, and is on that side |
| StylesheetSizes.IgnoredRecordIsInvisible | assets/src/validated-url-page/helpers/test/calculateStylesheetSizes.js:80-107 | inserting a record of another group, or a duplicate, anywhere in a non-empty list leaves the report unchanged |
| StylesheetSizes.UsagePercent | assets/src/validated-url-page/helpers/test/calculateStylesheetSizes.js:129-130 | usage is the percentage of the final size against the budget, rounded to the nearest whole number with halves rounded up |
| StylesheetSizes.BudgetStatus | assets/src/validated-url-page/helpers/test/calculateStylesheetSizes.js:109-182 | the status is exceeded exactly above 100, warning exactly from the warning percentage up to 100, and valid exactly below both; a warning percentage above 100 never warns |
| StylesheetSizes.StatusIsMonotone | assets/src/validated-url-page/helpers/test/calculateStylesheetSizes.js:109-182 | more final bytes never give a lower usage or a better status |
| StylesheetSizes.ExceededThreshold | assets/src/validated-url-page/helpers/test/calculateStylesheetSizes.js:129-131 | the status is exceeded exactly when the percentage rounds above 100, which is when 200 times the final size is at least 201 times the budget |
| StylesheetFixtures.NoStylesheetsGiveNull | assets/src/validated-url-page/helpers/test/calculateStylesheetSizes.js:7-10 | both no list and `[]` give null |
| StylesheetFixtures.SizesFixtureSorted | assets/src/validated-url-page/helpers/test/calculateStylesheetSizes.js:13-61 | the fixture's included records sort as priority 1, 10, 100 and its excluded ones as priority 5, 10, 90 |
| StylesheetFixtures.SizesFixture | assets/src/validated-url-page/helpers/test/calculateStylesheetSizes.js:12-78 | at budget 25: `included` is 400/50 with `["included"]`; `excessive` is `["excessive-1", "excessive-2"]`; `excluded` is 400/50 with `["excluded-1", "excluded-2", "excluded-3"]` |
| StylesheetFixtures.IgnoredFixture | assets/src/validated-url-page/helpers/test/calculateStylesheetSizes.js:80-107 | the `foo-bar` record and the duplicate are not listed; `included` lists `["included"]` only |
| StylesheetFixtures.BudgetFixtures | assets/src/validated-url-page/helpers/test/calculateStylesheetSizes.js:109-182 | 100 final bytes give 200 and exceeded at budget 50; at budget 200 they give 50, which is warning at 40 and valid at 60 |
| LayoutSanitizer.RewriteLayout | tests/php/test-amp-layout-sanitizer.php:22-56 | an element without `data-amp-layout` is unchanged; any other loses `data-amp-layout` and gets `layout` set to `fill`, to `fixed-height`, or to the old `data-amp-layout` value, by the decision table |
| LayoutSanitizer.RewriteDimensions | tests/php/test-amp-layout-sanitizer.php:40-48 | full width and height: both removed; full width only: `width="auto"` and `height` unchanged; otherwise `width` and `height` unchanged |
| LayoutSanitizer.RewriteKeepsOtherAttributes | tests/php/test-amp-layout-sanitizer.php:35-38 | every attribute other than `data-amp-layout`, `layout`, `width` and `height` keeps its presence and value |
| LayoutSanitizer.RewriteKeepsDistinctNames | tests/php/test-amp-layout-sanitizer.php:22-56 | the rewrite never creates two attributes of one name |
| LayoutSanitizer.RewriteOrder | tests/php/test-amp-layout-sanitizer.php:35-48 | on an element without `layout`, the new `layout` comes last and the remaining attributes keep their order, `width="auto"` in the place of `width="100%"` |
| LayoutSanitizer.RewriteIsIdempotent | tests/php/test-amp-layout-sanitizer.php:22-56 | no rewritten element carries `data-amp-layout`, so rewriting again changes nothing |
| LayoutSanitizer.Sanitize | tests/php/test-amp-layout-sanitizer.php:66-74 | the document is rewritten in place into `Sanitized` of its old contents |
| LayoutSanitizer.SanitizedElement | tests/php/test-amp-layout-sanitizer.php:68-72 | each element of the result is the rewrite of the element at the same position |
| LayoutSanitizer.SanitizedHasNoDataLayout | tests/php/test-amp-layout-sanitizer.php:22-56 | after the pass no element carries `data-amp-layout` |
| LayoutSanitizer.SanitizeIsIdempotent | tests/php/test-amp-layout-sanitizer.php:22-56 | a second pass over the sanitized document changes nothing |
| LayoutSanitizer.SanitizeIsLocal | tests/php/test-amp-layout-sanitizer.php:66-74 | the pass splits over any cut of the document: each element's outcome depends only on its own attributes |
| LayoutSanitizer.NoWidthOrHeight | tests/php/test-amp-layout-sanitizer.php:22-25 | `<p data-amp-layout="fill">` becomes `<p layout="fill">` |
| LayoutSanitizer.NoDataLayoutAttribute | tests/php/test-amp-layout-sanitizer.php:27-33 | `<p width="10">` is unchanged |
| LayoutSanitizer.DataLayoutAttribute | tests/php/test-amp-layout-sanitizer.php:35-38 | `<p width="10" data-amp-layout="fill">` becomes `<p width="10" layout="fill">` |
| LayoutSanitizer.DataLayoutWithFullWidth | tests/php/test-amp-layout-sanitizer.php:40-43 | `<p width="100%" data-amp-layout="fill">` becomes `<p width="auto" layout="fixed-height">` |
| LayoutSanitizer.DataLayoutWithFullWidthAndHeight | tests/php/test-amp-layout-sanitizer.php:45-48 | `<p width="100%" height="100%" data-amp-layout="fill">` becomes `<p layout="fill">` |
| LayoutSanitizer.LayoutAttributeWithFullSize | tests/php/test-amp-layout-sanitizer.php:50-56 | `<p width="100%" layout="fill">` and `<p width="100%" height="100%" layout="fill">` are unchanged |

## Left out

- The `Attribute`, `Tag` and `Extension` classes are not part of this model. The constants the classifier takes from them have their AMP values: `script`, `src`, `async`, `custom-element`, `custom-template`, `host-service`, the prefix `amp-`, `amp-dynamic-css-classes`, `amp-experiment` and `amp-story`.
- The constants `TAGS`, `FORMATS` and `DYNAMIC_COMPONENTS` are not modelled, because no classifier uses them.
- Only elements carry attributes here. Text, comment and other nodes are the single case `NonElement`, as every classifier rejects them first.
- HTML parsing and serialisation are left out (`AMP_DOM_Utils::get_dom_from_content` and `get_content_from_dom`). So is the whitespace normalisation of `assertEqualMarkup`. Elements are given directly as a list of attribute lists; the attribute order of the lists is what the compared markup fixes.
- The implementation of `AMP_Layout_Sanitizer` is not part of this model; its behaviour is taken from the test table. Four points are modelling choices that the table does not pin:
  - elements are selected by the presence of `data-amp-layout` alone;
  - an existing `layout` attribute is overwritten in place;
  - a `height` of `100%` without a full width takes the copy row;
  - "100%" means exactly the string `100%`.
- The implementation of `calculateStylesheetSizes` and its caller are not part of this model; the behaviour is taken from its tests. The model makes these choices:
  - the sort is stable;
  - a running total equal to the budget still fits;
  - usage above 100 is exceeded, and usage at or above the warning percentage is a warning.

  The tests pin none of these boundaries.
- StylesheetSizes.UsagePercent: the tests fix the usage only at the exact values 200 and 50, so the rounding is the model's choice: exact rounding half up of the rational `finalSize * 100 / budget`, with no floating point. It requires a positive budget. A zero budget is not handled, since the tests never use one.
- StylesheetSizes.Account: requires a positive budget, for the same reason. Records the tests give without sizes (the other group and the duplicate) are given sizes 0, which are never read. The duplicate, which the tests give without `included`, has `included` false, as JavaScript reads the missing key.
- PHP strings are bytes and `strpos` and `substr` count bytes; the model counts characters. The two agree on the ASCII names and URLs the classifier compares, and on the `=== 0` test.
- Sizes are unbounded naturals; JavaScript's number range is not modelled.
- The result's fields other than the three buckets and the budget are not modelled, because the tests read only these.
- The editor and block UI, the oEmbed handler and the WordPress test helpers are not modelled, because they are presentation, network or test-environment code.
