# Open Development Cambodia dashboard: data logic in Dafny

This project models the pure logic of the foreign-investment dashboard and the
timelines page of Open Development Cambodia. Four pieces are modelled.

- **Locale and dataset URL** (`Charts`). The document language selects the API
  base URL, the datastore resource id and the "unknown" placeholder text.
  `'en'` selects the English triple and every other language the Khmer one.
  The request URL appends `?resource_id=<id>&limit=1000`.
- **Record mapper** (`Charts`). Each raw API record is projected onto a project
  value under renamed keys. Only `nat_pro`, `sta_oper` and `dir_name` are
  replaced, and only when JavaScript-falsy.
- **Coordinate-group reducer** (`CoordinateGroup`). These are the add, remove
  and initial callbacks of the map's marker grouping, run over any sequence of
  calls.
- **Timelines** (`Timeline`). The laws and events datasets are requested from
  the English API path, and each record becomes one list item of markup.

Field values are modelled as `JsValues.JsValue`. It has a constructor for
`undefined`, `null`, `''` and `0`, plus `Value(text)` for every non-empty
string and non-zero number. Three JavaScript behaviours are modelled exactly on
this type:

- falsiness (`!v`);
- the loose comparison `v != ''`;
- template-literal rendering: `${null}` is `"null"`.

`Decimal` models the number-to-string coercion in `'&limit=' + limit`.

Four behaviours of the code are easy to miss, and the model keeps them:

- The laws timeline always emits the download anchor. A record without a
  resource link renders `href="undefined"`.
- The placeholder guard is `!x`, so the number `0` is replaced as well as
  `''`, `null` and `undefined`.
- The timelines always use the English API path, whatever the page language.
  Only the charts switch to the Khmer path.
- The first reference paragraph is guarded by the loose `reference_text != ''`.
  A `null` or `undefined` `reference_text` therefore still renders a
  paragraph, reading `null` or `undefined`. The second paragraph is guarded by
  truthiness.

## Model

| member | source | states |
|---|---|---|
| JsValues.Truthy | assets/js/charts.js:51-54 | JavaScript truthiness as `!x` tests it: a field value is falsy exactly when it is `undefined`, `null`, `''` or 0. |
| JsValues.LooselyNotEmpty | assets/js/timeline.js:52 | The loose `v != ''`: it fails for `''` and for 0, which converts to the same number as `''`, and holds for `undefined`, `null` and every other value. |
| JsValues.FalsyValues | assets/js/timeline.js:52-56 | `!v` holds exactly for `undefined`, `null`, `''` and 0. The loose `v == ''` holds exactly for `''` and 0. |
| JsValues.Interpolate | assets/js/timeline.js:44-64 | A template literal renders a value as the empty string exactly when the value is `''`. A truthy value renders as its own text. |
| JsValues.LooseGuardVersusTruthiness | assets/js/timeline.js:52-58 | Every truthy value passes `!= ''`. A value passes `!= ''` while falsy exactly when it is `null` or `undefined`. |
| Decimal.NumberToString | assets/js/charts.js:17-19 | Coercing the limit to a string yields a non-empty run of decimal digits without a leading zero. |
| Decimal.ParseNumberToString | assets/js/charts.js:17-19 | Parsing the digits of the coerced limit returns the number, so the rendering is exact. |
| Charts.SelectLocale | assets/js/charts.js:7-15 | The English URL, the English resource id and `'Not found'` are each chosen exactly when the language is `'en'`. The Khmer ones are each chosen exactly when it is not. |
| Charts.LocaleNeverMixed | assets/js/charts.js:7-15 | Any one of URL, resource id or placeholder determines the whole configuration, so two languages never get a mixed triple. |
| Charts.DatasetUrl | assets/js/charts.js:17-19 | The dataset URL is the base URL, then `?resource_id=`, the resource id, and `&limit=1000`. |
| Charts.DatasetUrlParts | assets/js/charts.js:17-19 | The base URL, the resource id and the limit can be read back at fixed positions of the dataset URL. The trailing digits parse to 1000. |
| Charts.DatasetUrlByLanguage | assets/js/charts.js:7-19 | Two documents request the same dataset exactly when both or neither have language `'en'`. |
| Charts.OrUnknown | assets/js/charts.js:51-54 | `(!x) ? unknown_text : x` is always truthy. It keeps a truthy `x` and gives the placeholder otherwise. |
| Charts.MapRecord | assets/js/charts.js:42-60 | `nationality`, `year_start` and `director_name` are the placeholder exactly when `nat_pro`, `sta_oper` and `dir_name` are falsy, and the source value otherwise. They are never falsy afterwards. The other twelve fields are copied unparsed from their renamed keys, e.g. `lng` from `long`. |
| Charts.MapRecordRoundTrip | assets/js/charts.js:42-60 | Undoing the renaming gives back the raw record with only the three falsy optional fields replaced. It gives the raw record itself when those three fields are truthy. |
| Charts.PlaceholderExactlyWhenFalsy | assets/js/charts.js:51-54 | A mapped optional field equals the placeholder iff the source was falsy or was already that text. |
| Charts.MappedUnderOneLocale | assets/js/charts.js:7-54 | Every substituted field carries the placeholder of the selected locale. |
| Charts.EnglishPlaceholderExample | assets/js/charts.js:51-54 | Take `nat_pro: ''`, `sta_oper: '2020'` and `dir_name: null` under `'en'`. They map to `'Not found'`, `'2020'` and `'Not found'`. |
| Charts.MapRecords | assets/js/charts.js:41-63 | `forEach` with `push` appends exactly one mapped project per record, in record order, and keeps the earlier contents. Zero records leave the list unchanged. |
| CoordinateGroup.Initial | assets/js/charts.js:113-115 | The initial accumulator has count 0 and no display field. |
| CoordinateGroup.Add | assets/js/charts.js:97-109 | Add increments the count by one. It sets all nine display fields to the added project's values. |
| CoordinateGroup.Remove | assets/js/charts.js:110-112 | Remove decrements the count by one and leaves every display field unchanged. |
| CoordinateGroup.RunCount | assets/js/charts.js:97-115 | After any sequence of calls, the count has changed by the number of adds minus the number of removes. |
| CoordinateGroup.CountFromInitial | assets/js/charts.js:97-115 | Starting from the initial accumulator, count equals adds minus removes. |
| CoordinateGroup.AddThenRemove | assets/js/charts.js:97-112 | Adding a project and then removing it restores the count and leaves that project displayed. |
| CoordinateGroup.BatchOrderIrrelevantForCount | assets/js/charts.js:97-112 | The final count does not depend on which of two batches of calls arrives first. |
| CoordinateGroup.RunDisplay | assets/js/charts.js:97-112 | The last add wins: the display fields are those of the last project added. With no add they are unchanged. |
| CoordinateGroup.DisplayAbsentUntilFirstAdd | assets/js/charts.js:97-115 | From the initial accumulator, display fields are absent exactly until the first add. |
| Timeline.TimelineResourceId | assets/js/timeline.js:5-24 | Laws and events each have one resource id for language `'en'` and one for every other language. |
| Timeline.TimelineUrl | assets/js/timeline.js:1-26 | A timeline URL always starts with the English API path, whatever the language. |
| Timeline.TimelineUrlShape | assets/js/timeline.js:1-26 | The URL is the English API path, then `?resource_id=`, the resource id of the language and kind, and `&limit=1000`. |
| Decimal.RenderThousand | assets/js/timeline.js:2-12 | The limit 1000 is rendered as `1000` when concatenated to the URL. |
| Timeline.TimelineUrlsDistinct | assets/js/timeline.js:5-26 | Two timeline URLs are equal exactly when the kind is the same and both languages agree on being `'en'`. |
| Timeline.PageFetches | assets/js/timeline.js:5-31 | A page issues one request per present mount point, laws first and then events. Each request uses its kind's URL. |
| Timeline.PageFetchesAddressed | assets/js/timeline.js:12-28 | Every request a page issues is the request of its own kind, with that kind's URL. |
| Timeline.MountedHeading | assets/js/timeline.js:16-47 | Records fetched for a mount point are rendered with that mount point's id, so each of their items has a heading: a download heading for laws and a plain one for events. |
| Timeline.ItemFragments | assets/js/timeline.js:39-65 | One list item is built in the order of the appends: the content div, the heading, the description div with its paragraphs, two closing tags, the point marker and the date div. |
| Timeline.ItemHeadings | assets/js/timeline.js:43-47 | `'laws-timeline'` gives the title with a download anchor whose href is `resource_link`, always emitted. `'events-timeline'` gives the title only. Any other id gives no heading. |
| Timeline.ItemReferences | assets/js/timeline.js:52-58 | The first reference paragraph appears exactly when `reference_text != ''` holds loosely. The second appears exactly when `reference_text_2` is truthy, and in that order. |
| Timeline.OnlySecondReference | assets/js/timeline.js:52-58 | An empty `reference_text` with a present `reference_text_2` gives exactly one reference paragraph, the second. |
| Timeline.MissingFirstReferenceStillRendered | assets/js/timeline.js:52-54 | A `null` or `undefined` `reference_text` still produces a paragraph, reading `null` or `undefined`. |
| Timeline.ItemDescription | assets/js/timeline.js:49-50 | Every item has exactly one description paragraph. |
| Timeline.ItemPoint | assets/js/timeline.js:62 | Every item has exactly one point marker. |
| Timeline.ItemDate | assets/js/timeline.js:63-65 | Every item has exactly one date, `record.date`. |
| Timeline.ItemOrder | assets/js/timeline.js:41-65 | The order inside an item is fixed: the description follows the content div and heading, then come the point marker, and then the date. |
| Timeline.HeadingMarkup | assets/js/timeline.js:43-47 | The heading markup for each timeline id, as a string. |
| Timeline.ReferencesMarkup | assets/js/timeline.js:52-58 | The reference markup is the first reference paragraph when `reference_text != ''` holds loosely, followed by the second when `reference_text_2` is truthy. Each paragraph holds the interpolated text. |
| Timeline.BodyMarkup | assets/js/timeline.js:49-61 | The body markup is the description div, then the centred description paragraph, then the reference paragraphs, then two closing `</div>` tags. |
| Timeline.DateMarkup | assets/js/timeline.js:62-65 | The closing markup is the point div, then the date div holding `<h5>` with the date. |
| Timeline.ItemMarkupFrame | assets/js/timeline.js:39-65 | An item's markup is, in order: the content div, the heading for its timeline id, the description body, the point div and the date div. |
| Timeline.CreateTimeline | assets/js/timeline.js:33-73 | One list has exactly one item per record, in record order. Each item is that record's fragments, so its inner HTML is the record's item markup. |

## Left out

- Network fetching (`d3.json`, `fetch`, JSON parsing) and the top-level
  `try`/`catch` are left out. They are I/O and error plumbing; the models start
  from the record sequence that `result.records` would hold.
- The cross-filter library is left out. Its dimensions, `reduceCount`,
  `reduceSum`, filtering and group keys are library code that is not part of
  this model. Only the custom reducer callbacks are modelled, over an explicit
  sequence of add and remove calls. This also leaves out the property that sum
  groupings equal the sum of `investment_mm` over active records.
- The chart, map and table widget configuration and `dc.renderAll` are left
  out as display-only wiring.
- `setHeight` and the pie scale constants are left out as floating-point
  layout arithmetic.
- The map popup HTML and the column-title localisation are left out as
  display-only string templates.
- DOM calls are not modelled. A timeline list is a sequence of items, each
  given by its markup fragments; `Timeline.Markup` turns an item into its
  inner-HTML string. Appending the list to its mount point is not modelled.
- Other falsy JavaScript values are not modelled: `NaN`, `false`, `-0` and
  `0n`. Objects and arrays as field values are not modelled either; API fields
  are scalars.
- The language is compared as an exact string. `==` and `===` agree on strings.
- CoordinateGroup.Remove: the removed project is ignored, as in the code. The
  model does not tie a remove to an earlier add, which the cross-filter library
  guarantees.
