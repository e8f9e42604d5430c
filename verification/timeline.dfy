/**
 The timelines page: which law and event datasets are requested, and the
 markup of one list item per record.
 */
module Timeline {
  import opened JsValues
  import opened Decimal
  import Charts

  /** The timelines always query the English API path. */
  const BaseApiUrl: string := "https://data.opendevelopmentcambodia.net/en/api/3/action/datastore_search"
  const Limit: nat := 1000

  const LawsTimelineId: string := "laws-timeline"
  const EventsTimelineId: string := "events-timeline"

  datatype TimelineKind = Laws | Events

  function MountId(kind: TimelineKind): string {
    match kind
    case Laws => LawsTimelineId
    case Events => EventsTimelineId
  }

  /** The dataset of a timeline, by kind and by whether the language is `'en'`:
      a datastore resource id in the 36-character hyphenated UUID form. */
  function TimelineResourceId(lang: string, kind: TimelineKind): string {
    match kind
    case Laws => if lang == "en" then "68bbda74-854f-440a-adbb-1571fd162458" else "38ef97b3-bd50-4c76-b0a5-21a718ccdc80"
    case Events => if lang == "en" then "f40f6193-1802-4338-9169-abacecb5d217" else "53800d2e-2e92-4d5a-bd9c-759760512b0a"
  }

  /** The request URL of a timeline: English base path whatever the language,
      the resource id of the kind and language, capped at 1000 records. */
  function TimelineUrl(lang: string, kind: TimelineKind): (u: string)
    ensures |Charts.EnglishUrl| <= |u| && u[..|Charts.EnglishUrl|] == Charts.EnglishUrl
  {
    RenderThousand();
    BaseApiUrl + Charts.ResourceIdParam + TimelineResourceId(lang, kind) + Charts.LimitParam + NumberToString(Limit)
  }

  /** The character right after `?resource_id=` is the first character of the resource id. */
  lemma TimelineUrlResourceStart(lang: string, kind: TimelineKind)
    ensures |BaseApiUrl| + |Charts.ResourceIdParam| < |TimelineUrl(lang, kind)|
    ensures TimelineUrl(lang, kind)[|BaseApiUrl| + |Charts.ResourceIdParam|] == TimelineResourceId(lang, kind)[0]
  {
  }

  /** The URL spelled out: English base, `?resource_id=`, the resource id
      of the language and kind, `&limit=1000`. */
  lemma TimelineUrlShape(lang: string, kind: TimelineKind)
    ensures TimelineUrl(lang, kind) == BaseApiUrl + "?resource_id=" + TimelineResourceId(lang, kind) + "&limit=1000"
  {
    RenderThousand();
  }

  /** The four timeline resource ids already differ in their first character. */
  lemma ResourceIdInitials(a: string, ka: TimelineKind, b: string, kb: TimelineKind)
    ensures TimelineResourceId(a, ka)[0] == TimelineResourceId(b, kb)[0] <==> (ka == kb && ((a == "en") == (b == "en")))
  {
  }

  /** Each of the four (language, kind) combinations has its own URL; the
      language matters only through whether it is `'en'`. */
  lemma TimelineUrlsDistinct(a: string, ka: TimelineKind, b: string, kb: TimelineKind)
    ensures TimelineUrl(a, ka) == TimelineUrl(b, kb) <==> (ka == kb && ((a == "en") == (b == "en")))
  {
    TimelineUrlResourceStart(a, ka);
    TimelineUrlResourceStart(b, kb);
    ResourceIdInitials(a, ka, b, kb);
  }

  /** A timeline request and the mount point its records go to. */
  datatype Fetch = Fetch(kind: TimelineKind, url: string)

  /** The request for one timeline. */
  function FetchOf(lang: string, kind: TimelineKind): (f: Fetch)
    ensures f.kind == kind && f.url == TimelineUrl(lang, kind)
  {
    Fetch(kind, TimelineUrl(lang, kind))
  }

  /** The requests a page issues: the laws timeline when its mount point
      exists, then the events timeline when its mount point exists. */
  function PageFetches(lang: string, lawsMounted: bool, eventsMounted: bool): (fs: seq<Fetch>)
    ensures |fs| == (if lawsMounted then 1 else 0) + (if eventsMounted then 1 else 0)
    ensures lawsMounted ==> fs[0] == FetchOf(lang, Laws)
    ensures eventsMounted ==> fs[|fs| - 1] == FetchOf(lang, Events)
    ensures lawsMounted <==> (|fs| > 0 && fs[0].kind == Laws)
    ensures eventsMounted <==> (|fs| > 0 && fs[|fs| - 1].kind == Events)
  {
    var laws := FetchOf(lang, Laws);
    var events := FetchOf(lang, Events);
    if lawsMounted && eventsMounted then [laws, events]
    else if lawsMounted then [laws]
    else if eventsMounted then [events]
    else []
  }

  /** Every request of a page uses the URL of its own kind. */
  lemma PageFetchesAddressed(lang: string, lawsMounted: bool, eventsMounted: bool)
    ensures var fs := PageFetches(lang, lawsMounted, eventsMounted);
      forall i :: 0 <= i < |fs| ==> fs[i] == FetchOf(lang, fs[i].kind)
  {
    var fs := PageFetches(lang, lawsMounted, eventsMounted);
    forall i | 0 <= i < |fs|
      ensures fs[i] == FetchOf(lang, fs[i].kind)
    {
      if i == 0 && lawsMounted {
      } else {
        assert eventsMounted && i == |fs| - 1;
      }
    }
  }

  /** The records of a fetch go to `createTimeline` with the id of their mount
      point, so every item of a mounted timeline has a heading: with the
      download link for laws, plain for events. */
  lemma MountedHeading(r: TimelineRecord, kind: TimelineKind)
    ensures HeadingFor(r, MountId(kind)) ==
      if kind == Laws then [DownloadHeading(r.title, r.resourceLink)] else [Heading(r.title)]
  {
  }

  /** A timeline record, fields used as-is. */
  datatype TimelineRecord = TimelineRecord(
    title: JsValue,
    description: JsValue,
    date: JsValue,
    referenceText: JsValue,
    referenceText2: JsValue,
    resourceLink: JsValue)

  /** The pieces a list item's markup is built from, in the order they are appended. */
  datatype Fragment =
    | OpenContent
    | Heading(title: JsValue)
    | DownloadHeading(title: JsValue, link: JsValue)
    | OpenDescription
    | Description(text: JsValue)
    | Reference(text: JsValue)
    | CloseDiv
    | Point
    | OpenDate
    | DateText(date: JsValue)

  const ContentDiv: string := "<div class=\"content\">"
  const DescriptionDiv: string := "<div class=\"description\">"
  const EndDiv: string := "</div>"
  const PointDiv: string := "<div class=\"point\"></div>"
  const DateDiv: string := "<div class=\"date\">"
  /** The download button of a law, up to the opening quote of its `href`. */
  const DownloadAnchorStart: string :=
    "<a title=\"Download\" target=\"_blank\" class=\"btn btn-sm btn-secondary float-right\" href=\""
  /** The rest of the download button after the `href` value. */
  const DownloadAnchorEnd: string := "\"><i class=\"bi bi-download\"></i></a>"
  const DescriptionParagraph: string := "<p class=\"text-center\">"
  const ReferenceParagraph: string := "<p class=\"text-right font-weight-lighter font-italic\" id=\"reference-text\">"
  const EndParagraph: string := "</p>"

  /** The markup string appended for a fragment. */
  function Render(f: Fragment): string {
    match f
    case OpenContent => ContentDiv
    case Heading(t) => "<h4>" + Interpolate(t) + "</h4>"
    case DownloadHeading(t, l) => "<h4>" + Interpolate(t) + DownloadAnchorStart + Interpolate(l) + DownloadAnchorEnd + "</h4>"
    case OpenDescription => DescriptionDiv
    case Description(t) => DescriptionParagraph + Interpolate(t) + EndParagraph
    case Reference(t) => ReferenceParagraph + Interpolate(t) + EndParagraph
    case CloseDiv => EndDiv
    case Point => PointDiv
    case OpenDate => DateDiv
    case DateText(d) => "<h5>" + Interpolate(d) + "</h5>"
  }

  /** The heading for the timeline id: with a download link for laws (even
      when the record has no link), plain for events, none otherwise. */
  function HeadingFor(r: TimelineRecord, timelineId: string): seq<Fragment> {
    if timelineId == LawsTimelineId then [DownloadHeading(r.title, r.resourceLink)]
    else if timelineId == EventsTimelineId then [Heading(r.title)]
    else []
  }

  /** The two reference paragraphs: the first under `reference_text != ''`,
      the second under the truthiness of `reference_text_2`. */
  function ReferencesFor(r: TimelineRecord): seq<Fragment> {
    (if LooselyNotEmpty(r.referenceText) then [Reference(r.referenceText)] else [])
    + (if Truthy(r.referenceText2) then [Reference(r.referenceText2)] else [])
  }

  /** The description div with its paragraphs, closed together with the content div
      (right-nested, see `DateFor`). */
  function BodyFor(r: TimelineRecord): seq<Fragment> {
    [OpenDescription] + ([Description(r.description)] + (ReferencesFor(r) + ([CloseDiv] + [CloseDiv])))
  }

  // The fragment lists below are nested to the right so that each step of a
  // proof peels one element off with `FilterCons` or `MarkupCons`.

  /** The point marker and the date div. */
  function DateFor(r: TimelineRecord): seq<Fragment> {
    [Point] + ([OpenDate] + ([DateText(r.date)] + [CloseDiv]))
  }

  /** The fragments of one list item, in the order they are appended: the
      content div, the heading, the description div with its paragraphs, two
      closing tags, the point marker and the date div. */
  function ItemFragments(r: TimelineRecord, timelineId: string): seq<Fragment> {
    [OpenContent] + (HeadingFor(r, timelineId) + (BodyFor(r) + DateFor(r)))
  }

  /** The kinds of content an item is inspected for. */
  datatype Class = Headings | References | Descriptions | Points | Dates

  predicate InClass(f: Fragment, c: Class) {
    match c
    case Headings => f.Heading? || f.DownloadHeading?
    case References => f.Reference?
    case Descriptions => f.Description?
    case Points => f.Point?
    case Dates => f.DateText?
  }

  /** The fragments of class `keep`, in order. */
  function Filter(fs: seq<Fragment>, keep: Class): (out: seq<Fragment>)
    ensures |out| <= |fs|
    ensures forall i :: 0 <= i < |out| ==> InClass(out[i], keep)
    decreases |fs|
  {
    if |fs| == 0 then []
    else (if InClass(fs[0], keep) then [fs[0]] else []) + Filter(fs[1..], keep)
  }

  lemma {:induction false} FilterAppend(xs: seq<Fragment>, ys: seq<Fragment>, keep: Class)
    ensures Filter(xs + ys, keep) == Filter(xs, keep) + Filter(ys, keep)
    decreases |xs|
  {
    if |xs| == 0 {
      assert xs + ys == ys;
    } else {
      assert (xs + ys)[1..] == xs[1..] + ys;
      FilterAppend(xs[1..], ys, keep);
    }
  }


  lemma FilterSingleton(x: Fragment, keep: Class)
    ensures Filter([x], keep) == if InClass(x, keep) then [x] else []
  {
    assert [x][1..] == [];
  }

  lemma FilterCons(x: Fragment, xs: seq<Fragment>, keep: Class)
    ensures Filter([x] + xs, keep) == (if InClass(x, keep) then [x] else []) + Filter(xs, keep)
  {
    assert ([x] + xs)[0] == x && ([x] + xs)[1..] == xs;
  }

  lemma FilterClosers(keep: Class)
    ensures Filter([CloseDiv] + [CloseDiv], keep) == []
  {
    FilterCons(CloseDiv, [CloseDiv], keep);
    FilterSingleton(CloseDiv, keep);
  }

  lemma FilterBody(r: TimelineRecord, keep: Class)
    ensures Filter(BodyFor(r), keep) ==
      if keep == Descriptions then [Description(r.description)]
      else if keep == References then ReferencesFor(r)
      else []
  {
    var refs, dd := ReferencesFor(r), [CloseDiv] + [CloseDiv];
    FilterCons(OpenDescription, [Description(r.description)] + (refs + dd), keep);
    FilterCons(Description(r.description), refs + dd, keep);
    FilterAppend(refs, dd, keep);
    FilterClosers(keep);
    FilterReferences(r, keep);
  }

  lemma FilterDateText(date: JsValue, keep: Class)
    ensures Filter([DateText(date)] + [CloseDiv], keep) == if keep == Dates then [DateText(date)] else []
  {
    FilterCons(DateText(date), [CloseDiv], keep);
    FilterSingleton(CloseDiv, keep);
  }

  lemma FilterDate(r: TimelineRecord, keep: Class)
    ensures Filter(DateFor(r), keep) ==
      if keep == Points then [Point]
      else if keep == Dates then [DateText(r.date)]
      else []
  {
    var tail := [DateText(r.date)] + [CloseDiv];
    FilterCons(Point, [OpenDate] + tail, keep);
    FilterCons(OpenDate, tail, keep);
    FilterDateText(r.date, keep);
  }

  lemma FilterHeading(r: TimelineRecord, timelineId: string, keep: Class)
    ensures Filter(HeadingFor(r, timelineId), keep) ==
      if keep == Headings then HeadingFor(r, timelineId) else []
  {
    var h := HeadingFor(r, timelineId);
    if |h| == 1 {
      FilterSingleton(h[0], keep);
    }
  }

  lemma FilterReferences(r: TimelineRecord, keep: Class)
    ensures Filter(ReferencesFor(r), keep) ==
      if keep == References then ReferencesFor(r) else []
  {
    var r1: seq<Fragment> := if LooselyNotEmpty(r.referenceText) then [Reference(r.referenceText)] else [];
    var r2: seq<Fragment> := if Truthy(r.referenceText2) then [Reference(r.referenceText2)] else [];
    FilterAppend(r1, r2, keep);
    FilterSingleton(Reference(r.referenceText), keep);
    FilterSingleton(Reference(r.referenceText2), keep);
  }

  lemma FilterItemSplit(r: TimelineRecord, timelineId: string, keep: Class)
    ensures Filter(ItemFragments(r, timelineId), keep) ==
      Filter(HeadingFor(r, timelineId), keep) + (Filter(BodyFor(r), keep) + Filter(DateFor(r), keep))
  {
    var h, b, d := HeadingFor(r, timelineId), BodyFor(r), DateFor(r);
    FilterCons(OpenContent, h + (b + d), keep);
    FilterAppend(h, b + d, keep);
    FilterAppend(b, d, keep);
  }

  /** `Filter` over an item, piece by piece. */
  lemma FilterItem(r: TimelineRecord, timelineId: string, keep: Class)
    ensures Filter(ItemFragments(r, timelineId), keep) ==
      if keep == Headings then HeadingFor(r, timelineId)
      else if keep == Descriptions then [Description(r.description)]
      else if keep == References then ReferencesFor(r)
      else if keep == Points then [Point]
      else [DateText(r.date)]
  {
    FilterItemSplit(r, timelineId, keep);
    FilterHeading(r, timelineId, keep);
    FilterBody(r, keep);
    FilterDate(r, keep);
    match keep
    case Headings => assert Filter(BodyFor(r), keep) + Filter(DateFor(r), keep) == [];
    case Descriptions =>
    case References =>
    case Points =>
    case Dates =>
  }

  /** The heading depends on the timeline id alone: a download heading for
      laws, a plain one for events, none for any other id. */
  lemma ItemHeadings(r: TimelineRecord, timelineId: string)
    ensures Filter(ItemFragments(r, timelineId), Headings) ==
      (if timelineId == "laws-timeline" then [DownloadHeading(r.title, r.resourceLink)]
       else if timelineId == "events-timeline" then [Heading(r.title)]
       else [])
  {
    FilterItem(r, timelineId, Headings);
  }

  /** The reference paragraphs: the first exactly when `reference_text != ''`
      holds loosely, the second exactly when `reference_text_2` is truthy. */
  lemma ItemReferences(r: TimelineRecord, timelineId: string)
    ensures Filter(ItemFragments(r, timelineId), References) ==
      (if LooselyNotEmpty(r.referenceText) then [Reference(r.referenceText)] else [])
      + (if Truthy(r.referenceText2) then [Reference(r.referenceText2)] else [])
  {
    FilterItem(r, timelineId, References);
  }

  /** Every item has exactly one description paragraph. */
  lemma ItemDescription(r: TimelineRecord, timelineId: string)
    ensures Filter(ItemFragments(r, timelineId), Descriptions) == [Description(r.description)]
  {
    FilterItem(r, timelineId, Descriptions);
  }

  /** Every item has exactly one point marker. */
  lemma ItemPoint(r: TimelineRecord, timelineId: string)
    ensures Filter(ItemFragments(r, timelineId), Points) == [Point]
  {
    FilterItem(r, timelineId, Points);
  }

  /** Every item has exactly one date. */
  lemma ItemDate(r: TimelineRecord, timelineId: string)
    ensures Filter(ItemFragments(r, timelineId), Dates) == [DateText(r.date)]
  {
    FilterItem(r, timelineId, Dates);
  }

  /** Within an item the description comes first, then the point marker, then
      the date. */
  lemma ItemOrder(r: TimelineRecord, timelineId: string)
    ensures var fs := ItemFragments(r, timelineId);
      var k := 2 + |HeadingFor(r, timelineId)|;
      && k < |fs| - 3
      && fs[k] == Description(r.description)
      && fs[|fs| - 4] == Point
      && fs[|fs| - 2] == DateText(r.date)
  {
    var h := HeadingFor(r, timelineId);
    assert BodyFor(r)[1] == Description(r.description);
    assert |DateFor(r)| == 4 && DateFor(r)[0] == Point && DateFor(r)[2] == DateText(r.date);
  }

  /** An empty first reference with a present second one gives exactly one
      reference paragraph, the second. */
  lemma OnlySecondReference(r: TimelineRecord, timelineId: string)
    requires r.referenceText == EmptyString && Truthy(r.referenceText2)
    ensures Filter(ItemFragments(r, timelineId), References) == [Reference(r.referenceText2)]
  {
    ItemReferences(r, timelineId);
  }

  /** A null or missing first reference still produces a paragraph, whose text
      is the literal "null" or "undefined". */
  lemma MissingFirstReferenceStillRendered(r: TimelineRecord, timelineId: string)
    requires r.referenceText == Null || r.referenceText == Undefined
    ensures var refs := Filter(ItemFragments(r, timelineId), References);
      |refs| > 0 && refs[0] == Reference(r.referenceText)
    ensures Render(Reference(r.referenceText)) ==
      ReferenceParagraph + (if r.referenceText == Null then "null" else "undefined") + EndParagraph
  {
    ItemReferences(r, timelineId);
  }

  /** The strings of `ss` joined in order. */
  function Concat(ss: seq<string>): string
    decreases |ss|
  {
    if |ss| == 0 then "" else ss[0] + Concat(ss[1..])
  }

  lemma {:induction false} ConcatAppend(xs: seq<string>, ys: seq<string>)
    ensures Concat(xs + ys) == Concat(xs) + Concat(ys)
    decreases |xs|
  {
    if |xs| == 0 {
      assert xs + ys == ys;
    } else {
      assert (xs + ys)[0] == xs[0] && (xs + ys)[1..] == xs[1..] + ys;
      ConcatAppend(xs[1..], ys);
    }
  }

  lemma ConcatCons(x: string, xs: seq<string>)
    ensures Concat([x] + xs) == x + Concat(xs)
  {
    assert ([x] + xs)[0] == x && ([x] + xs)[1..] == xs;
  }

  /** The rendering of each fragment, in order. */
  function RenderAll(fs: seq<Fragment>): seq<string> {
    seq(|fs|, i requires 0 <= i < |fs| => Render(fs[i]))
  }

  /** The concatenation of the rendered fragments. */
  function Markup(fs: seq<Fragment>): string {
    Concat(RenderAll(fs))
  }

  lemma MarkupAppend(xs: seq<Fragment>, ys: seq<Fragment>)
    ensures Markup(xs + ys) == Markup(xs) + Markup(ys)
  {
    assert RenderAll(xs + ys) == RenderAll(xs) + RenderAll(ys);
    ConcatAppend(RenderAll(xs), RenderAll(ys));
  }

  lemma MarkupCons(x: Fragment, xs: seq<Fragment>)
    ensures Markup([x] + xs) == Render(x) + Markup(xs)
  {
    assert RenderAll([x] + xs) == [Render(x)] + RenderAll(xs);
    ConcatCons(Render(x), RenderAll(xs));
  }

  lemma MarkupSingleton(x: Fragment)
    ensures Markup([x]) == Render(x)
  {
    assert RenderAll([x]) == [Render(x)] + [];
    ConcatCons(Render(x), []);
  }

  /** The inner HTML of one list item. */
  function ItemMarkup(r: TimelineRecord, timelineId: string): string {
    Markup(ItemFragments(r, timelineId))
  }

  /** The markup of the heading fragments chosen for a timeline id. */
  lemma HeadingMarkup(r: TimelineRecord, timelineId: string)
    ensures Markup(HeadingFor(r, timelineId)) ==
      (if timelineId == "laws-timeline" then
         "<h4>" + Interpolate(r.title) + DownloadAnchorStart + Interpolate(r.resourceLink) + DownloadAnchorEnd + "</h4>"
       else if timelineId == "events-timeline" then "<h4>" + Interpolate(r.title) + "</h4>"
       else "")
  {
    var h := HeadingFor(r, timelineId);
    if |h| == 1 {
      MarkupSingleton(h[0]);
    }
  }

  lemma DateMarkup(r: TimelineRecord)
    ensures Markup(DateFor(r)) == PointDiv + (DateDiv + ("<h5>" + Interpolate(r.date) + "</h5>" + EndDiv))
  {
    var g, d := [DateText(r.date)], [CloseDiv];
    MarkupCons(Point, [OpenDate] + (g + d));
    MarkupCons(OpenDate, g + d);
    MarkupCons(DateText(r.date), d);
    MarkupSingleton(CloseDiv);
  }

  /** The reference paragraphs as markup: the first under the loose
      `reference_text != ''`, the second under `reference_text_2`'s truthiness. */
  lemma ReferencesMarkup(r: TimelineRecord)
    ensures Markup(ReferencesFor(r)) ==
      (if LooselyNotEmpty(r.referenceText) then ReferenceParagraph + Interpolate(r.referenceText) + EndParagraph else "")
      + (if Truthy(r.referenceText2) then ReferenceParagraph + Interpolate(r.referenceText2) + EndParagraph else "")
  {
    var r1: seq<Fragment> := if LooselyNotEmpty(r.referenceText) then [Reference(r.referenceText)] else [];
    var r2: seq<Fragment> := if Truthy(r.referenceText2) then [Reference(r.referenceText2)] else [];
    MarkupAppend(r1, r2);
    MarkupSingleton(Reference(r.referenceText));
    MarkupSingleton(Reference(r.referenceText2));
  }

  /** The description div: the description paragraph, the reference
      paragraphs, then two closing tags, for the description and the content div. */
  lemma BodyMarkup(r: TimelineRecord)
    ensures Markup(BodyFor(r)) ==
      DescriptionDiv + ((DescriptionParagraph + Interpolate(r.description) + EndParagraph)
        + (Markup(ReferencesFor(r)) + (EndDiv + EndDiv)))
  {
    var refs, d := ReferencesFor(r), [CloseDiv];
    MarkupCons(OpenDescription, [Description(r.description)] + (refs + (d + d)));
    MarkupCons(Description(r.description), refs + (d + d));
    MarkupAppend(refs, d + d);
    MarkupCons(CloseDiv, d);
    MarkupSingleton(CloseDiv);
  }

  /** The item opens with the content div and the heading for its timeline
      (with the download link for laws, plain for events, none otherwise),
      then the description div, and closes with the point marker and the date. */
  lemma ItemMarkupFrame(r: TimelineRecord, timelineId: string)
    ensures ItemMarkup(r, timelineId) ==
      ContentDiv
      + ((if timelineId == "laws-timeline" then
            "<h4>" + Interpolate(r.title) + DownloadAnchorStart + Interpolate(r.resourceLink) + DownloadAnchorEnd + "</h4>"
          else if timelineId == "events-timeline" then "<h4>" + Interpolate(r.title) + "</h4>"
          else "")
         + (Markup(BodyFor(r))
            + (PointDiv + (DateDiv + ("<h5>" + Interpolate(r.date) + "</h5>" + EndDiv)))))
  {
    var h := HeadingFor(r, timelineId);
    MarkupCons(OpenContent, h + (BodyFor(r) + DateFor(r)));
    MarkupAppend(h, BodyFor(r) + DateFor(r));
    MarkupAppend(BodyFor(r), DateFor(r));
    HeadingMarkup(r, timelineId);
    DateMarkup(r);
  }

  /** `createTimeline`: one list item per record, in record order, all in one
      list. An item is given by its fragments; its inner HTML is their `Markup`,
      which is `ItemMarkup` of the record. */
  method CreateTimeline(records: seq<TimelineRecord>, timelineId: string) returns (items: seq<seq<Fragment>>)
    ensures |items| == |records|
    ensures forall i :: 0 <= i < |records| ==> items[i] == ItemFragments(records[i], timelineId)
  {
    items := [];
    var n := 0;
    while n < |records|
      invariant 0 <= n <= |records|
      invariant |items| == n
      invariant forall i :: 0 <= i < n ==> items[i] == ItemFragments(records[i], timelineId)
    {
      items := items + [ItemFragments(records[n], timelineId)];
      n := n + 1;
    }
  }
}
