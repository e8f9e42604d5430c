/**
 The data side of the projects dashboard: the locale-dependent choice of API
 endpoint, resource and placeholder text, the dataset request URL, and the
 projection of raw API records to the project values the charts consume.
 */
module Charts {
  import opened JsValues
  import opened Decimal

  const EnglishUrl: string := "https://data.opendevelopmentcambodia.net/en/api/3/action/datastore_search"
  const KhmerUrl: string := "https://data.opendevelopmentcambodia.net/km/api/3/action/datastore_search"
  const EnglishResourceId: string := "50d26fc8-e451-4486-9252-6cdf09a34fea"
  const KhmerResourceId: string := "2515b02f-3e0e-48af-8d58-219cc97a5b0b"
  const EnglishUnknown: NonEmptyString := "Not found"
  /** "ពុំមានព័ត៌មាន" ("no information"), written with escapes. */
  const KhmerUnknown: NonEmptyString :=
    "\U{1796}\U{17BB}\U{17C6}\U{1798}\U{17B6}\U{1793}\U{1796}\U{17D0}\U{178F}\U{17CC}\U{1798}\U{17B6}\U{1793}"

  /** Number of records requested from the API. */
  const Limit: nat := 1000

  const ResourceIdParam: string := "?resource_id="
  const LimitParam: string := "&limit="

  /** The three locale-derived globals of the page. */
  datatype LocaleConfig = LocaleConfig(url: string, resourceId: string, unknownText: NonEmptyString)

  const English: LocaleConfig := LocaleConfig(EnglishUrl, EnglishResourceId, EnglishUnknown)
  const Khmer: LocaleConfig := LocaleConfig(KhmerUrl, KhmerResourceId, KhmerUnknown)

  /** Picks the configuration from the document language: `'en'` selects the
      English triple, every other language the Khmer one. */
  function SelectLocale(lang: string): (c: LocaleConfig)
    ensures c.url == EnglishUrl <==> lang == "en"
    ensures c.resourceId == EnglishResourceId <==> lang == "en"
    ensures c.unknownText == EnglishUnknown <==> lang == "en"
    ensures c.url == KhmerUrl <==> lang != "en"
    ensures c.resourceId == KhmerResourceId <==> lang != "en"
    ensures c.unknownText == KhmerUnknown <==> lang != "en"
  {
    if lang == "en" then English else Khmer
  }

  /** The three choices are never mixed: any one of them determines the others. */
  lemma LocaleNeverMixed(a: string, b: string)
    ensures SelectLocale(a).url == SelectLocale(b).url <==> SelectLocale(a) == SelectLocale(b)
    ensures SelectLocale(a).resourceId == SelectLocale(b).resourceId <==> SelectLocale(a) == SelectLocale(b)
    ensures SelectLocale(a).unknownText == SelectLocale(b).unknownText <==> SelectLocale(a) == SelectLocale(b)
  {
    assert EnglishUrl[41] != KhmerUrl[41];
    assert EnglishResourceId[0] != KhmerResourceId[0];
    assert EnglishUnknown[0] != KhmerUnknown[0];
  }

  /** The request URL: the base URL, the resource id and the record cap. */
  function DatasetUrl(c: LocaleConfig): (u: string)
    ensures u == c.url + "?resource_id=" + c.resourceId + "&limit=1000"
  {
    RenderThousand();
    c.url + ResourceIdParam + c.resourceId + LimitParam + NumberToString(Limit)
  }

  /** The parts of the dataset URL can be read back from it: the base URL is
      its prefix, the resource id sits right after `?resource_id=`, and the
      digits after `&limit=` parse to the record cap. */
  lemma DatasetUrlParts(c: LocaleConfig)
    ensures var u := DatasetUrl(c);
      var k := |c.url| + |ResourceIdParam|;
      && u[..|c.url|] == c.url
      && u[|c.url|..k] == ResourceIdParam
      && u[k..k + |c.resourceId|] == c.resourceId
      && u[k + |c.resourceId|..k + |c.resourceId| + |LimitParam|] == LimitParam
      && var digits := u[k + |c.resourceId| + |LimitParam|..];
         AllDigits(digits) && ParseDecimal(digits) == Limit
  {
    var u := DatasetUrl(c);
    var k := |c.url| + |ResourceIdParam|;
    var digits := NumberToString(Limit);
    assert u == c.url + ResourceIdParam + c.resourceId + LimitParam + digits;
    assert u[k + |c.resourceId| + |LimitParam|..] == digits;
    ParseNumberToString(Limit);
  }

  lemma DatasetUrlDiffers()
    ensures DatasetUrl(English) != DatasetUrl(Khmer)
  {
    var ua := DatasetUrl(English);
    var ub := DatasetUrl(Khmer);
    assert ua[41] == EnglishUrl[41];
    assert ub[41] == KhmerUrl[41];
  }

  /** Two documents request the same dataset exactly when they agree on
      whether the language is English. */
  lemma DatasetUrlByLanguage(a: string, b: string)
    ensures DatasetUrl(SelectLocale(a)) == DatasetUrl(SelectLocale(b)) <==> ((a == "en") == (b == "en"))
  {
    if (a == "en") != (b == "en") {
      DatasetUrlDiffers();
    }
  }

  /** A record as the datastore API returns it, keyed by the dataset's column names. */
  datatype RawRecord = RawRecord(
    dev_pro: JsValue,
    pro_dev: JsValue,
    link_p: JsValue,
    sector: JsValue,
    cap_inv_m: JsValue,
    cap_inv: JsValue,
    nat_pro: JsValue,
    job_creat: JsValue,
    sta_oper: JsValue,
    dir_name: JsValue,
    pro_loc: JsValue,
    data_c: JsValue,
    reference: JsValue,
    lat: JsValue,
    long: JsValue)

  /** A project as the charts consume it (the `value` object of the mapper). */
  datatype Project = Project(
    projectType: JsValue,
    developer: JsValue,
    projectUrl: JsValue,
    sector: JsValue,
    investmentMm: JsValue,
    investment: JsValue,
    nationality: JsValue,
    jobCreation: JsValue,
    yearStart: JsValue,
    directorName: JsValue,
    province: JsValue,
    dataClassification: JsValue,
    reference: JsValue,
    lat: JsValue,
    lng: JsValue)

  /** `(!x) ? unknown : x` */
  function OrUnknown(x: JsValue, unknown: NonEmptyString): (r: JsValue)
    ensures Truthy(r)
    ensures Truthy(x) ==> r == x
    ensures !Truthy(x) ==> r == Value(unknown)
  {
    if !Truthy(x) then Value(unknown) else x
  }

  /** The per-record mapping of the dashboard. */
  function MapRecord(raw: RawRecord, unknown: NonEmptyString): (p: Project)
    // the three optional texts: placeholder exactly when the source is falsy
    ensures p.nationality == (if Truthy(raw.nat_pro) then raw.nat_pro else Value(unknown))
    ensures p.yearStart == (if Truthy(raw.sta_oper) then raw.sta_oper else Value(unknown))
    ensures p.directorName == (if Truthy(raw.dir_name) then raw.dir_name else Value(unknown))
    // never empty downstream
    ensures Truthy(p.nationality) && Truthy(p.yearStart) && Truthy(p.directorName)
    // every other field copied from its renamed source key, unparsed
    ensures p.projectType == raw.dev_pro && p.developer == raw.pro_dev
    ensures p.projectUrl == raw.link_p && p.sector == raw.sector
    ensures p.investmentMm == raw.cap_inv_m && p.investment == raw.cap_inv
    ensures p.jobCreation == raw.job_creat && p.province == raw.pro_loc
    ensures p.dataClassification == raw.data_c && p.reference == raw.reference
    ensures p.lat == raw.lat && p.lng == raw.long
  {
    Project(
      projectType := raw.dev_pro,
      developer := raw.pro_dev,
      projectUrl := raw.link_p,
      sector := raw.sector,
      investmentMm := raw.cap_inv_m,
      investment := raw.cap_inv,
      nationality := OrUnknown(raw.nat_pro, unknown),
      jobCreation := raw.job_creat,
      yearStart := OrUnknown(raw.sta_oper, unknown),
      directorName := OrUnknown(raw.dir_name, unknown),
      province := raw.pro_loc,
      dataClassification := raw.data_c,
      reference := raw.reference,
      lat := raw.lat,
      lng := raw.long)
  }

  /** The inverse renaming: a project viewed under the API's column names. */
  function Unmap(p: Project): RawRecord {
    RawRecord(
      dev_pro := p.projectType,
      pro_dev := p.developer,
      link_p := p.projectUrl,
      sector := p.sector,
      cap_inv_m := p.investmentMm,
      cap_inv := p.investment,
      nat_pro := p.nationality,
      job_creat := p.jobCreation,
      sta_oper := p.yearStart,
      dir_name := p.directorName,
      pro_loc := p.province,
      data_c := p.dataClassification,
      reference := p.reference,
      lat := p.lat,
      long := p.lng)
  }

  /** Mapping loses nothing but the falsy optional texts: undoing the renaming
      gives back the raw record with exactly those three fields replaced by the
      placeholder, and gives it back unchanged when they are all truthy. */
  lemma MapRecordRoundTrip(raw: RawRecord, unknown: NonEmptyString)
    ensures Unmap(MapRecord(raw, unknown)) ==
      raw.(nat_pro := OrUnknown(raw.nat_pro, unknown),
           sta_oper := OrUnknown(raw.sta_oper, unknown),
           dir_name := OrUnknown(raw.dir_name, unknown))
    ensures Truthy(raw.nat_pro) && Truthy(raw.sta_oper) && Truthy(raw.dir_name) ==>
      Unmap(MapRecord(raw, unknown)) == raw
  {
  }

  /** A mapped optional text shows the placeholder exactly when the source was
      falsy or was itself the placeholder text. */
  lemma PlaceholderExactlyWhenFalsy(raw: RawRecord, unknown: NonEmptyString)
    ensures MapRecord(raw, unknown).nationality == Value(unknown) <==> (!Truthy(raw.nat_pro) || raw.nat_pro == Value(unknown))
    ensures MapRecord(raw, unknown).yearStart == Value(unknown) <==> (!Truthy(raw.sta_oper) || raw.sta_oper == Value(unknown))
    ensures MapRecord(raw, unknown).directorName == Value(unknown) <==> (!Truthy(raw.dir_name) || raw.dir_name == Value(unknown))
  {
  }

  /** `records.forEach(record => projects.push(value))`: one project per record,
      appended in input order after what `projects` already holds. */
  method MapRecords(projects: seq<Project>, records: seq<RawRecord>, unknown: NonEmptyString)
    returns (out: seq<Project>)
    ensures |out| == |projects| + |records|
    ensures out[..|projects|] == projects
    ensures forall i :: 0 <= i < |records| ==> out[|projects| + i] == MapRecord(records[i], unknown)
  {
    out := projects;
    var n := 0;
    while n < |records|
      invariant 0 <= n <= |records|
      invariant |out| == |projects| + n
      invariant out[..|projects|] == projects
      invariant forall i :: 0 <= i < n ==> out[|projects| + i] == MapRecord(records[i], unknown)
    {
      out := out + [MapRecord(records[n], unknown)];
      n := n + 1;
    }
  }

  /** Every project mapped under one locale carries that locale's placeholder
      and no other: a substituted text is always the configured one. */
  lemma MappedUnderOneLocale(lang: string, raw: RawRecord)
    ensures var c := SelectLocale(lang);
      var p := MapRecord(raw, c.unknownText);
      && (!Truthy(raw.nat_pro) ==> p.nationality == Value(if lang == "en" then EnglishUnknown else KhmerUnknown))
      && (!Truthy(raw.sta_oper) ==> p.yearStart == Value(if lang == "en" then EnglishUnknown else KhmerUnknown))
      && (!Truthy(raw.dir_name) ==> p.directorName == Value(if lang == "en" then EnglishUnknown else KhmerUnknown))
  {
  }

  /** The worked example: an empty nationality and a null director become
      "Not found" under English, the start year is kept. */
  lemma EnglishPlaceholderExample(raw: RawRecord)
    requires raw.nat_pro == EmptyString && raw.sta_oper == Value("2020") && raw.dir_name == Null
    ensures var p := MapRecord(raw, SelectLocale("en").unknownText);
      p.nationality == Value("Not found") && p.yearStart == Value("2020") && p.directorName == Value("Not found")
  {
  }
}
