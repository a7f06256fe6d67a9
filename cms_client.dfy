/** The CMS client (lib/cms-client.ts) without its network layer: the configuration read from the
    environment, the query string built from query parameters, the endpoint and default
    parameters of each getter, the offline normalisation of the sample records, what each getter
    returns for a given fetch outcome, and the media-URL helper. */
module CmsClient {
  import opened Wrappers
  import opened Strings
  import opened Seqs
  import opened I18n
  import opened CmsTypes
  import opened SearchParams

  // ----- configuration -----

  /** The environment variables the client reads. */
  datatype Env = Env(
    cmsBaseUrl: Option<string>,
    publicCmsUrl: Option<string>,
    apiToken: Option<string>,
    offline: Option<string>)

  const DefaultBaseUrl: string := "http://localhost:1337"

  /** `CMS_BASE_URL`: the first non-empty of the two variables, else the local default. */
  function BaseUrl(env: Env): (r: string)
    ensures r != ""
  {
    if Truthy(env.cmsBaseUrl) then env.cmsBaseUrl.value
    else if Truthy(env.publicCmsUrl) then env.publicCmsUrl.value
    else DefaultBaseUrl
  }

  /** `CMS_OFFLINE`: the variable, lower-cased, is `1` or `true`. */
  predicate Offline(env: Env) {
    var v := Lower(env.offline.GetOr(""));
    v == "1" || v == "true"
  }

  /** `isCMSConfigured`. */
  predicate IsCMSConfigured(env: Env) {
    Offline(env) || (BaseUrl(env) != "" && Truthy(env.apiToken))
  }

  /** Offline mode counts as configured; otherwise the token decides, since the base URL always
      has a value. */
  lemma ConfiguredIffOfflineOrToken(env: Env)
    ensures IsCMSConfigured(env) <==> Offline(env) || Truthy(env.apiToken)
    ensures Offline(Env(None, None, None, Some("TRUE"))) && !Offline(Env(None, None, None, Some("yes")))
  {
    assert Lower("TRUE") == "true";
  }

  // ----- query parameters -----

  /** A parameter that is one string or a list of them. */
  datatype OneOrMany = One(value: string) | Many(values: seq<string>)

  /** A filter value, as `String(value)` prints it: a nested object prints as `[object Object]`. */
  datatype FilterValue = FText(text: string) | FNumber(number: int) | FBool(flag: bool) | FObject

  function FilterText(v: FilterValue): string {
    match v
    case FText(s) => s
    case FNumber(n) => IntToString(n)
    case FBool(b) => if b then "true" else "false"
    case FObject => "[object Object]"
  }

  /** `CMSQueryParams`. Object entries are listed in the order `Object.entries` would give them,
      which is insertion order for the string keys the callers use (integer-like keys would come
      first, ascending); a pagination entry may be `undefined`. */
  datatype QueryParams = QueryParams(
    locale: Option<Locale>,
    populate: Option<OneOrMany>,
    filters: Option<seq<(string, FilterValue)>>,
    sort: Option<OneOrMany>,
    pagination: Option<seq<(string, Option<int>)>>)

  const NoParams: QueryParams := QueryParams(None, None, None, None, None)

  /** `{ ...defaults, ...params }`: a parameter the caller gives replaces the default. */
  function WithDefaults(defaults: QueryParams, params: QueryParams): (r: QueryParams)
    ensures params.sort.Some? ==> r.sort == params.sort
    ensures params.populate.Some? ==> r.populate == params.populate
    ensures params.filters.Some? ==> r.filters == params.filters
    ensures params.sort.None? ==> r.sort == defaults.sort
    ensures params.populate.None? ==> r.populate == defaults.populate
    ensures params.filters.None? ==> r.filters == defaults.filters
    ensures params.locale.Some? ==> r.locale == params.locale
    ensures params.locale.None? ==> r.locale == defaults.locale
    ensures params.pagination.Some? ==> r.pagination == params.pagination
    ensures params.pagination.None? ==> r.pagination == defaults.pagination
  {
    QueryParams(
      if params.locale.Some? then params.locale else defaults.locale,
      if params.populate.Some? then params.populate else defaults.populate,
      if params.filters.Some? then params.filters else defaults.filters,
      if params.sort.Some? then params.sort else defaults.sort,
      if params.pagination.Some? then params.pagination else defaults.pagination)
  }

  function PairWith(key: string): string -> (string, string) {
    v => (key, v)
  }

  /** The pairs of a `populate` or `sort` parameter: none for a missing or empty string, one per
      element of a list. */
  function ListPairs(key: string, p: Option<OneOrMany>): seq<(string, string)> {
    match p
    case None => []
    case Some(One(s)) => if s != "" then [(key, s)] else []
    case Some(Many(ss)) => Map(ss, PairWith(key))
  }

  function FilterPair(entry: (string, FilterValue)): (string, string) {
    ("filters[" + entry.0 + "]", FilterText(entry.1))
  }

  function FilterPairs(filters: Option<seq<(string, FilterValue)>>): seq<(string, string)> {
    if filters.None? then [] else Map(filters.value, FilterPair)
  }

  /** The pagination pairs, skipping `undefined` entries. */
  function PaginationPairs(entries: seq<(string, Option<int>)>): seq<(string, string)> {
    if entries == [] then []
    else
      var e := entries[|entries| - 1];
      PaginationPairs(entries[..|entries| - 1])
        + (if e.1.Some? then [("pagination[" + e.0 + "]", IntToString(e.1.value))] else [])
  }

  /** The pairs `buildQueryString` appends: locale, populate, filters, sort, pagination. */
  function QueryPairs(params: QueryParams): seq<(string, string)> {
    (if params.locale.Some? then [("locale", Code(params.locale.value))] else [])
    + ListPairs("populate", params.populate)
    + FilterPairs(params.filters)
    + ListPairs("sort", params.sort)
    + (if params.pagination.Some? then PaginationPairs(params.pagination.value) else [])
  }

  /** What `buildQueryString` returns. */
  function QueryString(params: QueryParams): string {
    var qs := Serialize(QueryPairs(params));
    if qs != "" then "?" + qs else ""
  }

  /** The query string is empty exactly when there are no pairs, and otherwise a `?` followed by
      them. */
  lemma QueryStringShape(params: QueryParams)
    ensures QueryString(params) == "" <==> QueryPairs(params) == []
    ensures QueryPairs(params) != [] ==> QueryString(params) == "?" + Serialize(QueryPairs(params))
  {
    SerializeEmpty(QueryPairs(params));
  }

  /** A list parameter gives one pair per element, in order; an undefined pagination entry gives
      none. */
  lemma {:induction false} PairCounts(key: string, ss: seq<string>, entries: seq<(string, Option<int>)>)
    ensures |ListPairs(key, Some(Many(ss)))| == |ss|
    ensures forall i :: 0 <= i < |ss| ==> ListPairs(key, Some(Many(ss)))[i] == (key, ss[i])
    ensures |PaginationPairs(entries)| <= |entries|
    ensures (forall e :: e in entries ==> e.1.None?) ==> PaginationPairs(entries) == []
  {
    if entries != [] {
      PairCounts(key, ss, entries[..|entries| - 1]);
    }
  }

  /** `buildQueryString`: appends to the search parameters group by group, then serialises. */
  method BuildQueryString(params: QueryParams) returns (r: string)
    ensures r == QueryString(params)
  {
    var pairs: seq<(string, string)> := [];
    if params.locale.Some? {
      pairs := pairs + [("locale", Code(params.locale.value))];
    }
    pairs := AppendList(pairs, "populate", params.populate);
    if params.filters.Some? {
      pairs := AppendFilters(pairs, params.filters.value);
    }
    pairs := AppendList(pairs, "sort", params.sort);
    if params.pagination.Some? {
      pairs := AppendPagination(pairs, params.pagination.value);
    }
    assert pairs == QueryPairs(params);
    var queryString := Serialize(pairs);
    r := if queryString != "" then "?" + queryString else "";
  }

  method AppendList(pairs0: seq<(string, string)>, key: string, p: Option<OneOrMany>) returns (pairs: seq<(string, string)>)
    ensures pairs == pairs0 + ListPairs(key, p)
  {
    pairs := pairs0;
    if p.Some? {
      match p.value
      case One(s) =>
        if s != "" {
          pairs := pairs + [(key, s)];
        }
      case Many(ss) =>
        var i := 0;
        while i < |ss|
          invariant 0 <= i <= |ss|
          invariant pairs == pairs0 + Map(ss[..i], PairWith(key))
        {
          MapAppend(ss[..i], ss[i], PairWith(key));
          assert ss[..i + 1] == ss[..i] + [ss[i]];
          pairs := pairs + [(key, ss[i])];
          i := i + 1;
        }
        assert ss[..i] == ss;
    }
  }

  method AppendFilters(pairs0: seq<(string, string)>, filters: seq<(string, FilterValue)>) returns (pairs: seq<(string, string)>)
    ensures pairs == pairs0 + Map(filters, FilterPair)
  {
    pairs := pairs0;
    var i := 0;
    while i < |filters|
      invariant 0 <= i <= |filters|
      invariant pairs == pairs0 + Map(filters[..i], FilterPair)
    {
      var (key, value) := filters[i];
      MapAppend(filters[..i], filters[i], FilterPair);
      assert filters[..i + 1] == filters[..i] + [filters[i]];
      pairs := pairs + [("filters[" + key + "]", FilterText(value))];
      i := i + 1;
    }
    assert filters[..i] == filters;
  }

  method AppendPagination(pairs0: seq<(string, string)>, entries: seq<(string, Option<int>)>) returns (pairs: seq<(string, string)>)
    ensures pairs == pairs0 + PaginationPairs(entries)
  {
    pairs := pairs0;
    var i := 0;
    while i < |entries|
      invariant 0 <= i <= |entries|
      invariant pairs == pairs0 + PaginationPairs(entries[..i])
    {
      var (key, value) := entries[i];
      assert entries[..i + 1][..i] == entries[..i];
      if value.Some? {
        pairs := pairs + [("pagination[" + key + "]", IntToString(value.value))];
      }
      i := i + 1;
    }
    assert entries[..i] == entries;
  }

  // ----- the getters' requests -----

  datatype Getter =
    | GetPhases
    | GetPhaseById(id: int)
    | GetPhaseBySlug(slug: string)
    | GetModules
    | GetModuleById(id: int)
    | GetModuleBySlug(slug: string)
    | GetModulesByPhase(phaseSlug: string)
    | GetResources
    | GetResourcesByModule(moduleSlug: string)
    | GetTestimonials
    | GetSettings

  /** `{ slug: { $eq: slug } }` and the like: one entry whose value is a nested object. */
  function ObjectFilter(key: string): Option<seq<(string, FilterValue)>> {
    Some([(key, FObject)])
  }

  const OrderAsc: Option<OneOrMany> := Some(One("order:asc"))

  /** The parameters each getter spreads the caller's parameters over. */
  function Defaults(g: Getter): QueryParams {
    match g
    case GetPhases => QueryParams(None, Some(One("modules")), None, OrderAsc, None)
    case GetPhaseById(_) => QueryParams(None, Some(One("modules")), None, None, None)
    case GetPhaseBySlug(_) => QueryParams(None, Some(One("modules")), ObjectFilter("slug"), None, None)
    case GetModules => QueryParams(None, Some(Many(["phase", "resources"])), None, OrderAsc, None)
    case GetModuleById(_) => QueryParams(None, Some(Many(["phase", "resources"])), None, None, None)
    case GetModuleBySlug(_) => QueryParams(None, Some(Many(["phase", "resources"])), ObjectFilter("slug"), None, None)
    case GetModulesByPhase(_) => QueryParams(None, Some(One("resources")), ObjectFilter("phase"), OrderAsc, None)
    case GetResources => QueryParams(None, Some(Many(["module", "file"])), None, OrderAsc, None)
    case GetResourcesByModule(_) => QueryParams(None, Some(One("file")), ObjectFilter("module"), OrderAsc, None)
    case GetTestimonials => QueryParams(None, Some(One("photo")), None, OrderAsc, None)
    case GetSettings => NoParams
  }

  function Endpoint(g: Getter): string {
    match g
    case GetPhases => "/phases"
    case GetPhaseById(id) => "/phases/" + IntToString(id)
    case GetPhaseBySlug(_) => "/phases"
    case GetModules => "/modules"
    case GetModuleById(id) => "/modules/" + IntToString(id)
    case GetModuleBySlug(_) => "/modules"
    case GetModulesByPhase(_) => "/modules"
    case GetResources => "/resources"
    case GetResourcesByModule(_) => "/resources"
    case GetTestimonials => "/testimonials"
    case GetSettings => "/setting"
  }

  /** The URL `cmsFetch` requests for a getter. */
  function RequestUrl(env: Env, g: Getter, params: QueryParams): string {
    BaseUrl(env) + "/api" + Endpoint(g) + QueryString(WithDefaults(Defaults(g), params))
  }

  /** `String(value)` prints the nested slug filters as `[object Object]`, so the request of a
      by-slug getter does not depend on the slug. */
  lemma SlugFilterIgnoresSlug(env: Env, params: QueryParams, a: string, b: string)
    ensures RequestUrl(env, GetPhaseBySlug(a), params) == RequestUrl(env, GetPhaseBySlug(b), params)
    ensures RequestUrl(env, GetModuleBySlug(a), params) == RequestUrl(env, GetModuleBySlug(b), params)
    ensures RequestUrl(env, GetModulesByPhase(a), params) == RequestUrl(env, GetModulesByPhase(b), params)
    ensures RequestUrl(env, GetResourcesByModule(a), params) == RequestUrl(env, GetResourcesByModule(b), params)
  {
    RequestIgnoresSlug(env, params, GetPhaseBySlug(a), GetPhaseBySlug(b));
    RequestIgnoresSlug(env, params, GetModuleBySlug(a), GetModuleBySlug(b));
    RequestIgnoresSlug(env, params, GetModulesByPhase(a), GetModulesByPhase(b));
    RequestIgnoresSlug(env, params, GetResourcesByModule(a), GetResourcesByModule(b));
  }

  /** Without caller filters, the by-slug phase request filters on the text `[object Object]`. */
  lemma SlugFilterPrintsObject(params: QueryParams, a: string)
    requires params.filters.None?
    ensures FilterPairs(WithDefaults(Defaults(GetPhaseBySlug(a)), params).filters) == [("filters[slug]", "[object Object]")]
  {
    assert "filters[" + "slug" + "]" == "filters[slug]";
    assert FilterPairs(ObjectFilter("slug")) == [FilterPair(("slug", FObject))];
  }

  lemma RequestIgnoresSlug(env: Env, params: QueryParams, g: Getter, h: Getter)
    requires Defaults(g) == Defaults(h) && Endpoint(g) == Endpoint(h)
    ensures RequestUrl(env, g, params) == RequestUrl(env, h, params)
  {
  }

  /** No getter's defaults set a locale, so the caller's locale, when given, is the first pair of
      every request's query, and with no locale given there is no locale pair at all. */
  lemma LocaleReachesRequest(g: Getter, params: QueryParams)
    ensures params.locale.Some? ==>
      var pairs := QueryPairs(WithDefaults(Defaults(g), params));
      |pairs| > 0 && pairs[0] == ("locale", Code(params.locale.value))
    ensures params.locale.None? ==>
      forall i :: 0 <= i < |QueryPairs(WithDefaults(Defaults(g), params))| ==>
        QueryPairs(WithDefaults(Defaults(g), params))[i].0 != "locale"
  {
    var q := WithDefaults(Defaults(g), params);
    if params.locale.None? {
      assert Defaults(g).locale.None?;
      forall i | 0 <= i < |QueryPairs(q)|
        ensures QueryPairs(q)[i].0 != "locale"
      {
        NoLocaleKey(q, i);
      }
    }
  }

  /** Without a locale, none of the query pairs is keyed `locale`: the other keys begin with
      `populate`, `filters[`, `sort` or `pagination[`. */
  lemma NoLocaleKey(q: QueryParams, i: nat)
    requires q.locale.None? && i < |QueryPairs(q)|
    ensures QueryPairs(q)[i].0 != "locale"
  {
    var populate, filters, sort := ListPairs("populate", q.populate), FilterPairs(q.filters), ListPairs("sort", q.sort);
    var pagination := if q.pagination.Some? then PaginationPairs(q.pagination.value) else [];
    assert QueryPairs(q) == populate + filters + sort + pagination;
    if i < |populate| {
      assert populate[i].0 == "populate";
    } else if i < |populate| + |filters| {
      var k := filters[i - |populate|].0;
      assert k[0] == 'f';
    } else if i < |populate| + |filters| + |sort| {
      assert sort[i - |populate| - |filters|].0 == "sort";
    } else {
      PaginationKeys(q.pagination.value, i - |populate| - |filters| - |sort|);
    }
  }

  lemma {:induction false} PaginationKeys(entries: seq<(string, Option<int>)>, i: nat)
    requires i < |PaginationPairs(entries)|
    ensures |PaginationPairs(entries)[i].0| > 0 && PaginationPairs(entries)[i].0[0] == 'p'
  {
    var init := entries[..|entries| - 1];
    if i < |PaginationPairs(init)| {
      PaginationKeys(init, i);
    }
  }

  /** Every request goes to the base URL's `/api/` path. */
  lemma RequestUrlOnApi(env: Env, g: Getter, params: QueryParams)
    ensures StartsWith(RequestUrl(env, g, params), BaseUrl(env) + "/api/")
  {
    var e, q := Endpoint(g), QueryString(WithDefaults(Defaults(g), params));
    assert e[0] == '/';
    PrefixOfConcat(BaseUrl(env) + "/api/", e[1..] + q);
    assert BaseUrl(env) + "/api" + e + q == (BaseUrl(env) + "/api/") + (e[1..] + q);
  }

  lemma PrefixOfConcat(a: string, b: string)
    ensures StartsWith(a + b, a)
  {
    assert (a + b)[..|a|] == a;
  }

  /** `getSettings` without parameters asks for `/api/setting` with no query string. */
  lemma SettingsRequest(env: Env)
    ensures RequestUrl(env, GetSettings, NoParams) == BaseUrl(env) + "/api/setting"
  {
    assert QueryPairs(WithDefaults(Defaults(GetSettings), NoParams)) == [];
  }

  /** By-id requests for different ids go to different URLs. */
  lemma ByIdUrlsDiffer(env: Env, params: QueryParams, a: int, b: int)
    requires a != b
    ensures RequestUrl(env, GetPhaseById(a), params) != RequestUrl(env, GetPhaseById(b), params)
    ensures RequestUrl(env, GetModuleById(a), params) != RequestUrl(env, GetModuleById(b), params)
  {
    ParseIntOfIntToString(a);
    ParseIntOfIntToString(b);
    var x, y := IntToString(a), IntToString(b);
    SuffixesDiffer("/phases/", x, y, "");
    SuffixesDiffer("/modules/", x, y, "");
    assert "/phases/" + x + "" == Endpoint(GetPhaseById(a));
    assert "/modules/" + x + "" == Endpoint(GetModuleById(a));
    SuffixesDiffer(BaseUrl(env) + "/api", Endpoint(GetPhaseById(a)), Endpoint(GetPhaseById(b)),
                   QueryString(WithDefaults(Defaults(GetPhaseById(a)), params)));
    SuffixesDiffer(BaseUrl(env) + "/api", Endpoint(GetModuleById(a)), Endpoint(GetModuleById(b)),
                   QueryString(WithDefaults(Defaults(GetModuleById(a)), params)));
  }

  lemma SuffixesDiffer(pre: string, x: string, y: string, q: string)
    requires x != y
    ensures pre + x + q != pre + y + q
  {
    if |x| == |y| {
      assert (pre + x + q)[|pre|..|pre| + |x|] == x;
      assert (pre + y + q)[|pre|..|pre| + |y|] == y;
    }
  }

  /** With no parameters, the phase list asks for the phases with their modules, in order. */
  lemma PhasesQuery()
    ensures QueryPairs(WithDefaults(Defaults(GetPhases), NoParams)) == [("populate", "modules"), ("sort", "order:asc")]
  {
  }

  // ----- fetch outcomes -----

  /** What `cmsFetch` does: the decoded data, a `CMSFetchError` with an HTTP status, or another
      error. */
  datatype FetchOutcome<T> = Fetched(data: T) | HttpError(status: int) | OtherError(message: string)

  datatype CmsError = CmsFetchError(status: int) | FetchFailed(message: string)

  function Rethrow<T, U>(o: FetchOutcome<T>): Result<U, CmsError>
    requires !o.Fetched?
  {
    match o
    case HttpError(s) => Err(CmsFetchError(s))
    case OtherError(m) => Err(FetchFailed(m))
  }

  /** A list getter: the fetched list, or the error. */
  function FetchList<T>(o: FetchOutcome<seq<T>>): Result<seq<T>, CmsError> {
    if o.Fetched? then Ok(o.data) else Rethrow(o)
  }

  /** A by-id getter and `getSettings`: a 404 is `null`, every other error is rethrown. */
  function FetchOne<T>(o: FetchOutcome<T>): (r: Result<Option<T>, CmsError>)
    ensures o.HttpError? && o.status == 404 ==> r == Ok(None)
    ensures o.Fetched? ==> r == Ok(Some(o.data))
    ensures r.Err? <==> !o.Fetched? && !(o.HttpError? && o.status == 404)
  {
    match o
    case Fetched(d) => Ok(Some(d))
    case HttpError(s) => if s == 404 then Ok(None) else Err(CmsFetchError(s))
    case OtherError(m) => Err(FetchFailed(m))
  }

  /** A by-slug getter: the first record of the fetched list, `null` for none; errors, a 404
      included, are not caught. */
  function FetchFirst<T>(o: FetchOutcome<seq<T>>): (r: Result<Option<T>, CmsError>)
    ensures o.Fetched? && o.data != [] ==> r == Ok(Some(o.data[0]))
    ensures o.Fetched? && o.data == [] ==> r == Ok(None)
    ensures r.Err? <==> !o.Fetched?
  {
    if o.Fetched? then Ok(if o.data != [] then Some(o.data[0]) else None) else Rethrow(o)
  }

  // ----- offline sample data -----

  /** A record of the sample phases file; a missing `order` or `phase_number` is `None`. */
  datatype SamplePhase = SamplePhase(
    title: string,
    slug: string,
    description: string,
    order: Option<int>,
    phaseNumber: Option<int>,
    headerVideoUrl: Option<string>)

  datatype SampleResource = SampleResource(
    title: string,
    description: Option<string>,
    fileUrl: Option<string>,
    fileType: string,
    fileSize: Option<string>,
    order: Option<int>)

  datatype SampleTestimonial = SampleTestimonial(
    name: Option<string>,
    author: Option<string>,
    quote: Option<string>,
    text: Option<string>,
    role: Option<string>,
    order: Option<int>)

  datatype SampleSettings = SampleSettings(
    siteTitle: string,
    siteTitleAr: Option<string>,
    heroHeadline: string,
    heroHeadlineAr: Option<string>,
    heroDescription: string,
    heroDescriptionAr: Option<string>,
    heroVideoUrl: Option<string>,
    footerText: Option<string>,
    footerTextAr: Option<string>,
    socialLinks: Option<seq<SocialLink>>)

  /** `(params.locale as any) || 'en'`. */
  function OfflineLocale(params: QueryParams): Locale {
    params.locale.GetOr(En)
  }

  function NormalizePhase(p: SamplePhase, idx: nat, locale: Locale): Phase {
    Phase(idx + 1, p.title, p.slug, p.description, p.order.GetOr(idx + 1), p.phaseNumber.GetOr(idx + 1),
          p.headerVideoUrl, locale, Some([]))
  }

  /** The offline `getPhases`: ids 1 to n in order, a missing order or phase number replaced by
      the position, the requested locale (English by default), and no modules. */
  function OfflinePhases(items: seq<SamplePhase>, params: QueryParams): (r: seq<Phase>)
    ensures |r| == |items|
    ensures forall i :: 0 <= i < |r| ==>
      && r[i].id == i + 1
      && r[i].title == items[i].title && r[i].slug == items[i].slug
      && r[i].order == items[i].order.GetOr(i + 1)
      && r[i].phaseNumber == items[i].phaseNumber.GetOr(i + 1)
      && r[i].locale == OfflineLocale(params)
      && ModulesOf(r[i]) == []
  {
    seq(|items|, i requires 0 <= i < |items| => NormalizePhase(items[i], i, OfflineLocale(params)))
  }

  function NormalizeResource(r: SampleResource, idx: nat, locale: Locale): Resource {
    Resource(idx + 1, r.title, r.description, r.fileUrl, r.fileType, r.fileSize, Some(r.order.GetOr(idx + 1)), locale, None)
  }

  /** The offline `getResources`: ids 1 to n, the order defaulting to the position, and no module. */
  function OfflineResources(items: seq<SampleResource>, params: QueryParams): (r: seq<Resource>)
    ensures |r| == |items|
    ensures forall i :: 0 <= i < |r| ==>
      r[i].id == i + 1 && r[i].order == Some(items[i].order.GetOr(i + 1)) && r[i].moduleSlug.None?
  {
    seq(|items|, i requires 0 <= i < |items| => NormalizeResource(items[i], i, OfflineLocale(params)))
  }

  /** `a || b` on optional strings. */
  function Or(a: Option<string>, b: string): string {
    if Truthy(a) then a.value else b
  }

  function NormalizeTestimonial(t: SampleTestimonial, idx: nat, locale: Locale): Testimonial {
    Testimonial(idx + 1, Or(t.name, Or(t.author, "Participant")), Or(t.quote, Or(t.text, "")), t.role,
                t.order.GetOr(idx + 1), locale)
  }

  /** The offline `getTestimonials`: the name falls back to the author, then to `Participant`; the
      quote to the text, then to the empty string. */
  function OfflineTestimonials(items: seq<SampleTestimonial>, params: QueryParams): (r: seq<Testimonial>)
    ensures |r| == |items|
    ensures forall i :: 0 <= i < |r| ==>
      && r[i].id == i + 1
      && r[i].name != ""
      && r[i].name == (if Truthy(items[i].name) then items[i].name.value
                       else if Truthy(items[i].author) then items[i].author.value else "Participant")
      && r[i].quote == (if Truthy(items[i].quote) then items[i].quote.value
                        else if Truthy(items[i].text) then items[i].text.value else "")
  {
    seq(|items|, i requires 0 <= i < |items| => NormalizeTestimonial(items[i], i, OfflineLocale(params)))
  }

  /** The offline `getSettings`: the sample record with id 1 in the requested locale. */
  function OfflineSettings(s: SampleSettings, params: QueryParams): (r: Settings)
    ensures r.id == 1 && r.locale == OfflineLocale(params) && r.siteTitle == s.siteTitle
  {
    Settings(1, s.siteTitle, s.siteTitleAr, s.heroHeadline, s.heroHeadlineAr, s.heroDescription,
             s.heroDescriptionAr, s.heroVideoUrl, s.footerText, s.footerTextAr, s.socialLinks,
             OfflineLocale(params))
  }

  /** `Array.prototype.find`: the first element that satisfies `p`. */
  function Find<T>(s: seq<T>, p: T -> bool): (r: Option<T>)
    ensures r.Some? ==> r.value in s && p(r.value)
    ensures r.None? <==> forall x :: x in s ==> !p(x)
  {
    if s == [] then None else if p(s[0]) then Some(s[0]) else Find(s[1..], p)
  }

  /** The element `Find` returns comes before every other element that satisfies `p`. */
  lemma {:induction false} FindFirst<T>(s: seq<T>, p: T -> bool, i: nat)
    requires i < |s| && p(s[i])
    ensures Find(s, p).Some? && exists j :: 0 <= j <= i && Find(s, p).value == s[j]
  {
    if !p(s[0]) {
      FindFirst(s[1..], p, i - 1);
      var j :| 0 <= j <= i - 1 && Find(s[1..], p).value == s[1..][j];
      assert s[1..][j] == s[j + 1];
    }
  }

  function IdIs(id: int): Phase -> bool {
    (p: Phase) => p.id == id
  }

  function SlugIs(slug: string): Phase -> bool {
    (p: Phase) => p.slug == slug
  }

  // ----- the getters -----

  function Phases(env: Env, params: QueryParams, sample: seq<SamplePhase>,
                  fetched: FetchOutcome<seq<Phase>>): Result<seq<Phase>, CmsError> {
    if Offline(env) then Ok(OfflinePhases(sample, params)) else FetchList(fetched)
  }

  function PhaseById(env: Env, id: int, params: QueryParams, sample: seq<SamplePhase>,
                     fetched: FetchOutcome<Phase>): Result<Option<Phase>, CmsError> {
    if Offline(env) then Ok(Find(OfflinePhases(sample, params), IdIs(id))) else FetchOne(fetched)
  }

  function PhaseBySlug(env: Env, slug: string, params: QueryParams, sample: seq<SamplePhase>,
                       fetched: FetchOutcome<seq<Phase>>): Result<Option<Phase>, CmsError> {
    if Offline(env) then Ok(Find(OfflinePhases(sample, params), SlugIs(slug))) else FetchFirst(fetched)
  }

  /** Offline there is no module data: the module lists are empty and the module lookups `null`. */
  function Modules(env: Env, fetched: FetchOutcome<seq<Module>>): Result<seq<Module>, CmsError> {
    if Offline(env) then Ok([]) else FetchList(fetched)
  }

  function ModuleById(env: Env, id: int, fetched: FetchOutcome<Module>): Result<Option<Module>, CmsError> {
    if Offline(env) then Ok(Find([], (m: Module) => m.id == id)) else FetchOne(fetched)
  }

  function ModuleBySlug(env: Env, slug: string, fetched: FetchOutcome<seq<Module>>): Result<Option<Module>, CmsError> {
    if Offline(env) then Ok(Find([], (m: Module) => m.slug == slug)) else FetchFirst(fetched)
  }

  function ModulesByPhase(env: Env, phaseSlug: string, fetched: FetchOutcome<seq<Module>>): Result<seq<Module>, CmsError> {
    if Offline(env) then Ok([]) else FetchList(fetched)
  }

  function Resources(env: Env, params: QueryParams, sample: seq<SampleResource>,
                     fetched: FetchOutcome<seq<Resource>>): Result<seq<Resource>, CmsError> {
    if Offline(env) then Ok(OfflineResources(sample, params)) else FetchList(fetched)
  }

  function InModule(moduleSlug: string): Resource -> bool {
    (r: Resource) => r.moduleSlug == Some(moduleSlug)
  }

  function ResourcesByModule(env: Env, moduleSlug: string, params: QueryParams, sample: seq<SampleResource>,
                             fetched: FetchOutcome<seq<Resource>>): Result<seq<Resource>, CmsError> {
    if Offline(env) then Ok(Filter(OfflineResources(sample, params), InModule(moduleSlug))) else FetchList(fetched)
  }

  function Testimonials(env: Env, params: QueryParams, sample: seq<SampleTestimonial>,
                        fetched: FetchOutcome<seq<Testimonial>>): Result<seq<Testimonial>, CmsError> {
    if Offline(env) then Ok(OfflineTestimonials(sample, params)) else FetchList(fetched)
  }

  function SettingsOf(env: Env, params: QueryParams, sample: SampleSettings,
                      fetched: FetchOutcome<Settings>): Result<Option<Settings>, CmsError> {
    if Offline(env) then Ok(Some(OfflineSettings(sample, params))) else FetchOne(fetched)
  }

  /** Offline, the list getters and `getSettings` answer from the sample data, whatever the
      network would have returned: one record per sample record, numbered from 1. */
  lemma OfflineIgnoresNetwork(env: Env, params: QueryParams, phaseSample: seq<SamplePhase>,
                              resourceSample: seq<SampleResource>, testimonialSample: seq<SampleTestimonial>,
                              settingsSample: SampleSettings, phases: FetchOutcome<seq<Phase>>,
                              resources: FetchOutcome<seq<Resource>>, testimonials: FetchOutcome<seq<Testimonial>>,
                              settings: FetchOutcome<Settings>)
    requires Offline(env)
    ensures var r := Phases(env, params, phaseSample, phases);
      r.Ok? && |r.value| == |phaseSample| && forall i :: 0 <= i < |r.value| ==> r.value[i].id == i + 1
    ensures var r := Resources(env, params, resourceSample, resources);
      r.Ok? && |r.value| == |resourceSample| && forall i :: 0 <= i < |r.value| ==> r.value[i].id == i + 1
    ensures var r := Testimonials(env, params, testimonialSample, testimonials);
      r.Ok? && |r.value| == |testimonialSample| && forall i :: 0 <= i < |r.value| ==> r.value[i].id == i + 1
    ensures var r := SettingsOf(env, params, settingsSample, settings);
      r.Ok? && r.value.Some? && r.value.value.id == 1 && r.value.value.siteTitle == settingsSample.siteTitle
  {
  }

  /** Online, every list getter returns exactly the fetched list and fails exactly when the fetch
      failed, a 404 included, whatever the sample data; `getSettings` turns a 404 into `null`. */
  lemma OnlineFollowsFetch(env: Env, params: QueryParams, slug: string, phaseSample: seq<SamplePhase>,
                           resourceSample: seq<SampleResource>, testimonialSample: seq<SampleTestimonial>,
                           settingsSample: SampleSettings, phases: FetchOutcome<seq<Phase>>,
                           modules: FetchOutcome<seq<Module>>, resources: FetchOutcome<seq<Resource>>,
                           testimonials: FetchOutcome<seq<Testimonial>>, settings: FetchOutcome<Settings>)
    requires !Offline(env)
    ensures var r := Phases(env, params, phaseSample, phases);
      (r.Ok? <==> phases.Fetched?) && (phases.Fetched? ==> r.value == phases.data)
    ensures var r := Modules(env, modules);
      (r.Ok? <==> modules.Fetched?) && (modules.Fetched? ==> r.value == modules.data)
    ensures var r := ModulesByPhase(env, slug, modules);
      (r.Ok? <==> modules.Fetched?) && (modules.Fetched? ==> r.value == modules.data)
    ensures var r := Resources(env, params, resourceSample, resources);
      (r.Ok? <==> resources.Fetched?) && (resources.Fetched? ==> r.value == resources.data)
    ensures var r := ResourcesByModule(env, slug, params, resourceSample, resources);
      (r.Ok? <==> resources.Fetched?) && (resources.Fetched? ==> r.value == resources.data)
    ensures var r := Testimonials(env, params, testimonialSample, testimonials);
      (r.Ok? <==> testimonials.Fetched?) && (testimonials.Fetched? ==> r.value == testimonials.data)
    ensures var r := SettingsOf(env, params, settingsSample, settings);
      (r.Err? <==> !settings.Fetched? && !(settings.HttpError? && settings.status == 404))
      && (settings.Fetched? ==> r == Ok(Some(settings.data)))
      && (settings.HttpError? && settings.status == 404 ==> r == Ok(None))
    ensures var r := ModuleById(env, 0, HttpError(404)); r == Ok(None)
    ensures var r := ModuleBySlug(env, slug, HttpError(404)); r == Err(CmsFetchError(404))
  {
  }

  /** Offline, a phase id finds the phase at that position, and nothing outside 1 to n. */
  lemma OfflinePhaseById(env: Env, id: int, params: QueryParams, sample: seq<SamplePhase>, fetched: FetchOutcome<Phase>)
    requires Offline(env)
    ensures 1 <= id <= |sample| ==>
      PhaseById(env, id, params, sample, fetched) == Ok(Some(NormalizePhase(sample[id - 1], id - 1, OfflineLocale(params))))
    ensures !(1 <= id <= |sample|) ==> PhaseById(env, id, params, sample, fetched) == Ok(None)
  {
    var phases := OfflinePhases(sample, params);
    if 1 <= id <= |sample| {
      FindFirst(phases, IdIs(id), id - 1);
    }
  }

  /** Offline, a slug finds the first sample phase with that slug. */
  lemma OfflinePhaseBySlug(env: Env, slug: string, params: QueryParams, sample: seq<SamplePhase>,
                           fetched: FetchOutcome<seq<Phase>>, i: nat)
    requires Offline(env) && i < |sample| && sample[i].slug == slug
    requires forall j :: 0 <= j < i ==> sample[j].slug != slug
    ensures PhaseBySlug(env, slug, params, sample, fetched) == Ok(Some(NormalizePhase(sample[i], i, OfflineLocale(params))))
  {
    var phases := OfflinePhases(sample, params);
    FindFirst(phases, SlugIs(slug), i);
  }

  /** Offline, the module lookups find nothing and the module lists are empty, and since the
      normalised resources carry no module, neither are the resources of any module. */
  lemma OfflineHasNoModules(env: Env, id: int, slug: string, params: QueryParams, sample: seq<SampleResource>,
                            one: FetchOutcome<Module>, many: FetchOutcome<seq<Module>>,
                            resources: FetchOutcome<seq<Resource>>)
    requires Offline(env)
    ensures ModuleById(env, id, one) == Ok(None) && ModuleBySlug(env, slug, many) == Ok(None)
    ensures Modules(env, many) == Ok([]) && ModulesByPhase(env, slug, many) == Ok([])
    ensures ResourcesByModule(env, slug, params, sample, resources) == Ok([])
  {
    FilterDropsAll(OfflineResources(sample, params), InModule(slug));
  }

  /** Online, a by-id lookup turns only a 404 into `null`; a by-slug lookup catches nothing. */
  lemma OnlineNotFound(env: Env, id: int, slug: string, params: QueryParams, sample: seq<SamplePhase>)
    requires !Offline(env)
    ensures PhaseById(env, id, params, sample, HttpError(404)) == Ok(None)
    ensures PhaseById(env, id, params, sample, HttpError(500)).Err?
    ensures PhaseBySlug(env, slug, params, sample, HttpError(404)) == Err(CmsFetchError(404))
    ensures PhaseBySlug(env, slug, params, sample, Fetched([])) == Ok(None)
  {
  }

  // ----- media URLs -----

  /** `getMediaUrl`: nothing for a missing or empty URL, an absolute (`http`) URL as it is, and a
      relative one prefixed with the base URL. */
  function GetMediaUrl(env: Env, url: Option<string>): (r: Option<string>)
    ensures r.None? <==> !Truthy(url)
    ensures Truthy(url) && StartsWith(url.value, "http") ==> r == url
    ensures Truthy(url) && !StartsWith(url.value, "http") ==> r == Some(BaseUrl(env) + url.value)
  {
    if !Truthy(url) then None
    else if StartsWith(url.value, "http") then url
    else Some(BaseUrl(env) + url.value)
  }

  /** With an `http` base URL, a media URL once resolved resolves to itself. */
  lemma GetMediaUrlIdempotent(env: Env, url: Option<string>)
    requires StartsWith(BaseUrl(env), "http")
    ensures GetMediaUrl(env, GetMediaUrl(env, url)) == GetMediaUrl(env, url)
  {
    if Truthy(url) && !StartsWith(url.value, "http") {
      var r := BaseUrl(env) + url.value;
      assert r[..4] == BaseUrl(env)[..4];
    }
  }
}
