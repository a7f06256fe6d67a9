/** The revalidation webhook (app/api/revalidate/route.ts): the order in which a `POST` is
    rejected or served, and the paths invalidated for a changed content model. The query
    parameters and the server's secret are inputs; `revalidatePath` and `revalidateTag` are
    recorded as effects, and the JSON response is a status with its payload. */
module Revalidate {
  import opened Wrappers
  import opened Seqs
  import opened CmsTypes

  // ----- the path planner -----

  /** `locale === 'all' ? ['en', 'ar'] : [locale]`. */
  function Locales(locale: string): (r: seq<string>)
    ensures |r| >= 1
  {
    if locale == "all" then ["en", "ar"] else [locale]
  }

  /** The paths one locale contributes for a model. */
  function LocalePaths(model: string, slug: Option<string>, loc: string): seq<string> {
    match model
    case "phase" => ["/" + loc] + (if Truthy(slug) then ["/" + loc + "/phases/" + slug.value] else [])
    case "module" => ["/" + loc] + (if Truthy(slug) then ["/" + loc + "/modules/" + slug.value] else [])
    case "resource" => if Truthy(slug) then ["/" + loc + "/modules/" + slug.value] else []
    case "testimonial" => ["/" + loc]
    case "setting" => ["/" + loc, "/" + loc + "/phases", "/" + loc + "/modules"]
    case _ => []
  }

  /** The paths of the given locales, locale by locale. */
  function PathsOfLocales(model: string, slug: Option<string>, locales: seq<string>): seq<string> {
    if locales == [] then []
    else PathsOfLocales(model, slug, locales[..|locales| - 1]) + LocalePaths(model, slug, locales[|locales| - 1])
  }

  /** What `getPathsForModel` returns. */
  function PathsForModel(model: string, slug: Option<string>, locale: string): seq<string> {
    PathsOfLocales(model, slug, Locales(locale))
  }

  /** `getPathsForModel`: one pass over the locales, pushing each locale's paths. */
  method GetPathsForModel(model: string, slug: Option<string>, locale: string) returns (paths: seq<string>)
    ensures paths == PathsForModel(model, slug, locale)
  {
    paths := [];
    var locales := Locales(locale);
    var i := 0;
    while i < |locales|
      invariant 0 <= i <= |locales|
      invariant paths == PathsOfLocales(model, slug, locales[..i])
    {
      var loc := locales[i];
      if model == "phase" {
        paths := paths + ["/" + loc];
        if slug.Some? && slug.value != "" {
          paths := paths + ["/" + loc + "/phases/" + slug.value];
        }
      } else if model == "module" {
        paths := paths + ["/" + loc];
        if slug.Some? && slug.value != "" {
          paths := paths + ["/" + loc + "/modules/" + slug.value];
        }
      } else if model == "resource" {
        if slug.Some? && slug.value != "" {
          paths := paths + ["/" + loc + "/modules/" + slug.value];
        }
      } else if model == "testimonial" {
        paths := paths + ["/" + loc];
      } else if model == "setting" {
        paths := paths + ["/" + loc];
        paths := paths + ["/" + loc + "/phases"];
        paths := paths + ["/" + loc + "/modules"];
      }
      assert locales[..i + 1][..i] == locales[..i];
      i := i + 1;
    }
    assert locales[..i] == locales;
  }

  /** Both locales for `all`, the given one otherwise, English first. */
  lemma PlanCoversLocales(model: string, slug: Option<string>, locale: string)
    ensures locale == "all" ==>
      PathsForModel(model, slug, locale) == LocalePaths(model, slug, "en") + LocalePaths(model, slug, "ar")
    ensures locale != "all" ==> PathsForModel(model, slug, locale) == LocalePaths(model, slug, locale)
  {
    if locale == "all" {
      var ls := ["en", "ar"];
      assert ls[..1] == ["en"] && ["en"][..0] == [];
      assert PathsOfLocales(model, slug, ["en"]) == LocalePaths(model, slug, "en");
    } else {
      assert Locales(locale) == [locale] && [locale][..0] == [];
      assert PathsOfLocales(model, slug, [locale]) == PathsOfLocales(model, slug, []) + LocalePaths(model, slug, locale);
    }
  }

  /** The plural path segments: a phase with a slug invalidates its landing page and `/phases/`. */
  lemma PhasePlan(slug: string, locale: string)
    requires slug != "" && locale != "all"
    ensures PathsForModel("phase", Some(slug), locale) == ["/" + locale, "/" + locale + "/phases/" + slug]
    ensures PathsForModel("module", Some(slug), locale) == ["/" + locale, "/" + locale + "/modules/" + slug]
    ensures PathsForModel("phase", None, locale) == ["/" + locale]
  {
    PlanCoversLocales("phase", Some(slug), locale);
    PlanCoversLocales("module", Some(slug), locale);
    PlanCoversLocales("phase", None, locale);
  }

  /** Settings touch every page kind, landing page first, in each locale. */
  lemma SettingPlan(slug: Option<string>)
    ensures PathsForModel("setting", slug, "all")
         == ["/en", "/en/phases", "/en/modules", "/ar", "/ar/phases", "/ar/modules"]
  {
    PlanCoversLocales("setting", slug, "all");
    assert LocalePaths("setting", slug, "en") == ["/" + "en", "/" + "en" + "/phases", "/" + "en" + "/modules"];
    assert LocalePaths("setting", slug, "ar") == ["/" + "ar", "/" + "ar" + "/phases", "/" + "ar" + "/modules"];
    assert "/" + "en" == "/en" && "/" + "ar" == "/ar";
    assert "/" + "en" + "/phases" == "/en/phases" && "/" + "en" + "/modules" == "/en/modules";
    assert "/" + "ar" + "/phases" == "/ar/phases" && "/" + "ar" + "/modules" == "/ar/modules";
  }

  /** A resource without a slug, and a model the planner does not know, invalidate nothing. */
  lemma {:induction false} EmptyPlans(model: string, slug: Option<string>, locales: seq<string>)
    requires (model == "resource" && !Truthy(slug)) || model !in {"phase", "module", "resource", "testimonial", "setting"}
    ensures PathsOfLocales(model, slug, locales) == []
  {
    if locales != [] {
      EmptyPlans(model, slug, locales[..|locales| - 1]);
    }
  }

  /** How many paths one locale contributes. */
  function PathsPerLocale(model: string, slug: Option<string>): nat {
    if model == "phase" || model == "module" then (if Truthy(slug) then 2 else 1)
    else if model == "resource" then (if Truthy(slug) then 1 else 0)
    else if model == "testimonial" then 1
    else if model == "setting" then 3
    else 0
  }

  lemma LocalePathsSize(model: string, slug: Option<string>, loc: string)
    ensures |LocalePaths(model, slug, loc)| == PathsPerLocale(model, slug)
  {
  }

  /** A plan holds the same number of paths for each locale. */
  lemma {:induction false} PlanSize(model: string, slug: Option<string>, locales: seq<string>)
    ensures |PathsOfLocales(model, slug, locales)| == |locales| * PathsPerLocale(model, slug)
  {
    if locales != [] {
      var n, k := |locales|, PathsPerLocale(model, slug);
      PlanSize(model, slug, locales[..n - 1]);
      LocalePathsSize(model, slug, locales[n - 1]);
      assert n * k == (n - 1) * k + k;
    }
  }

  // ----- the request -----

  /** The query parameters of the request (`searchParams.get`, `None` for `null`). */
  datatype Request = Request(
    secret: Option<string>,
    path: Option<string>,
    tag: Option<string>,
    model: Option<string>,
    slug: Option<string>,
    locale: Option<string>)

  /** `searchParams.get('locale') || 'all'`. */
  function RequestLocale(r: Request): string {
    if Truthy(r.locale) then r.locale.value else "all"
  }

  /** The framework calls the handler makes, in order. */
  datatype Invalidation = InvalidatePath(path: string) | InvalidateTag(tag: string)

  datatype Response =
    | NotConfigured
    | InvalidSecret
    | NoTarget
    | Success(revalidated: seq<string>)

  function Status(r: Response): int {
    match r
    case NotConfigured => 500
    case InvalidSecret => 401
    case NoTarget => 400
    case Success(_) => 200
  }

  /** The entry a call adds to the `revalidated` list. */
  function Entry(e: Invalidation): string {
    match e
    case InvalidatePath(p) => "path: " + p
    case InvalidateTag(t) => "tag: " + t
  }

  function PathInvalidation(p: string): Invalidation {
    InvalidatePath(p)
  }

  /** The calls an accepted request makes: its path, its tag, then its model's paths. */
  function PlannedInvalidations(r: Request): seq<Invalidation> {
    (if Truthy(r.path) then [InvalidatePath(r.path.value)] else [])
    + (if Truthy(r.tag) then [InvalidateTag(r.tag.value)] else [])
    + (if Truthy(r.model) then Map(PathsForModel(r.model.value, r.slug, RequestLocale(r)), PathInvalidation) else [])
  }

  /** A missing secret is a server error, checked first; a wrong one is refused. */
  predicate Accepted(r: Request, serverSecret: Option<string>) {
    Truthy(serverSecret) && r.secret == serverSecret
  }

  /** The response to a request. */
  function Respond(r: Request, serverSecret: Option<string>): Response {
    if !Truthy(serverSecret) then NotConfigured
    else if r.secret != serverSecret then InvalidSecret
    else if PlannedInvalidations(r) == [] then NoTarget
    else Success(Map(PlannedInvalidations(r), Entry))
  }

  /** `POST`: the checks, then each invalidation with its entry in `revalidated`. The `catch` for
      a failing framework call is not part of this model. */
  method Post(r: Request, serverSecret: Option<string>) returns (response: Response, effects: seq<Invalidation>)
    ensures response == Respond(r, serverSecret)
    ensures effects == if Accepted(r, serverSecret) then PlannedInvalidations(r) else []
  {
    effects := [];
    var isConfigured := serverSecret.Some? && serverSecret.value != "";
    if !isConfigured {
      return NotConfigured, effects;
    }
    if r.secret != serverSecret {
      return InvalidSecret, effects;
    }
    var revalidated;
    effects, revalidated := Invalidate(r);
    if |revalidated| == 0 {
      return NoTarget, effects;
    }
    response := Success(revalidated);
  }

  /** The body of the `try` up to the emptiness check: the calls and the list of entries. */
  method Invalidate(r: Request) returns (effects: seq<Invalidation>, revalidated: seq<string>)
    ensures effects == PlannedInvalidations(r) && revalidated == Map(effects, Entry)
  {
    effects := [];
    revalidated := [];
    if r.path.Some? && r.path.value != "" {
      effects := effects + [InvalidatePath(r.path.value)];
      revalidated := revalidated + ["path: " + r.path.value];
    }
    if r.tag.Some? && r.tag.value != "" {
      effects := effects + [InvalidateTag(r.tag.value)];
      revalidated := revalidated + ["tag: " + r.tag.value];
    }
    assert revalidated == Map(effects, Entry);
    if r.model.Some? && r.model.value != "" {
      var paths := GetPathsForModel(r.model.value, r.slug, RequestLocale(r));
      effects, revalidated := InvalidatePaths(paths, effects, revalidated);
    }
  }

  /** The `paths.forEach` loop: invalidate each path and record it. */
  method InvalidatePaths(paths: seq<string>, effects0: seq<Invalidation>, revalidated0: seq<string>)
    returns (effects: seq<Invalidation>, revalidated: seq<string>)
    requires revalidated0 == Map(effects0, Entry)
    ensures effects == effects0 + Map(paths, PathInvalidation) && revalidated == Map(effects, Entry)
  {
    effects, revalidated := effects0, revalidated0;
    var i := 0;
    while i < |paths|
      invariant 0 <= i <= |paths|
      invariant effects == effects0 + Map(paths[..i], PathInvalidation)
      invariant revalidated == Map(effects, Entry)
    {
      MapAppend(paths[..i], paths[i], PathInvalidation);
      MapAppend(effects, InvalidatePath(paths[i]), Entry);
      assert paths[..i + 1] == paths[..i] + [paths[i]];
      effects := effects + [InvalidatePath(paths[i])];
      revalidated := revalidated + ["path: " + paths[i]];
      i := i + 1;
    }
    assert paths[..i] == paths;
  }

  /** Without a configured secret nothing is invalidated, whatever secret the request carries. */
  lemma NotConfiguredFirst(r: Request, serverSecret: Option<string>)
    requires !Truthy(serverSecret)
    ensures Status(Respond(r, serverSecret)) == 500 && !Accepted(r, serverSecret)
  {
  }

  /** A configured server refuses a request with any other secret, or with none. */
  lemma WrongSecretRefused(r: Request, serverSecret: Option<string>)
    requires Truthy(serverSecret) && r.secret != serverSecret
    ensures Status(Respond(r, serverSecret)) == 401 && !Accepted(r, serverSecret)
  {
  }

  /** An accepted request succeeds exactly when something was invalidated, and the response lists
      one entry per call, as many as path, tag and model paths together. */
  lemma SuccessListsTargets(r: Request, serverSecret: Option<string>)
    requires Accepted(r, serverSecret)
    ensures Status(Respond(r, serverSecret)) == 400 <==> PlannedInvalidations(r) == []
    ensures Respond(r, serverSecret).Success? ==>
      |Respond(r, serverSecret).revalidated|
        == (if Truthy(r.path) then 1 else 0) + (if Truthy(r.tag) then 1 else 0)
           + (if Truthy(r.model) then |PathsForModel(r.model.value, r.slug, RequestLocale(r))| else 0)
  {
    var planned := PlannedInvalidations(r);
    assert |Map(planned, Entry)| == |planned|;
  }
}
