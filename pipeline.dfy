/**
 * The current revision's submission pipeline: `process_project` normalises a
 * project's mapping types, builds its request config and submits it;
 * `init_call` resolves the projects (by id and/or the active-project query)
 * and collects the task ids of the successful submissions, in project order.
 */
module Pipeline {
  import opened Values
  import opened Network
  import opened MappingTypes
  import opened ConfigBuilder
  import opened Retry

  /**
   * The processor's numeric settings (`API_MAX_RETRIES`, `RATE_LIMIT_WAIT`,
   * `API_BACKOFF_BASE`, `TASK_POLL_INTERVAL`), read once from the environment.
   */
  datatype Settings = Settings(maxRetries: int, rateLimitWait: int, backoffBase: int, taskPollInterval: int)

  /**
   * What `for item in mapping_types_raw` visits: the items of a list, the
   * one-character strings of a string, nothing otherwise (iterating any other
   * truthy value raises, and the exception is swallowed).
   */
  function MappingTokens(raw: Json): (r: seq<Json>)
    ensures raw.JArr? ==> r == raw.items
    ensures raw.JStr? ==> |r| == |raw.s|
  {
    match raw
    case JArr(items) => items
    case JStr(s) => Chars(s)
    case _ => []
  }

  /** The canonical names of the tokens that normalise, in token order. */
  function Normalized(tokens: seq<Json>): (r: seq<string>)
    ensures |r| <= |tokens|
    ensures forall i :: 0 <= i < |r| ==> r[i] in Names
    decreases |tokens|
  {
    if tokens == [] then []
    else
      var init := Normalized(tokens[..|tokens| - 1]);
      match Normalize(tokens[|tokens| - 1])
      case Some(name) => init + [name]
      case None => init
  }

  /** A name is among the normalised types exactly when some token normalises to it. */
  lemma {:induction false} NormalizedMembers(tokens: seq<Json>, name: string)
    ensures name in Normalized(tokens) <==> exists i :: 0 <= i < |tokens| && Normalize(tokens[i]) == Some(name)
    decreases |tokens|
  {
    if tokens != [] {
      var init := tokens[..|tokens| - 1];
      NormalizedMembers(init, name);
      assert forall i :: 0 <= i < |init| ==> init[i] == tokens[i];
    }
  }

  /** The project is an object with `geometry` and a `properties` object. */
  predicate WellShaped(project: Json)
  {
    project.JObj? && "geometry" in project.fields && "properties" in project.fields
    && project.fields["properties"].JObj?
  }

  /** The mapping types a well-shaped project asks for, once normalised. */
  function RequestedTypes(project: Json): seq<string>
    requires WellShaped(project)
  {
    var raw := GetOr(project.fields["properties"].fields, "mapping_types", JNull);
    if Truthy(raw) then Normalized(MappingTokens(raw)) else []
  }

  /** `process_project` submits a request for this project (with this template). */
  predicate Submits(template: Json, project: Json)
  {
    WellShaped(project) && |RequestedTypes(project)| > 0 && Buildable(template, set k | k in RequestedTypes(project))
  }

  /**
   * `process_project`: the task id of the submission, or `None` (a skipped
   * project, a swallowed exception, or a failed submission). The POST uses
   * `retry_post_request`'s default retry count, not the processor's.
   */
  function ProcessSpec(s: Settings, template: Json, project: Json, net: seq<Reply>, pos: nat): Run<Json>
  {
    if Submits(template, project) then PostFrom(net, pos, 0, DefaultPostRetries, s.rateLimitWait, s.backoffBase)
    else Run(JNull, pos, [])
  }

  /** The `for item in mapping_types_raw` loop: each token normalised, the names kept in order. */
  method NormalizeTokens(tokens: seq<Json>) returns (types: seq<string>)
    ensures types == Normalized(tokens)
  {
    types := [];
    var i := 0;
    while i < |tokens|
      invariant 0 <= i <= |tokens|
      invariant types == Normalized(tokens[..i])
    {
      assert tokens[..i + 1][..i] == tokens[..i];
      var name := Normalize(tokens[i]);
      if name.Some? {
        types := types + [name.value];
      }
      i := i + 1;
    }
    assert tokens[..|tokens|] == tokens;
  }

  /**
   * The request submitted for a project: the template rewritten for the
   * project's id, geometry and requested types, as `generate_filtered_config`
   * promises.
   */
  predicate IsRequestFor(request: Json, template: Json, project: Json)
    requires Submits(template, project)
  {
    IsFilteredConfig(request, template, GetOr(project.fields["properties"].fields, "project_id", JNull),
      (set k | k in RequestedTypes(project)), project.fields["geometry"])
  }

  /**
   * `process_project(project)`; besides the outcome it returns the request
   * config it submitted, if it submitted one.
   */
  method ProcessProject(s: Settings, template: Json, project: Json, net: seq<Reply>, pos: nat)
    returns (run: Run<Json>, request: Option<Json>)
    ensures run == ProcessSpec(s, template, project, net, pos)
    ensures request.Some? <==> Submits(template, project)
    ensures request.Some? ==> Submits(template, project) && IsRequestFor(request.value, template, project)
  {
    request := None;
    run := Run(JNull, pos, []);
    if !WellShaped(project) {
      return;
    }
    var geometry := project.fields["geometry"];
    var props := project.fields["properties"].fields;
    var projectId := GetOr(props, "project_id", JNull);
    var raw := GetOr(props, "mapping_types", JNull);
    if !Truthy(raw) {
      return;
    }
    var types := NormalizeTokens(MappingTokens(raw));
    if |types| == 0 {
      return;
    }
    var config := GenerateFilteredConfig(template, projectId, types, geometry);
    if config.Err? {
      return;
    }
    request := Some(config.value);
    run := RetryPost(net, pos, DefaultPostRetries, s.rateLimitWait, s.backoffBase);
  }

  /** A project with no supported mapping type is skipped: no request, no reply read, no sleep. */
  lemma SkippedProjectUsesNoNetwork(s: Settings, template: Json, project: Json, net: seq<Reply>, pos: nat)
    requires WellShaped(project) && RequestedTypes(project) == []
    ensures ProcessSpec(s, template, project, net, pos) == Run(JNull, pos, [])
  {
  }

  /** A submitted project makes at most four POST attempts (the default of three retries). */
  lemma SubmissionAttempts(s: Settings, template: Json, project: Json, net: seq<Reply>, pos: nat)
    requires Submits(template, project)
    ensures var r := ProcessSpec(s, template, project, net, pos);
      pos < r.next <= pos + DefaultPostRetries + 1 && |r.waits| < r.next - pos
  {
    PostBounds(net, pos, 0, DefaultPostRetries, s.rateLimitWait, s.backoffBase);
  }

  /** A project asking for `["roads", 2]` requests Roads (by name) and Buildings (by ordinal). */
  lemma RoadsAndOrdinalTwo()
    ensures Normalized([JStr("roads"), JInt(2)]) == ["Roads", "Buildings"]
  {
    var tokens := [JStr("roads"), JInt(2)];
    assert Upper("roads") == "ROADS";
    assert tokens[..1][..0] == [];
    assert tokens[..1] == [JStr("roads")];
    assert Normalized(tokens[..1]) == ["Roads"];
  }

  /**
   * With a two-category template, a request for Roads and Buildings holds
   * exactly the template's Roads and Buildings entries.
   */
  lemma RoadsAndBuildingsScenario(roads: Json, buildings: Json, out: seq<Json>)
    requires Truthy(roads) && Truthy(buildings)
    requires IsSelection(out, JArr([JObj(map["Roads" := roads]), JObj(map["Buildings" := buildings])]), {"Roads", "Buildings"})
    ensures JObj(map["Roads" := roads]) in out && JObj(map["Buildings" := buildings]) in out
    ensures forall e :: e in out ==> e == JObj(map["Roads" := roads]) || e == JObj(map["Buildings" := buildings])
  {
    var entries := [JObj(map["Roads" := roads]), JObj(map["Buildings" := buildings])];
    FirstMatchIsFirst(entries, "Roads", 0);
    FirstMatchIsFirst(entries, "Buildings", 1);
    SelectionOfTwo(out, JArr(entries), "Roads", "Buildings");
  }

  /** A selection for two kept names holds their two entries and nothing else. */
  lemma SelectionOfTwo(out: seq<Json>, categories: Json, a: string, b: string)
    requires Kept(categories, a) && Kept(categories, b)
    requires IsSelection(out, categories, {a, b})
    ensures Entry(categories, a) in out && Entry(categories, b) in out
    ensures forall e :: e in out ==> e == Entry(categories, a) || e == Entry(categories, b)
  {
    forall e | e in out
      ensures e == Entry(categories, a) || e == Entry(categories, b)
    {
      var i :| 0 <= i < |out| && out[i] == e;
      assert IsEntry(out[i], categories, {a, b});
    }
  }

  // ------------------------------------------------------------ init_call

  /** The details lookups for `projects`, in order; failed lookups are dropped. */
  function FetchAll(s: Settings, projects: seq<Json>, net: seq<Reply>, pos: nat): Run<seq<Json>>
    decreases |projects|
  {
    if projects == [] then Run([], pos, [])
    else
      var d := DetailsFrom(net, pos, 0, s.maxRetries, s.backoffBase, projects[0]);
      Extend(if d.value.Some? then [d.value.value] else [], d.waits, FetchAll(s, projects[1..], net, d.next))
  }

  /** Every resolved project is the feature of one of the requested ids. */
  lemma {:induction false} FetchAllFeatures(s: Settings, projects: seq<Json>, net: seq<Reply>, pos: nat)
    ensures var r := FetchAll(s, projects, net, pos);
      |r.value| <= |projects| && r.next >= pos &&
      forall f :: f in r.value ==>
        (exists i, body :: 0 <= i < |projects| && HasProjectFields(body) && f == ProjectFeature(projects[i], body))
    decreases |projects|
  {
    if projects != [] {
      var d := DetailsFrom(net, pos, 0, s.maxRetries, s.backoffBase, projects[0]);
      DetailsFound(net, pos, 0, s.maxRetries, s.backoffBase, projects[0]);
      DetailsBounds(net, pos, 0, s.maxRetries, s.backoffBase, projects[0]);
      FetchAllFeatures(s, projects[1..], net, d.next);
      var rest := FetchAll(s, projects[1..], net, d.next);
      forall f | f in rest.value
        ensures exists i, body :: 0 <= i < |projects| && HasProjectFields(body) && f == ProjectFeature(projects[i], body)
      {
        var i, body :| 0 <= i < |projects[1..]| && HasProjectFields(body) && f == ProjectFeature(projects[1..][i], body);
        assert projects[1..][i] == projects[i + 1];
      }
      if d.value.Some? {
        var body := At(net, d.next - 1).body;
        assert d.value.value == ProjectFeature(projects[0], body);
      }
    }
  }

  /** The submissions for `projects`, in order; only truthy task ids are kept. */
  function SubmitAll(s: Settings, template: Json, projects: seq<Json>, net: seq<Reply>, pos: nat): Run<seq<Json>>
    decreases |projects|
  {
    if projects == [] then Run([], pos, [])
    else
      var t := ProcessSpec(s, template, projects[0], net, pos);
      Extend(if Truthy(t.value) then [t.value] else [], t.waits, SubmitAll(s, template, projects[1..], net, t.next))
  }

  /** Kept ids are truthy task ids, at most one per project. */
  lemma {:induction false} SubmitAllIds(s: Settings, template: Json, projects: seq<Json>, net: seq<Reply>, pos: nat)
    ensures var r := SubmitAll(s, template, projects, net, pos);
      |r.value| <= |projects| && forall t :: t in r.value ==> Truthy(t)
    decreases |projects|
  {
    if projects != [] {
      var t := ProcessSpec(s, template, projects[0], net, pos);
      SubmitAllIds(s, template, projects[1..], net, t.next);
    }
  }

  /** When no project asks for a supported type, nothing is submitted and nothing is kept. */
  lemma {:induction false} SubmitAllUnsupported(s: Settings, template: Json, projects: seq<Json>, net: seq<Reply>, pos: nat)
    requires forall i :: 0 <= i < |projects| ==> !Submits(template, projects[i])
    ensures SubmitAll(s, template, projects, net, pos) == Run([], pos, [])
    decreases |projects|
  {
    if projects != [] {
      assert forall i :: 0 <= i < |projects[1..]| ==> projects[1..][i] == projects[i + 1];
      SubmitAllUnsupported(s, template, projects[1..], net, pos);
      ExtendNothing(SubmitAll(s, template, projects[1..], net, pos));
    }
  }

  /**
   * How `all_project_details.extend(features)` treats the active-project
   * list: a list contributes its items; a string or object contributes
   * elements that are not project features, which `process_project` turns
   * into `None` without a request, so they are left out here; extending
   * with any other truthy value raises `TypeError`.
   */
  function ActiveProjects(features: Json): Result<seq<Json>>
  {
    match features
    case JArr(items) => Ok(items)
    case JStr(_) => Ok([])
    case JObj(_) => Ok([])
    case _ => Err("TypeError: object is not iterable")
  }

  /**
   * `init_call(projects, fetch_active_projects)`: the kept task ids, or the
   * exception that escapes it; `fetchActive` says whether an interval was given.
   */
  function InitSpec(s: Settings, template: Json, projects: seq<Json>, fetchActive: bool, net: seq<Reply>)
    : Run<Result<seq<Json>>>
  {
    var byId := FetchAll(s, projects, net, 0);
    var active := if fetchActive then ActiveFrom(net, byId.next, 0, s.maxRetries, s.backoffBase)
                  else Run(None, byId.next, []);
    var waits := byId.waits + active.waits;
    var extra := if active.value.Some? && Truthy(active.value.value) then ActiveProjects(active.value.value)
                 else Ok([]);
    if extra.Err? then Run(Err(extra.error), active.next, waits)
    else
      var all := byId.value + extra.value;
      if all == [] then Run(Ok([]), active.next, waits)
      else
        var sub := SubmitAll(s, template, all, net, active.next);
        Run(Ok(sub.value), sub.next, waits + sub.waits)
  }

  /** The first loop of `init_call`: look up each requested project by id. */
  method FetchProjects(s: Settings, projects: seq<Json>, net: seq<Reply>) returns (run: Run<seq<Json>>)
    ensures run == FetchAll(s, projects, net, 0)
  {
    var all: seq<Json> := [];
    var p: nat := 0;
    var waits: seq<int> := [];
    var i := 0;
    assert projects[0..] == projects;
    ExtendNothing(FetchAll(s, projects, net, 0));
    while i < |projects|
      invariant 0 <= i <= |projects|
      invariant FetchAll(s, projects, net, 0) == Extend(all, waits, FetchAll(s, projects[i..], net, p))
    {
      assert projects[i..][1..] == projects[i + 1..];
      var details := GetProjectDetails(net, p, s.maxRetries, s.backoffBase, projects[i]);
      var found := if details.value.Some? then [details.value.value] else [];
      ExtendTwice(all, found, waits, details.waits, FetchAll(s, projects[i + 1..], net, details.next));
      all, p, waits := all + found, details.next, waits + details.waits;
      i := i + 1;
    }
    assert projects[i..] == [];
    assert all + [] == all && waits + [] == waits;
    run := Run(all, p, waits);
  }

  /** The last loop of `init_call`: process each project, keeping the truthy task ids. */
  method SubmitProjects(s: Settings, template: Json, all: seq<Json>, net: seq<Reply>, pos: nat)
    returns (run: Run<seq<Json>>)
    ensures run == SubmitAll(s, template, all, net, pos)
  {
    var p := pos;
    var ids: seq<Json> := [];
    var waits: seq<int> := [];
    var j := 0;
    assert all[0..] == all;
    ExtendNothing(SubmitAll(s, template, all, net, pos));
    while j < |all|
      invariant 0 <= j <= |all|
      invariant SubmitAll(s, template, all, net, pos) == Extend(ids, waits, SubmitAll(s, template, all[j..], net, p))
    {
      assert all[j..][1..] == all[j + 1..];
      var outcome, _ := ProcessProject(s, template, all[j], net, p);
      var kept := if Truthy(outcome.value) then [outcome.value] else [];
      ExtendTwice(ids, kept, waits, outcome.waits, SubmitAll(s, template, all[j + 1..], net, outcome.next));
      ids, p, waits := ids + kept, outcome.next, waits + outcome.waits;
      j := j + 1;
    }
    assert all[j..] == [];
    assert ids + [] == ids && waits + [] == waits;
    run := Run(ids, p, waits);
  }

  /** `init_call` over an oracle of replies. */
  method InitCall(s: Settings, template: Json, projects: seq<Json>, fetchActive: bool, net: seq<Reply>)
    returns (run: Run<Result<seq<Json>>>)
    ensures run == InitSpec(s, template, projects, fetchActive, net)
  {
    var byId := FetchProjects(s, projects, net);
    var all, p, waits := byId.value, byId.next, byId.waits;
    assert all + [] == all;
    if fetchActive {
      var active := GetActiveProjects(net, p, s.maxRetries, s.backoffBase);
      p, waits := active.next, waits + active.waits;
      if active.value.Some? && Truthy(active.value.value) {
        var extra := ActiveProjects(active.value.value);
        if extra.Err? {
          return Run(Err(extra.error), p, waits);
        }
        all := all + extra.value;
      }
    } else {
      assert waits + [] == waits;
    }
    if all == [] {
      return Run(Ok([]), p, waits);
    }
    var sub := SubmitProjects(s, template, all, net, p);
    run := Run(Ok(sub.value), sub.next, waits + sub.waits);
  }

  /** With no project ids and no active-project query, the result is `[]` and nothing is called. */
  lemma InitCallWithoutProjects(s: Settings, template: Json, net: seq<Reply>)
    ensures InitSpec(s, template, [], false, net) == Run(Ok([]), 0, [])
  {
  }

  /** Every id `init_call` returns is a truthy task id; there is at most one per resolved project. */
  lemma InitCallIds(s: Settings, template: Json, projects: seq<Json>, fetchActive: bool, net: seq<Reply>)
    ensures var r := InitSpec(s, template, projects, fetchActive, net);
      r.value.Ok? ==> forall t :: t in r.value.value ==> Truthy(t)
  {
    var byId := FetchAll(s, projects, net, 0);
    var active := if fetchActive then ActiveFrom(net, byId.next, 0, s.maxRetries, s.backoffBase)
                  else Run(None, byId.next, []);
    var extra := if active.value.Some? && Truthy(active.value.value) then ActiveProjects(active.value.value)
                 else Ok([]);
    if extra.Ok? && byId.value + extra.value != [] {
      SubmitAllIds(s, template, byId.value + extra.value, net, active.next);
    }
  }
}
