/**
 * The earlier revision of `ProjectProcessor`. It keeps one configuration
 * object that every `generate_filtered_config` call rewrites in place, makes
 * single unretried lookups, submits through a session that resubmits after
 * a 61-second pause whenever the rate limit is hit, and lets almost every
 * exception escape. `init_call` evaluates `process_project` twice for every
 * project that yields an id.
 */
module Legacy {
  import opened Values
  import opened Network
  import opened MappingTypes
  import opened ConfigBuilder
  import opened LegacyConfig
  import Retry

  /** A run of the processor: its outcome, its configuration afterwards, the next reply and the sleeps. */
  datatype Outcome<T> = Outcome(value: Result<T>, config: Json, next: nat, waits: seq<int>)

  /** The pause of `handle_rate_limit`. */
  const RateLimitPause: int := 61

  /** The pause between the two status polls of `track_tasks_status`. */
  const PollPause: int := 30

  /**
   * `retry_post_request`: one reply stands for the whole session call. A
   * reply of 429 is the session giving up on the rate limit (`RetryError`),
   * which sleeps and submits again; any other error escapes, and so does a
   * body without `task_id`.
   */
  function SubmitFrom(net: seq<Reply>, pos: nat): Run<Result<Json>>
    decreases |net| - pos
  {
    match At(net, pos)
    case Body(body) =>
      if body.JObj? && "task_id" in body.fields then Run(Ok(body.fields["task_id"]), pos + 1, [])
      else Run(Err("KeyError: 'task_id'"), pos + 1, [])
    case HttpError(status, message) =>
      if status == 429 then Prepend([RateLimitPause], SubmitFrom(net, pos + 1))
      else Run(Err(message), pos + 1, [])
    case Failure(message) => Run(Err(message), pos + 1, [])
  }

  /** `n` rate-limit refusals and then a reply with a task id: `n` pauses of 61 seconds. */
  lemma {:induction false} SubmitAfterRateLimits(net: seq<Reply>, pos: nat, n: nat, id: Json, rest: map<string, Json>)
    requires forall q :: pos <= q < pos + n ==> At(net, q).HttpError? && At(net, q).status == 429
    requires At(net, pos + n) == Body(JObj(rest["task_id" := id]))
    ensures SubmitFrom(net, pos) == Run(Ok(id), pos + n + 1, Repeat(RateLimitPause, n))
    decreases n
  {
    if n > 0 {
      SubmitAfterRateLimits(net, pos + 1, n - 1, id, rest);
    }
  }

  /** The loop over `mapping_types`: the first token that is neither int nor string raises. */
  function NormalizedAll(tokens: seq<Json>): (r: Result<seq<string>>)
    ensures r.Err? <==> exists i :: 0 <= i < |tokens| && LegacyNormalize(tokens[i]).Err?
    ensures r.Ok? ==> |r.value| <= |tokens| && forall i :: 0 <= i < |r.value| ==> r.value[i] in Names
    decreases |tokens|
  {
    if tokens == [] then Ok([])
    else
      var init := NormalizedAll(tokens[..|tokens| - 1]);
      assert forall i :: 0 <= i < |tokens| - 1 ==> tokens[..|tokens| - 1][i] == tokens[i];
      if init.Err? then init
      else match LegacyNormalize(tokens[|tokens| - 1])
        case Err(e) => Err(e)
        case Ok(Some(name)) => Ok(init.value + [name])
        case Ok(None) => init
  }

  /** What `for item in project['properties'].get('mapping_types')` visits; `None` and numbers raise. */
  function Tokens(raw: Json): Result<seq<Json>>
  {
    match raw
    case JArr(items) => Ok(items)
    case JStr(s) => Ok(Chars(s))
    case JObj(_) => Ok([])
    case _ => Err("TypeError: object is not iterable")
  }

  /** The project has the shape `process_project` indexes into. */
  predicate Indexable(project: Json)
  {
    project.JObj? && "geometry" in project.fields && "properties" in project.fields
    && project.fields["properties"].JObj?
  }

  /** The names a project's mapping types normalise to, or the exception normalising raises. */
  function ProjectTypes(project: Json): Result<seq<string>>
    requires Indexable(project)
  {
    var raw := GetOr(project.fields["properties"].fields, "mapping_types", JNull);
    match Tokens(raw)
    case Err(e) => Err(e)
    case Ok(tokens) => NormalizedAll(tokens)
  }

  /** `process_project(project)` with configuration `config`. */
  function ProcessSpec(config: Json, project: Json, net: seq<Reply>, pos: nat): Outcome<Json>
  {
    if !Indexable(project) then Outcome(Err("KeyError or TypeError on the project"), config, pos, [])
    else match ProjectTypes(project)
      case Err(e) => Outcome(Err(e), config, pos, [])
      case Ok(types) =>
        if types == [] then Outcome(Ok(JNull), config, pos, [])
        else
          var projectId := GetOr(project.fields["properties"].fields, "project_id", JNull);
          var wanted := set k | k in types;
          var after := AfterRewrite(config, projectId, wanted, project.fields["geometry"]);
          if !RewriteSucceeds(config, wanted) then Outcome(Err("KeyError or TypeError on the configuration"), after, pos, [])
          else
            var sent := SubmitFrom(net, pos);
            Outcome(sent.value, after, sent.next, sent.waits)
  }

  /** A project none of whose mapping types normalises yields `None`: no rewrite, no submission. */
  lemma UnsupportedProjectSkipped(config: Json, project: Json, net: seq<Reply>, pos: nat)
    requires Indexable(project) && ProjectTypes(project) == Ok([])
    ensures ProcessSpec(config, project, net, pos) == Outcome(Ok(JNull), config, pos, [])
  {
  }

  /** A single lookup: `get_project_details` raises unless the reply carries both fields. */
  function DetailsOf(reply: Reply, projectId: Json): Result<Json>
  {
    match reply
    case Body(body) =>
      if body.JObj? && "mappingTypes" in body.fields && "areaOfInterest" in body.fields
      then Ok(JObj(map[
        "type" := JStr("Feature"),
        "properties" := JObj(map["mapping_types" := body.fields["mappingTypes"], "project_id" := projectId]),
        "geometry" := body.fields["areaOfInterest"]]))
      else Err("KeyError on the project reply")
    case HttpError(_, message) => Err(message)
    case Failure(message) => Err(message)
  }

  /** A single query: `get_active_projects` raises unless the reply carries `features`. */
  function ActiveOf(reply: Reply): Result<Json>
  {
    match reply
    case Body(body) =>
      if body.JObj? && "features" in body.fields then Ok(body.fields["features"]) else Err("KeyError: 'features'")
    case HttpError(_, message) => Err(message)
    case Failure(message) => Err(message)
  }

  /**
   * `all_project_details.extend(features)`: a list adds its items; a string
   * or an object adds one string per character or key (each a non-object,
   * on which `process_project` raises at once, so a placeholder stands for
   * it); anything else raises.
   */
  function Extension(features: Json): Result<seq<Json>>
  {
    match features
    case JArr(items) => Ok(items)
    case JStr(s) => Ok(Chars(s))
    case JObj(fields) => Ok(seq(|fields|, i => JStr("")))
    case _ => Err("TypeError: object is not iterable")
  }

  /** The lookups by id, in order; the first failing one raises. */
  function FetchAll(projects: seq<Json>, net: seq<Reply>, pos: nat): Run<Result<seq<Json>>>
    decreases |projects|
  {
    if projects == [] then Run(Ok([]), pos, [])
    else match DetailsOf(At(net, pos), projects[0])
      case Err(e) => Run(Err(e), pos + 1, [])
      case Ok(feature) =>
        var rest := FetchAll(projects[1..], net, pos + 1);
        if rest.value.Err? then rest else Run(Ok([feature] + rest.value.value), rest.next, rest.waits)
  }

  /**
   * A lookup succeeds exactly on a body holding both fields, and builds the
   * same feature as the current revision's `get_project_details`.
   */
  lemma DetailsOfFeature(reply: Reply, projectId: Json)
    ensures DetailsOf(reply, projectId).Ok? <==> reply.Body? && Retry.HasProjectFields(reply.body)
    ensures DetailsOf(reply, projectId).Ok? ==> DetailsOf(reply, projectId).value == Retry.ProjectFeature(projectId, reply.body)
  {
  }

  /** The active-project query succeeds exactly on a body holding `features`, and yields them. */
  lemma ActiveOfFeatures(reply: Reply)
    ensures ActiveOf(reply).Ok? <==> reply.Body? && Retry.HasFeatures(reply.body)
    ensures ActiveOf(reply).Ok? ==> ActiveOf(reply).value == reply.body.fields["features"]
  {
  }

  /**
   * The lookups by id read one reply each and never sleep. When all succeed
   * there is one feature per id, in order, built from that id's reply; else
   * the first failing lookup's exception escapes right after its reply.
   */
  lemma FetchAllLookups(projects: seq<Json>, net: seq<Reply>, pos: nat)
    ensures FetchAll(projects, net, pos).waits == []
    ensures var r := FetchAll(projects, net, pos);
      r.value.Ok? ==>
        r.next == pos + |projects| && |r.value.value| == |projects| &&
        forall i :: 0 <= i < |projects| ==> DetailsOf(At(net, pos + i), projects[i]) == Ok(r.value.value[i])
    ensures var r := FetchAll(projects, net, pos);
      r.value.Err? ==>
        pos < r.next <= pos + |projects| &&
        DetailsOf(At(net, r.next - 1), projects[r.next - 1 - pos]) == Err(r.value.error) &&
        forall i :: 0 <= i < r.next - 1 - pos ==> DetailsOf(At(net, pos + i), projects[i]).Ok?
  {
    FetchAllNoWaits(projects, net, pos);
    FetchAllFound(projects, net, pos);
    FetchAllFirstError(projects, net, pos);
  }

  lemma {:induction false} FetchAllNoWaits(projects: seq<Json>, net: seq<Reply>, pos: nat)
    ensures FetchAll(projects, net, pos).waits == []
    decreases |projects|
  {
    if projects != [] && DetailsOf(At(net, pos), projects[0]).Ok? {
      FetchAllNoWaits(projects[1..], net, pos + 1);
    }
  }

  lemma {:induction false} FetchAllFound(projects: seq<Json>, net: seq<Reply>, pos: nat)
    ensures var r := FetchAll(projects, net, pos);
      r.value.Ok? ==>
        r.next == pos + |projects| && |r.value.value| == |projects| &&
        forall i :: 0 <= i < |projects| ==> DetailsOf(At(net, pos + i), projects[i]) == Ok(r.value.value[i])
    decreases |projects|
  {
    if projects != [] {
      var d := DetailsOf(At(net, pos), projects[0]);
      if d.Ok? {
        var rest := FetchAll(projects[1..], net, pos + 1);
        FetchAllFound(projects[1..], net, pos + 1);
        if rest.value.Ok? {
          var all := [d.value] + rest.value.value;
          assert FetchAll(projects, net, pos).value == Ok(all);
          forall i | 1 <= i < |projects|
            ensures DetailsOf(At(net, pos + i), projects[i]) == Ok(all[i])
          {
            assert projects[i] == projects[1..][i - 1] && all[i] == rest.value.value[i - 1];
            assert pos + i == (pos + 1) + (i - 1);
          }
        }
      }
    }
  }

  lemma {:induction false} FetchAllFirstError(projects: seq<Json>, net: seq<Reply>, pos: nat)
    ensures var r := FetchAll(projects, net, pos);
      r.value.Err? ==>
        pos < r.next <= pos + |projects| &&
        DetailsOf(At(net, r.next - 1), projects[r.next - 1 - pos]) == Err(r.value.error) &&
        forall i :: 0 <= i < r.next - 1 - pos ==> DetailsOf(At(net, pos + i), projects[i]).Ok?
    decreases |projects|
  {
    if projects != [] {
      var d := DetailsOf(At(net, pos), projects[0]);
      if d.Ok? {
        var rest := FetchAll(projects[1..], net, pos + 1);
        FetchAllFirstError(projects[1..], net, pos + 1);
        if rest.value.Err? {
          assert FetchAll(projects, net, pos) == rest;
          var k := rest.next - 1 - (pos + 1);
          assert projects[k + 1] == projects[1..][k];
          forall i | 1 <= i < rest.next - 1 - pos
            ensures DetailsOf(At(net, pos + i), projects[i]).Ok?
          {
            assert projects[i] == projects[1..][i - 1];
            assert pos + i == (pos + 1) + (i - 1);
          }
        }
      }
    }
  }

  /**
   * One project of `[process_project(p) for p in projects if
   * process_project(p) is not None]`: the filter's call comes first; when it
   * yields an id the element's call runs again, and its result (whatever it
   * is) is the one kept.
   */
  function SubmitOne(config: Json, project: Json, net: seq<Reply>, pos: nat): Outcome<seq<Json>>
  {
    var first := ProcessSpec(config, project, net, pos);
    if first.value.Err? then Outcome(Err(first.value.error), first.config, first.next, first.waits)
    else if first.value.value == JNull then Outcome(Ok([]), first.config, first.next, first.waits)
    else
      var second := ProcessSpec(first.config, project, net, first.next);
      Outcome(if second.value.Err? then Err(second.value.error) else Ok([second.value.value]),
              second.config, second.next, first.waits + second.waits)
  }

  /** The whole comprehension; the first exception ends it. */
  function SubmitAll(config: Json, projects: seq<Json>, net: seq<Reply>, pos: nat): Outcome<seq<Json>>
    decreases |projects|
  {
    if projects == [] then Outcome(Ok([]), config, pos, [])
    else
      var one := SubmitOne(config, projects[0], net, pos);
      if one.value.Err? then one
      else Combined(one.value.value, one.waits, SubmitAll(one.config, projects[1..], net, one.next))
  }

  /** `init_call(projects, fetch_active_projects)`. */
  function InitSpec(config: Json, projects: seq<Json>, fetchActive: bool, net: seq<Reply>): Outcome<seq<Json>>
  {
    var byId := FetchAll(projects, net, 0);
    if byId.value.Err? then Outcome(Err(byId.value.error), config, byId.next, [])
    else
      var extra := if fetchActive then
                     match ActiveOf(At(net, byId.next))
                     case Err(e) => Err(e)
                     case Ok(features) => Extension(features)
                   else Ok([]);
      var p := if fetchActive then byId.next + 1 else byId.next;
      if extra.Err? then Outcome(Err(extra.error), config, p, [])
      else SubmitAll(config, byId.value.value + extra.value, net, p)
  }

  /**
   * One project that yields an id is processed twice: it is rewritten and
   * submitted twice and the id kept is the second submission's.
   */
  lemma DoubleSubmission(config: Json, project: Json, net: seq<Reply>, pos: nat)
    requires var first := ProcessSpec(config, project, net, pos); first.value.Ok? && first.value.value != JNull
    ensures var first := ProcessSpec(config, project, net, pos);
      var second := ProcessSpec(first.config, project, net, first.next);
      pos < first.next < second.next &&
      second.next == SubmitFrom(net, first.next).next &&
      SubmitOne(config, project, net, pos) ==
        Outcome(if second.value.Err? then Err(second.value.error) else Ok([second.value.value]),
                second.config, second.next, first.waits + second.waits)
  {
    var first := ProcessSpec(config, project, net, pos);
    var projectId := GetOr(project.fields["properties"].fields, "project_id", JNull);
    var wanted := set k | k in ProjectTypes(project).value;
    var geometry := project.fields["geometry"];
    assert first.config == AfterRewrite(config, projectId, wanted, geometry);
    assert first == Outcome(SubmitFrom(net, pos).value, first.config, SubmitFrom(net, pos).next, SubmitFrom(net, pos).waits);
    RewritesAccumulate(config, projectId, wanted, geometry, projectId, wanted, geometry);
    var second := ProcessSpec(first.config, project, net, first.next);
    assert second.next == SubmitFrom(net, first.next).next;
    SubmitAdvances(net, pos);
    SubmitAdvances(net, first.next);
  }

  /** The `generate_filtered_config` call `process_project` makes for a project, if it gets that far. */
  function RewriteOf(project: Json): Option<Rewrite>
  {
    if !Indexable(project) then None
    else match ProjectTypes(project)
      case Err(_) => None
      case Ok(types) =>
        if types == [] then None
        else Some(Rewrite(GetOr(project.fields["properties"].fields, "project_id", JNull),
                          (set k | k in types), project.fields["geometry"]))
  }

  /**
   * `process_project` touches the configuration only through its one
   * rewrite: without one the configuration is kept and the result is an
   * exception or `None`; with one the configuration is rewritten, and a
   * rewrite that fails makes the call raise.
   */
  lemma ProcessSpecRewrite(config: Json, project: Json, net: seq<Reply>, pos: nat)
    ensures var o := ProcessSpec(config, project, net, pos);
      RewriteOf(project).None? ==> o.config == config && (o.value.Err? || o.value == Ok(JNull))
    ensures var o := ProcessSpec(config, project, net, pos);
      RewriteOf(project).Some? ==>
        var r := RewriteOf(project).value;
        o.config == AfterRewrite(config, r.projectId, r.types, r.geometry) &&
        (!RewriteSucceeds(config, r.types) ==> o.value.Err?)
  {
  }

  /** The rewrites one project of the comprehension performs: none, one, or two alike. */
  function Calls(config: Json, project: Json, net: seq<Reply>, pos: nat): seq<Rewrite>
  {
    match RewriteOf(project)
    case None => []
    case Some(r) =>
      var first := ProcessSpec(config, project, net, pos);
      if first.value.Err? || first.value.value == JNull then [r] else [r, r]
  }

  /** The rewrites the whole comprehension performs, in order, up to the first exception. */
  function Performed(config: Json, projects: seq<Json>, net: seq<Reply>, pos: nat): seq<Rewrite>
    decreases |projects|
  {
    if projects == [] then []
    else
      var one := SubmitOne(config, projects[0], net, pos);
      Calls(config, projects[0], net, pos) +
        (if one.value.Err? then [] else Performed(one.config, projects[1..], net, one.next))
  }

  lemma SubmitOneConfig(config: Json, project: Json, net: seq<Reply>, pos: nat)
    ensures SubmitOne(config, project, net, pos).config == AfterRewrites(config, Calls(config, project, net, pos))
  {
    var first := ProcessSpec(config, project, net, pos);
    ProcessSpecRewrite(config, project, net, pos);
    if RewriteOf(project).Some? {
      var r := RewriteOf(project).value;
      var c1 := AfterRewrite(config, r.projectId, r.types, r.geometry);
      assert AfterRewrites(config, [r]) == AfterRewrites(c1, []);
      if first.value.Ok? && first.value.value != JNull {
        ProcessSpecRewrite(first.config, project, net, first.next);
        assert [r, r][1..] == [r];
        assert AfterRewrites(config, [r, r]) == AfterRewrites(c1, [r]);
      }
    }
  }

  /** The configuration the comprehension leaves is the one its rewrites, applied in order, produce. */
  lemma {:induction false} SubmitAllConfig(config: Json, projects: seq<Json>, net: seq<Reply>, pos: nat)
    ensures SubmitAll(config, projects, net, pos).config == AfterRewrites(config, Performed(config, projects, net, pos))
    decreases |projects|
  {
    if projects != [] {
      var one := SubmitOne(config, projects[0], net, pos);
      var calls := Calls(config, projects[0], net, pos);
      SubmitOneConfig(config, projects[0], net, pos);
      if one.value.Err? {
        assert calls + [] == calls;
      } else {
        SubmitAllConfig(one.config, projects[1..], net, one.next);
        AfterRewritesAppend(config, calls, Performed(one.config, projects[1..], net, one.next));
      }
    }
  }

  /** A comprehension that completes had its first rewrite succeed. */
  lemma {:induction false} SubmitAllFirstRewrite(config: Json, projects: seq<Json>, net: seq<Reply>, pos: nat)
    requires SubmitAll(config, projects, net, pos).value.Ok?
    requires Performed(config, projects, net, pos) != []
    ensures RewriteSucceeds(config, Performed(config, projects, net, pos)[0].types)
    decreases |projects|
  {
    var one := SubmitOne(config, projects[0], net, pos);
    ProcessSpecRewrite(config, projects[0], net, pos);
    if RewriteOf(projects[0]).None? {
      assert one.config == config && one.value.Ok?;
      SubmitAllFirstRewrite(config, projects[1..], net, one.next);
    }
  }

  /**
   * The configuration after `init_call`'s comprehension, for a run that
   * completes: untouched when no project was rewritten; otherwise rewritten
   * once with the last project's id and geometry and the names every
   * rewrite asked for, so each category keeps only the keys in the
   * original ∩ T1 ∩ … ∩ Tk.
   */
  lemma SubmitAllNarrows(config: Json, projects: seq<Json>, net: seq<Reply>, pos: nat)
    ensures var o := SubmitAll(config, projects, net, pos); var rs := Performed(config, projects, net, pos);
      o.value.Ok? && rs == [] ==> o.config == config
    ensures var o := SubmitAll(config, projects, net, pos); var rs := Performed(config, projects, net, pos);
      o.value.Ok? && rs != [] ==>
        RewriteSucceeds(config, Meet(rs)) &&
        o.config == AfterRewrite(config, rs[|rs| - 1].projectId, Meet(rs), rs[|rs| - 1].geometry) &&
        CategoriesOf(o.config.fields) == JArr(RestrictAll(CategoriesOf(config.fields), Meet(rs)).value)
  {
    var o := SubmitAll(config, projects, net, pos);
    var rs := Performed(config, projects, net, pos);
    SubmitAllConfig(config, projects, net, pos);
    if o.value.Ok? && rs != [] {
      SubmitAllFirstRewrite(config, projects, net, pos);
      RewritesNarrow(config, rs);
    }
  }

  /** Every submission reads at least one reply. */
  lemma {:induction false} SubmitAdvances(net: seq<Reply>, pos: nat)
    ensures SubmitFrom(net, pos).next > pos
    decreases |net| - pos
  {
    if At(net, pos).HttpError? && At(net, pos).status == 429 {
      SubmitAdvances(net, pos + 1);
    }
  }

  /** The processor object: the configuration it loaded, rewritten by every call. */
  /**
   * The rewrite in the order the method performs it: rename, then restrict
   * the categories (which the renaming does not touch), then write them back
   * with the geometry.
   */
  lemma RewriteSteps(config: Json, projectId: Json, types: set<string>, geometry: Json)
    requires DatasetReady(config)
    ensures var renamed := Renamed(config, projectId);
      var restricted := RestrictAll(CategoriesOf(renamed.fields), types);
      renamed.JObj? &&
      (RewriteSucceeds(config, types) <==> restricted.Some?) &&
      AfterRewrite(config, projectId, types, geometry) ==
        if restricted.None? then renamed
        else JObj(renamed.fields["categories" := JArr(restricted.value)]["geometry" := geometry])
  {
    assert CategoriesOf(Renamed(config, projectId).fields) == CategoriesOf(config.fields);
  }

  /** A dict key that contains a requested name makes the comprehension over the dict raise. */
  lemma KeyRaises(fields: map<string, Json>, types: set<string>, key: string)
    requires key in fields && exists t :: t in types && Contains(key, t)
    ensures RestrictAll(JObj(fields), types) == None
  {
  }

  /** One `{}` per key, when no key contains a requested name, is what the comprehension over the dict gives. */
  lemma KeysEmptied(fields: map<string, Json>, types: set<string>, restricted: seq<Json>)
    requires |restricted| == |fields|
    requires forall j :: 0 <= j < |restricted| ==> restricted[j] == JObj(map[])
    requires forall k, t :: k in fields && t in types ==> !Contains(k, t)
    ensures RestrictAll(JObj(fields), types) == Some(restricted)
  {
    assert restricted == seq(|fields|, i => JObj(map[]));
  }

  class LegacyProcessor {
    var config: Json

    constructor(config: Json)
      ensures this.config == config
    {
      this.config := config;
    }

    /**
     * `generate_filtered_config`: renames the dataset, restricts the
     * categories and replaces the geometry of `config` in place, and returns
     * the configuration (the value `json.dumps` would render).
     */
    method GenerateFilteredConfig(projectId: Json, mappingTypes: seq<string>, geometry: Json) returns (r: Result<Json>)
      modifies this
      ensures config == AfterRewrite(old(config), projectId, (set k | k in mappingTypes), geometry)
      ensures r.Ok? <==> RewriteSucceeds(old(config), (set k | k in mappingTypes))
      ensures r.Ok? ==> r.value == config
    {
      ghost var types := set k | k in mappingTypes;
      if !DatasetReady(config) {
        return Err("KeyError or TypeError on the configuration");
      }
      var renamed := Renamed(config, projectId);
      config := renamed;
      var restricted := RestrictCategories(CategoriesOf(renamed.fields), mappingTypes);
      RewriteSteps(old(config), projectId, types, geometry);
      if restricted.None? {
        return Err("TypeError on a category");
      }
      config := JObj(renamed.fields["categories" := JArr(restricted.value)]["geometry" := geometry]);
      r := Ok(config);
    }

    /** The outer comprehension over whatever `self.config.get("categories", [])` is. */
    static method RestrictCategories(categories: Json, mappingTypes: seq<string>) returns (r: Option<seq<Json>>)
      ensures r == RestrictAll(categories, set k | k in mappingTypes)
    {
      match categories
      case JObj(fields) => r := RestrictKeys(fields, mappingTypes);
      case JArr(items) => r := RestrictEntries(items, mappingTypes);
      case JStr(text) => r := RestrictEntries(Chars(text), mappingTypes);
      case _ => r := None;
    }

    /** The outer comprehension over the entries of a list (or the characters of a string). */
    static method RestrictEntries(entries: seq<Json>, mappingTypes: seq<string>) returns (r: Option<seq<Json>>)
      ensures r == RestrictItems(entries, set k | k in mappingTypes)
    {
      ghost var types := set k | k in mappingTypes;
      var restricted: seq<Json> := [];
      var i := 0;
      while i < |entries|
        invariant 0 <= i <= |entries|
        invariant |restricted| == i
        invariant forall j :: 0 <= j < i ==>
          RestrictEntry(entries[j], types).Some? && restricted[j] == RestrictEntry(entries[j], types).value
      {
        var entry := RestrictCategory(entries[i], mappingTypes);
        if entry.None? {
          return None;
        }
        restricted := restricted + [entry.value];
        i := i + 1;
      }
      assert RestrictItems(entries, types).Some?;
      assert restricted == RestrictItems(entries, types).value;
      r := Some(restricted);
    }

    /**
     * The outer comprehension over a dict: one entry per key, each key a
     * string restricted like any other entry, visited in an order the model
     * leaves open.
     */
    static method RestrictKeys(fields: map<string, Json>, mappingTypes: seq<string>) returns (r: Option<seq<Json>>)
      ensures r == RestrictAll(JObj(fields), set k | k in mappingTypes)
    {
      ghost var types := set k | k in mappingTypes;
      var restricted: seq<Json> := [];
      var done: set<string> := {};
      var remaining := fields.Keys;
      while remaining != {}
        invariant done + remaining == fields.Keys && done !! remaining
        invariant |restricted| == |done|
        invariant forall j :: 0 <= j < |restricted| ==> restricted[j] == JObj(map[])
        invariant forall k, t :: k in done && t in types ==> !Contains(k, t)
        decreases remaining
      {
        var key :| key in remaining;
        var entry := RestrictCategory(JStr(key), mappingTypes);
        TextEntry(key, types);
        if entry.None? {
          KeyRaises(fields, types, key);
          return None;
        }
        restricted := restricted + [entry.value];
        assert |done + {key}| == |done| + 1;
        done, remaining := done + {key}, remaining - {key};
      }
      KeysEmptied(fields, types, restricted);
      r := Some(restricted);
    }

    /**
     * The inner comprehension `{key: category[key] for key in mapping_types
     * if key in category}` on one entry, or `None` when it raises.
     */
    static method RestrictCategory(category: Json, mappingTypes: seq<string>) returns (r: Option<Json>)
      ensures r == RestrictEntry(category, set k | k in mappingTypes)
    {
      var kept: map<string, Json> := map[];
      var k := 0;
      while k < |mappingTypes|
        invariant 0 <= k <= |mappingTypes|
        invariant forall j :: 0 <= j < k ==> !Probe(category, mappingTypes[j]).Raises?
        invariant kept == map t | t in mappingTypes[..k] && Probe(category, t).Present? :: Probe(category, t).value
      {
        var name := mappingTypes[k];
        assert mappingTypes[..k + 1] == mappingTypes[..k] + [name];
        var probe := Probe(category, name);
        if probe.Raises? {
          assert name in set k | k in mappingTypes;
          return None;
        }
        if probe.Present? {
          kept := kept[name := probe.value];
        }
        k := k + 1;
      }
      assert mappingTypes[..k] == mappingTypes;
      ghost var types := set k | k in mappingTypes;
      if category.JObj? {
        assert kept == Restricted(category.fields, types);
      } else {
        assert kept == map[];
      }
      r := Some(JObj(kept));
    }

    /** The `mapping_types` comprehension of `process_project`. */
    static method NormalizeTokens(tokens: seq<Json>) returns (r: Result<seq<string>>)
      ensures r == NormalizedAll(tokens)
    {
      var types: seq<string> := [];
      var i := 0;
      while i < |tokens|
        invariant 0 <= i <= |tokens|
        invariant NormalizedAll(tokens[..i]) == Ok(types)
      {
        assert tokens[..i + 1][..i] == tokens[..i];
        var name := LegacyNormalize(tokens[i]);
        if name.Err? {
          assert NormalizedAll(tokens[..i + 1]).Err?;
          r := Err(name.error);
          NormalizedErrorSticks(tokens, i + 1);
          return;
        }
        if name.value.Some? {
          types := types + [name.value.value];
        }
        i := i + 1;
      }
      assert tokens[..i] == tokens;
      r := Ok(types);
    }

    /** `process_project(project)`. */
    method ProcessProject(project: Json, net: seq<Reply>, pos: nat) returns (run: Run<Result<Json>>)
      modifies this
      ensures ProcessSpec(old(config), project, net, pos) == Outcome(run.value, config, run.next, run.waits)
    {
      if !Indexable(project) {
        return Run(Err("KeyError or TypeError on the project"), pos, []);
      }
      var geometry := project.fields["geometry"];
      var props := project.fields["properties"].fields;
      var projectId := GetOr(props, "project_id", JNull);
      var tokens := Tokens(GetOr(props, "mapping_types", JNull));
      if tokens.Err? {
        return Run(Err(tokens.error), pos, []);
      }
      var types := NormalizeTokens(tokens.value);
      if types.Err? {
        return Run(Err(types.error), pos, []);
      }
      if |types.value| == 0 {
        return Run(Ok(JNull), pos, []);
      }
      var request := GenerateFilteredConfig(projectId, types.value, geometry);
      if request.Err? {
        return Run(Err("KeyError or TypeError on the configuration"), pos, []);
      }
      run := SubmitFrom(net, pos);
    }

    /** The lookup loop of `init_call`: one feature per requested id. */
    static method FetchProjects(projects: seq<Json>, net: seq<Reply>) returns (run: Run<Result<seq<Json>>>)
      ensures run == FetchAll(projects, net, 0)
    {
      var all: seq<Json> := [];
      var i := 0;
      assert projects[0..] == projects;
      PrefixedByNothing(FetchAll(projects, net, 0));
      while i < |projects|
        invariant 0 <= i <= |projects|
        invariant FetchAll(projects, net, 0) == PrefixedBy(all, FetchAll(projects[i..], net, i))
      {
        assert projects[i..][1..] == projects[i + 1..];
        var feature := DetailsOf(At(net, i), projects[i]);
        if feature.Err? {
          return Run(Err(feature.error), i + 1, []);
        }
        PrefixedTwice(all, [feature.value], FetchAll(projects[i + 1..], net, i + 1));
        all := all + [feature.value];
        i := i + 1;
      }
      assert all + [] == all;
      run := Run(Ok(all), i, []);
    }

    /** One project of the comprehension: `process_project` once, and again when it yields an id. */
    method SubmitProject(project: Json, net: seq<Reply>, pos: nat) returns (run: Run<Result<seq<Json>>>)
      modifies this
      ensures SubmitOne(old(config), project, net, pos) == Outcome(run.value, config, run.next, run.waits)
    {
      var first := ProcessProject(project, net, pos);
      if first.value.Err? {
        return Run(Err(first.value.error), first.next, first.waits);
      }
      if first.value.value == JNull {
        return Run(Ok([]), first.next, first.waits);
      }
      var second := ProcessProject(project, net, first.next);
      if second.value.Err? {
        return Run(Err(second.value.error), second.next, first.waits + second.waits);
      }
      run := Run(Ok([second.value.value]), second.next, first.waits + second.waits);
    }

    /** The double-calling comprehension of `init_call`. */
    method SubmitProjects(all: seq<Json>, net: seq<Reply>, pos: nat) returns (run: Run<Result<seq<Json>>>)
      modifies this
      ensures SubmitAll(old(config), all, net, pos) == Outcome(run.value, config, run.next, run.waits)
    {
      var ids: seq<Json> := [];
      var waits: seq<int> := [];
      var p := pos;
      var j := 0;
      assert all[0..] == all;
      CombinedNothing(SubmitAll(config, all, net, pos));
      while j < |all|
        invariant 0 <= j <= |all|
        invariant SubmitAll(old(config), all, net, pos) == Combined(ids, waits, SubmitAll(config, all[j..], net, p))
      {
        assert all[j..][1..] == all[j + 1..];
        var one := SubmitProject(all[j], net, p);
        if one.value.Err? {
          return Run(Err(one.value.error), one.next, waits + one.waits);
        }
        CombinedTwice(ids, one.value.value, waits, one.waits, SubmitAll(config, all[j + 1..], net, one.next));
        ids, p, waits := ids + one.value.value, one.next, waits + one.waits;
        j := j + 1;
      }
      assert ids + [] == ids && waits + [] == waits;
      run := Run(Ok(ids), p, waits);
    }

    /** `init_call(projects, fetch_active_projects)`. */
    method InitCall(projects: seq<Json>, fetchActive: bool, net: seq<Reply>) returns (run: Run<Result<seq<Json>>>)
      modifies this
      ensures InitSpec(old(config), projects, fetchActive, net) == Outcome(run.value, config, run.next, run.waits)
    {
      var byId := FetchProjects(projects, net);
      if byId.value.Err? {
        return Run(Err(byId.value.error), byId.next, []);
      }
      var all := byId.value.value;
      var p := byId.next;
      if fetchActive {
        var features := ActiveOf(At(net, p));
        p := p + 1;
        if features.Err? {
          return Run(Err(features.error), p, []);
        }
        var extra := Extension(features.value);
        if extra.Err? {
          return Run(Err(extra.error), p, []);
        }
        all := all + extra.value;
      } else {
        assert all + [] == all;
      }
      run := SubmitProjects(all, net, p);
    }
  }

  /** A list result preceded by `items`; an exception passes through. */
  function PrefixedBy(items: seq<Json>, run: Run<Result<seq<Json>>>): Run<Result<seq<Json>>>
  {
    if run.value.Err? then run else Run(Ok(items + run.value.value), run.next, run.waits)
  }

  lemma PrefixedByNothing(run: Run<Result<seq<Json>>>)
    ensures PrefixedBy([], run) == run
  {
    if run.value.Ok? {
      assert [] + run.value.value == run.value.value;
    }
  }

  lemma PrefixedTwice(a: seq<Json>, b: seq<Json>, run: Run<Result<seq<Json>>>)
    ensures PrefixedBy(a, PrefixedBy(b, run)) == PrefixedBy(a + b, run)
  {
    if run.value.Ok? {
      assert a + (b + run.value.value) == (a + b) + run.value.value;
    }
  }

  /** An outcome preceded by the kept ids `ids` and the sleeps `ws`. */
  function Combined(ids: seq<Json>, ws: seq<int>, o: Outcome<seq<Json>>): Outcome<seq<Json>>
  {
    Outcome(if o.value.Err? then o.value else Ok(ids + o.value.value), o.config, o.next, ws + o.waits)
  }

  lemma CombinedNothing(o: Outcome<seq<Json>>)
    ensures Combined([], [], o) == o
  {
    assert [] + o.waits == o.waits;
    if o.value.Ok? {
      assert [] + o.value.value == o.value.value;
    }
  }

  lemma CombinedTwice(a: seq<Json>, b: seq<Json>, v: seq<int>, w: seq<int>, o: Outcome<seq<Json>>)
    ensures Combined(a, v, Combined(b, w, o)) == Combined(a + b, v + w, o)
  {
    assert v + (w + o.waits) == (v + w) + o.waits;
    if o.value.Ok? {
      assert a + (b + o.value.value) == (a + b) + o.value.value;
    }
  }

  /** Once the normalising loop raises, the whole list raises. */
  lemma {:induction false} NormalizedErrorSticks(tokens: seq<Json>, n: nat)
    requires n <= |tokens| && NormalizedAll(tokens[..n]).Err?
    ensures NormalizedAll(tokens) == NormalizedAll(tokens[..n])
    decreases |tokens| - n
  {
    if n < |tokens| {
      assert tokens[..n + 1][..n] == tokens[..n];
      NormalizedErrorSticks(tokens, n + 1);
    } else {
      assert tokens[..n] == tokens;
    }
  }
}
