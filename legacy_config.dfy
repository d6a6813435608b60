/**
 * The earlier revision's `generate_filtered_config`, as a function of the
 * processor's configuration: it overwrites the dataset prefix and title,
 * restricts every template category to the requested names, and replaces
 * the geometry, all in the one configuration object the processor keeps.
 * Because the restricted categories are written back, every later call
 * filters what earlier calls left.
 */
module LegacyConfig {
  import opened Values
  import opened ConfigBuilder

  /** `{key: category[key] for key in mapping_types if key in category}` */
  function Restricted(category: map<string, Json>, types: set<string>): (r: map<string, Json>)
    ensures r.Keys == category.Keys * types
    ensures forall k :: k in r ==> r[k] == category[k]
  {
    map k | k in category && k in types :: category[k]
  }

  /**
   * The inner comprehension on one entry of the category list: a dict keeps
   * its requested keys; any other entry yields `{}`, unless `key in
   * category` or `category[key]` raises for some requested name.
   */
  function RestrictEntry(category: Json, types: set<string>): (r: Option<Json>)
    ensures r.Some? <==> forall k :: k in types ==> !Probe(category, k).Raises?
    ensures r.Some? && category.JObj? ==> r.value == JObj(Restricted(category.fields, types))
    ensures r.Some? && !category.JObj? ==> r.value == JObj(map[])
    ensures r.Some? ==> r.value.JObj? && r.value.fields.Keys <= types
  {
    if exists k :: k in types && Probe(category, k).Raises? then None
    else if category.JObj? then Some(JObj(Restricted(category.fields, types)))
    else Some(JObj(map[]))
  }

  /** A text entry (a character, or a key of a dict) is emptied, unless it holds a requested name. */
  lemma TextEntry(s: string, types: set<string>)
    ensures RestrictEntry(JStr(s), types).Some? <==> forall t :: t in types ==> !Contains(s, t)
    ensures RestrictEntry(JStr(s), types).Some? ==> RestrictEntry(JStr(s), types).value == JObj(map[])
  {
    assert forall t :: Probe(JStr(s), t).Raises? <==> Contains(s, t);
  }

  /** The outer comprehension over a list of entries; the first entry that raises ends it. */
  function RestrictItems(items: seq<Json>, types: set<string>): (r: Option<seq<Json>>)
    ensures r.Some? <==> forall i :: 0 <= i < |items| ==> RestrictEntry(items[i], types).Some?
    ensures r.Some? ==> |r.value| == |items|
    ensures r.Some? ==> forall i :: 0 <= i < |items| ==> r.value[i] == RestrictEntry(items[i], types).value
  {
    if forall i :: 0 <= i < |items| ==> RestrictEntry(items[i], types).Some?
    then Some(seq(|items|, i requires 0 <= i < |items| => RestrictEntry(items[i], types).value))
    else None
  }

  /**
   * `[... for category in self.config.get("categories", [])]` for whatever
   * the categories are: a list entry by entry, a string character by
   * character; a dict is iterated over its keys, all strings, so the result
   * is one `{}` per key (whichever order Python visits them in) unless a
   * key holds a requested name; any other value cannot be iterated.
   */
  function RestrictAll(categories: Json, types: set<string>): (r: Option<seq<Json>>)
    ensures categories.JArr? ==> r == RestrictItems(categories.items, types)
    ensures !(categories.JArr? || categories.JStr? || categories.JObj?) ==> r.None?
    ensures r.Some? ==> forall i :: 0 <= i < |r.value| ==> r.value[i].JObj? && r.value[i].fields.Keys <= types
  {
    match categories
    case JArr(items) => RestrictItems(items, types)
    case JStr(s) => RestrictItems(Chars(s), types)
    case JObj(fields) =>
      if exists k, t :: k in fields && t in types && Contains(k, t) then None
      else Some(seq(|fields|, i => JObj(map[])))
    case _ => None
  }

  /** A text category that does not mention a requested name becomes `{}`; the dict after it is restricted. */
  lemma TextCategoryEmptied(v: Json)
    ensures RestrictAll(JArr([JStr("notes"), JObj(map["Roads" := v])]), {"Roads"})
      == Some([JObj(map[]), JObj(map["Roads" := v])])
  {
    assert "notes"[..5][0] != "Roads"[0];
    assert !Contains("notes"[1..], "Roads");
    TextEntry("notes", {"Roads"});
    var items := [JStr("notes"), JObj(map["Roads" := v])];
    assert Restricted(map["Roads" := v], {"Roads"}) == map["Roads" := v];
    assert RestrictEntry(items[0], {"Roads"}) == Some(JObj(map[]));
    assert RestrictEntry(items[1], {"Roads"}) == Some(JObj(map["Roads" := v]));
    var r := RestrictItems(items, {"Roads"});
    assert r.Some? && |r.value| == 2;
    assert r.value == [JObj(map[]), JObj(map["Roads" := v])];
  }

  /** The two dataset assignments succeed: the configuration and its `dataset` are objects. */
  predicate DatasetReady(config: Json)
  {
    config.JObj? && "dataset" in config.fields && config.fields["dataset"].JObj?
  }

  /** The whole rewrite succeeds. */
  predicate RewriteSucceeds(config: Json, types: set<string>)
  {
    DatasetReady(config) && RestrictAll(CategoriesOf(config.fields), types).Some?
  }

  /** The configuration with its dataset prefix and title set for `projectId`. */
  function Renamed(config: Json, projectId: Json): Json
    requires DatasetReady(config)
  {
    var dataset := config.fields["dataset"].fields
      ["dataset_prefix" := JStr(DatasetPrefix(projectId))]
      ["dataset_title" := JStr(DatasetTitle(projectId))];
    JObj(config.fields["dataset" := JObj(dataset)])
  }

  /**
   * The configuration after a call, whether or not the call raised: a
   * failure in the categories comes after the dataset has been renamed.
   */
  function AfterRewrite(config: Json, projectId: Json, types: set<string>, geometry: Json): Json
  {
    if !DatasetReady(config) then config
    else
      var renamed := Renamed(config, projectId);
      if !RewriteSucceeds(config, types) then renamed
      else
        var categories := RestrictAll(CategoriesOf(config.fields), types).value;
        JObj(renamed.fields["categories" := JArr(categories)]["geometry" := geometry])
  }

  /** Keys of a twice-restricted category are those of the intersection of both type sets. */
  lemma RestrictedTwice(category: map<string, Json>, t1: set<string>, t2: set<string>)
    ensures Restricted(Restricted(category, t1), t2) == Restricted(category, t1 * t2)
  {
  }

  /**
   * What a successful rewrite leaves: the dataset renamed, the geometry
   * replaced, the categories restricted (each now a dict holding requested
   * names only), and every other key as it was.
   */
  lemma RewriteResult(config: Json, projectId: Json, types: set<string>, geometry: Json)
    requires RewriteSucceeds(config, types)
    ensures var c := AfterRewrite(config, projectId, types, geometry);
      c.JObj? && c.fields.Keys == config.fields.Keys + {"categories", "geometry"} &&
      c.fields["geometry"] == geometry &&
      c.fields["dataset"] == JObj(config.fields["dataset"].fields
        ["dataset_prefix" := JStr(DatasetPrefix(projectId))]["dataset_title" := JStr(DatasetTitle(projectId))]) &&
      (forall k :: k in config.fields && k !in {"dataset", "categories", "geometry"} ==> c.fields[k] == config.fields[k]) &&
      c.fields["categories"] == JArr(RestrictAll(CategoriesOf(config.fields), types).value) &&
      forall e :: e in c.fields["categories"].items ==> e.JObj? && e.fields.Keys <= types
  {
  }

  /** A list of dicts is restricted dict by dict, keeping its length and order. */
  lemma RestrictDicts(items: seq<Json>, types: set<string>)
    requires forall i :: 0 <= i < |items| ==> items[i].JObj?
    ensures RestrictAll(JArr(items), types).Some?
    ensures |RestrictAll(JArr(items), types).value| == |items|
    ensures forall i :: 0 <= i < |items| ==>
      RestrictAll(JArr(items), types).value[i] == JObj(Restricted(items[i].fields, types))
  {
    forall i | 0 <= i < |items| ensures RestrictEntry(items[i], types).Some? {
      assert forall k :: k in types ==> !Probe(items[i], k).Raises?;
    }
  }

  /** Restricting one entry twice is restricting it once to both type sets. */
  lemma RestrictEntryTwice(category: Json, t1: set<string>, t2: set<string>)
    requires RestrictEntry(category, t1).Some?
    ensures RestrictEntry(RestrictEntry(category, t1).value, t2) == RestrictEntry(category, t1 * t2)
  {
    var once := RestrictEntry(category, t1).value;
    assert forall k :: k in t2 ==> !Probe(once, k).Raises?;
    assert forall k :: k in t1 * t2 ==> !Probe(category, k).Raises?;
    if category.JObj? {
      RestrictedTwice(category.fields, t1, t2);
    } else {
      assert Restricted(map[], t2) == map[];
    }
  }

  lemma RestrictItemsTwice(items: seq<Json>, t1: set<string>, t2: set<string>)
    requires RestrictItems(items, t1).Some?
    ensures RestrictItems(RestrictItems(items, t1).value, t2) == RestrictItems(items, t1 * t2)
  {
    var once := RestrictItems(items, t1).value;
    forall i | 0 <= i < |items|
      ensures RestrictEntry(once[i], t2) == RestrictEntry(items[i], t1 * t2)
      ensures RestrictEntry(once[i], t2).Some?
    {
      RestrictEntryTwice(items[i], t1, t2);
    }
    var twice := RestrictItems(once, t2);
    var both := RestrictItems(items, t1 * t2);
    assert twice.Some? && both.Some?;
    assert twice.value == both.value;
  }

  /** Restricting every category twice is restricting it once to both type sets. */
  lemma RestrictAllTwice(categories: Json, t1: set<string>, t2: set<string>)
    requires RestrictAll(categories, t1).Some?
    ensures RestrictAll(JArr(RestrictAll(categories, t1).value), t2) == RestrictAll(categories, t1 * t2)
  {
    match categories
    case JArr(items) => RestrictItemsTwice(items, t1, t2);
    case JStr(s) => RestrictItemsTwice(Chars(s), t1, t2);
    case JObj(fields) =>
      var once := RestrictAll(categories, t1).value;
      assert !exists k, t :: k in fields && t in t1 * t2 && Contains(k, t);
      RestrictDicts(once, t2);
      var twice := RestrictAll(JArr(once), t2).value;
      var both := RestrictAll(categories, t1 * t2).value;
      assert both == seq(|fields|, i => JObj(map[]));
      assert |once| == |fields| && forall i :: 0 <= i < |once| ==> once[i] == JObj(map[]);
      forall i | 0 <= i < |once| ensures twice[i] == both[i] {
        assert Restricted(map[], t2) == map[];
      }
      assert twice == both;
  }

  /** After a successful rewrite the categories are the restricted ones, and any later rewrite succeeds. */
  lemma RewriteCategories(config: Json, p1: Json, t1: set<string>, g1: Json, t2: set<string>)
    requires RewriteSucceeds(config, t1)
    ensures var c1 := AfterRewrite(config, p1, t1, g1);
      CategoriesOf(c1.fields) == JArr(RestrictAll(CategoriesOf(config.fields), t1).value) &&
      RewriteSucceeds(c1, t2)
  {
    var once := RestrictAll(CategoriesOf(config.fields), t1).value;
    RestrictDicts(once, t2);
  }

  /**
   * Calls accumulate: after a successful rewrite with `t1`, a rewrite with
   * `t2` succeeds too and leaves what a single rewrite with `t1 * t2` would.
   */
  lemma RewritesAccumulate(config: Json, p1: Json, t1: set<string>, g1: Json, p2: Json, t2: set<string>, g2: Json)
    requires RewriteSucceeds(config, t1)
    ensures RewriteSucceeds(AfterRewrite(config, p1, t1, g1), t2)
    ensures AfterRewrite(AfterRewrite(config, p1, t1, g1), p2, t2, g2) == AfterRewrite(config, p2, t1 * t2, g2)
  {
    var c1 := AfterRewrite(config, p1, t1, g1);
    var cats := CategoriesOf(config.fields);
    RewriteCategories(config, p1, t1, g1, t2);
    RestrictAllTwice(cats, t1, t2);
    var both := JArr(RestrictAll(cats, t1 * t2).value);
    var d2 := JObj(config.fields["dataset"].fields
      ["dataset_prefix" := JStr(DatasetPrefix(p2))]["dataset_title" := JStr(DatasetTitle(p2))]);
    RenamedTwice(config, c1, p2, JStr(DatasetPrefix(p1)), JStr(DatasetTitle(p1)));
    OverwriteThree(c1.fields, config.fields, d2, both, g2);
  }

  /** Renaming a rewritten configuration renames its dataset as if it had not been rewritten. */
  lemma RenamedTwice(config: Json, c1: Json, p2: Json, prefix: Json, title: Json)
    requires DatasetReady(config) && DatasetReady(c1)
    requires c1.fields["dataset"].fields == config.fields["dataset"].fields["dataset_prefix" := prefix]["dataset_title" := title]
    ensures Renamed(c1, p2).fields["dataset"] == Renamed(config, p2).fields["dataset"]
  {
    var d := config.fields["dataset"].fields;
    var d1 := c1.fields["dataset"].fields;
    assert d1["dataset_prefix" := JStr(DatasetPrefix(p2))]["dataset_title" := JStr(DatasetTitle(p2))]
        == d["dataset_prefix" := JStr(DatasetPrefix(p2))]["dataset_title" := JStr(DatasetTitle(p2))];
  }

  /** Overwriting the three rewritten keys hides whatever they held before. */
  lemma OverwriteThree(m1: map<string, Json>, m: map<string, Json>, d: Json, cats: Json, geometry: Json)
    requires forall k :: k !in {"dataset", "categories", "geometry"} ==> (k in m1 <==> k in m)
    requires forall k :: k in m && k !in {"dataset", "categories", "geometry"} ==> m1[k] == m[k]
    ensures m1["dataset" := d]["categories" := cats]["geometry" := geometry]
         == m["dataset" := d]["categories" := cats]["geometry" := geometry]
  {
  }

  /** Repeating a call with the same arguments changes nothing more. */
  lemma RewriteIdempotent(config: Json, projectId: Json, types: set<string>, geometry: Json)
    requires RewriteSucceeds(config, types)
    ensures var c := AfterRewrite(config, projectId, types, geometry);
      AfterRewrite(c, projectId, types, geometry) == c
  {
    RewritesAccumulate(config, projectId, types, geometry, projectId, types, geometry);
    assert types * types == types;
  }

  /** A configuration that cannot be renamed is left untouched. */
  lemma FailedRenameKeepsConfig(config: Json, projectId: Json, types: set<string>, geometry: Json)
    requires !DatasetReady(config)
    ensures AfterRewrite(config, projectId, types, geometry) == config
  {
  }

  /** One call of `generate_filtered_config`: the project id, the requested names and the geometry. */
  datatype Rewrite = Rewrite(projectId: Json, types: set<string>, geometry: Json)

  /** The configuration after the calls `rs`, one after another, each on what the previous left. */
  function AfterRewrites(config: Json, rs: seq<Rewrite>): Json
    decreases |rs|
  {
    if rs == [] then config
    else AfterRewrites(AfterRewrite(config, rs[0].projectId, rs[0].types, rs[0].geometry), rs[1..])
  }

  /** The names requested by every one of the calls `rs`. */
  function Meet(rs: seq<Rewrite>): (r: set<string>)
    requires rs != []
    decreases |rs|
  {
    if |rs| == 1 then rs[0].types else rs[0].types * Meet(rs[1..])
  }

  /** A name survives every call exactly when every call requested it. */
  lemma {:induction false} MeetMembers(rs: seq<Rewrite>, t: string)
    requires rs != []
    ensures t in Meet(rs) <==> forall i :: 0 <= i < |rs| ==> t in rs[i].types
    decreases |rs|
  {
    if |rs| > 1 {
      MeetMembers(rs[1..], t);
      assert forall i :: 1 <= i < |rs| ==> rs[i] == rs[1..][i - 1];
    }
  }

  lemma {:induction false} AfterRewritesAppend(config: Json, a: seq<Rewrite>, b: seq<Rewrite>)
    ensures AfterRewrites(config, a + b) == AfterRewrites(AfterRewrites(config, a), b)
    decreases |a|
  {
    if a == [] {
      assert a + b == b;
    } else {
      assert (a + b)[1..] == a[1..] + b;
      AfterRewritesAppend(AfterRewrite(config, a[0].projectId, a[0].types, a[0].geometry), a[1..], b);
    }
  }

  /**
   * Calls on the one configuration narrow it for good: once the first call
   * succeeds, the configuration after any number of calls is what a single
   * call with the last project's id and geometry would leave when it asked
   * only for the names every call asked for; in particular each category
   * keeps only the keys in the original ∩ T1 ∩ … ∩ Tk.
   */
  lemma {:induction false} RewritesNarrow(config: Json, rs: seq<Rewrite>)
    requires rs != [] && RewriteSucceeds(config, rs[0].types)
    ensures RewriteSucceeds(config, Meet(rs))
    ensures AfterRewrites(config, rs) == AfterRewrite(config, rs[|rs| - 1].projectId, Meet(rs), rs[|rs| - 1].geometry)
    ensures CategoriesOf(AfterRewrites(config, rs).fields) == JArr(RestrictAll(CategoriesOf(config.fields), Meet(rs)).value)
    decreases |rs|
  {
    var r0 := rs[0];
    var c1 := AfterRewrite(config, r0.projectId, r0.types, r0.geometry);
    if |rs| > 1 {
      var rest := rs[1..];
      var last := rs[|rs| - 1];
      assert rest[|rest| - 1] == last;
      RewritesAccumulate(config, r0.projectId, r0.types, r0.geometry, rest[0].projectId, rest[0].types, rest[0].geometry);
      RewritesNarrow(c1, rest);
      RewritesAccumulate(config, r0.projectId, r0.types, r0.geometry, last.projectId, Meet(rest), last.geometry);
      var cats := CategoriesOf(config.fields);
      RestrictAllTwice(cats, r0.types, Meet(rest));
      RestrictDicts(RestrictAll(cats, r0.types).value, Meet(rest));
    }
    RewriteCategories(config, rs[|rs| - 1].projectId, Meet(rs), rs[|rs| - 1].geometry, {});
  }
}
