/**
 * The current revision's request-config builder (`generate_filtered_config`):
 * a fresh copy of the extraction template with the dataset prefix and title
 * naming the project, the categories narrowed to the requested mapping
 * types, and the project's geometry attached.
 */
module ConfigBuilder {
  import opened Values

  /** `f"hotosm_project_{project_id}"` */
  function DatasetPrefix(projectId: Json): string
  {
    "hotosm_project_" + Str(projectId)
  }

  /** `f"Tasking Manger Project {project_id}"` (the spelling is the source's). */
  function DatasetTitle(projectId: Json): string
  {
    "Tasking Manger Project " + Str(projectId)
  }

  /** `config_temp.get("categories", [])` on the template's fields. */
  function CategoriesOf(fields: map<string, Json>): (r: Json)
    ensures "categories" !in fields ==> r == JArr([])
    ensures "categories" in fields ==> r == fields["categories"]
  {
    GetOr(fields, "categories", JArr([]))
  }

  /** Every entry before the `i`-th one fails `key in category` without raising. */
  predicate SkippedBefore(entries: seq<Json>, key: string, i: int)
  {
    forall j :: 0 <= j < i && j < |entries| ==> Probe(entries[j], key).Absent?
  }

  /**
   * `extract_values` over the entries of a list: the first entry for which
   * `key in category` holds gives `category[key]`; an entry on which the
   * test or the indexing raises ends the scan with that exception.
   */
  function FirstMatch(entries: seq<Json>, key: string): (r: Lookup)
    ensures r.Absent? <==> forall i :: 0 <= i < |entries| ==> Probe(entries[i], key).Absent?
    ensures !r.Absent? ==> exists i :: 0 <= i < |entries| && Probe(entries[i], key) == r && SkippedBefore(entries, key, i)
    decreases |entries|
  {
    if entries == [] then Absent
    else match Probe(entries[0], key)
      case Absent =>
        var rest := FirstMatch(entries[1..], key);
        assert forall j :: 1 <= j < |entries| ==> entries[j] == entries[1..][j - 1];
        assert !rest.Absent? ==> exists i :: 0 <= i < |entries| && Probe(entries[i], key) == rest && SkippedBefore(entries, key, i) by {
          if !rest.Absent? {
            var i :| 0 <= i < |entries[1..]| && Probe(entries[1..][i], key) == rest && SkippedBefore(entries[1..], key, i);
            assert Probe(entries[i + 1], key) == rest;
          }
        }
        rest
      case other => other
  }

  /** The scan stops at the first entry that does not skip the key. */
  lemma {:induction false} FirstMatchIsFirst(entries: seq<Json>, key: string, i: nat)
    requires i < |entries| && !Probe(entries[i], key).Absent?
    requires SkippedBefore(entries, key, i)
    ensures FirstMatch(entries, key) == Probe(entries[i], key)
  {
    if i > 0 {
      FirstMatchIsFirst(entries[1..], key, i - 1);
    }
  }

  /**
   * `extract_values(categories_list, key)` for whatever `categories_list` is:
   * a list is scanned entry by entry, a string character by character; a
   * dict is iterated over its keys, all strings, so the first one holding
   * `key` as a substring raises whichever order Python visits them in; any
   * other value cannot be iterated and raises.
   */
  function Scan(categories: Json, key: string): Lookup
  {
    match categories
    case JArr(items) => FirstMatch(items, key)
    case JStr(s) => FirstMatch(Chars(s), key)
    case JObj(fields) => if exists k :: k in fields && Contains(k, key) then Raises else Absent
    case _ => Raises
  }

  /** Scanning a dict's keys in any order gives what `Scan` says. */
  lemma ScanKeysAnyOrder(fields: map<string, Json>, keys: seq<string>, key: string)
    requires forall i :: 0 <= i < |keys| ==> keys[i] in fields
    requires forall k :: k in fields ==> k in keys
    ensures FirstMatch(seq(|keys|, i requires 0 <= i < |keys| => JStr(keys[i])), key) == Scan(JObj(fields), key)
  {
    var entries := seq(|keys|, i requires 0 <= i < |keys| => JStr(keys[i]));
    var r := FirstMatch(entries, key);
    if exists k :: k in fields && Contains(k, key) {
      var k :| k in fields && Contains(k, key);
      var i :| 0 <= i < |keys| && keys[i] == k;
      assert !Probe(entries[i], key).Absent?;
      assert !r.Absent?;
      var j :| 0 <= j < |entries| && Probe(entries[j], key) == r;
    } else {
      forall i | 0 <= i < |entries| ensures Probe(entries[i], key).Absent? {
        assert keys[i] in fields;
      }
    }
  }

  /**
   * The template can be rewritten for the requested names: it is an object
   * whose `dataset` entry is an object (otherwise the two item assignments
   * raise), and no requested name's scan raises.
   */
  predicate Buildable(template: Json, wanted: set<string>)
  {
    template.JObj? && "dataset" in template.fields && template.fields["dataset"].JObj?
    && forall k :: k in wanted ==> !Scan(CategoriesOf(template.fields), k).Raises?
  }

  /** The value a requested name is given (Python's `None` when no category has it). */
  function FoundValue(categories: Json, key: string): Json
  {
    match Scan(categories, key)
    case Present(v) => v
    case _ => JNull
  }

  /** A requested name is kept when its found value is truthy. */
  predicate Kept(categories: Json, key: string)
  {
    Truthy(FoundValue(categories, key))
  }

  /** The one-key output category `{key: value}` of a kept name. */
  function Entry(categories: Json, key: string): Json
  {
    JObj(map[key := FoundValue(categories, key)])
  }

  /** An output category: the one-key entry of a requested, kept name. */
  predicate IsEntry(e: Json, categories: Json, wanted: set<string>)
  {
    exists k :: k in wanted && Kept(categories, k) && e == Entry(categories, k)
  }

  /**
   * `modified_categories`, order aside: one entry per kept requested name,
   * no entry (and so no name) twice, and every kept requested name present.
   */
  predicate IsSelection(out: seq<Json>, categories: Json, wanted: set<string>)
  {
    (forall i :: 0 <= i < |out| ==> IsEntry(out[i], categories, wanted))
    && (forall i, j :: 0 <= i < j < |out| ==> out[i] != out[j])
    && (forall k :: k in wanted && Kept(categories, k) ==> Entry(categories, k) in out)
  }

  /**
   * The two comprehensions of `generate_filtered_config`: for each requested
   * name (a set, iterated in an order the model leaves open, as Python's set
   * iteration is) look up its first value, and keep `{name: value}` when
   * that value is truthy. A scan that raises ends the whole call.
   */
  method SelectCategories(categories: Json, wanted: set<string>) returns (r: Result<seq<Json>>)
    ensures r.Ok? <==> forall k :: k in wanted ==> !Scan(categories, k).Raises?
    ensures r.Ok? ==> IsSelection(r.value, categories, wanted)
  {
    var remaining := wanted;
    var keys: seq<string> := [];
    while remaining != {}
      invariant remaining <= wanted
      invariant forall k :: k in wanted - remaining ==> !Scan(categories, k).Raises?
      invariant forall i :: 0 <= i < |keys| ==> keys[i] in wanted && keys[i] !in remaining && Kept(categories, keys[i])
      invariant forall i, j :: 0 <= i < j < |keys| ==> keys[i] != keys[j]
      invariant forall k :: k in wanted - remaining && Kept(categories, k) ==> k in keys
      decreases remaining
    {
      var key :| key in remaining;
      remaining := remaining - {key};
      var value := Scan(categories, key);
      if value.Raises? {
        return Err("TypeError while scanning the categories");
      }
      if value.Present? && Truthy(value.value) {
        keys := keys + [key];
      }
    }
    var out := seq(|keys|, i requires 0 <= i < |keys| => Entry(categories, keys[i]));
    EntriesSelect(keys, out, categories, wanted);
    r := Ok(out);
  }

  lemma EntriesSelect(keys: seq<string>, out: seq<Json>, categories: Json, wanted: set<string>)
    requires forall i :: 0 <= i < |keys| ==> keys[i] in wanted && Kept(categories, keys[i])
    requires forall i, j :: 0 <= i < j < |keys| ==> keys[i] != keys[j]
    requires forall k :: k in wanted && Kept(categories, k) ==> k in keys
    requires |out| == |keys|
    requires forall i :: 0 <= i < |keys| ==> out[i] == Entry(categories, keys[i])
    ensures IsSelection(out, categories, wanted)
  {
    EntriesAreEntries(keys, out, categories, wanted);
    EntriesComplete(keys, out, categories, wanted);
  }

  lemma EntriesAreEntries(keys: seq<string>, out: seq<Json>, categories: Json, wanted: set<string>)
    requires forall i :: 0 <= i < |keys| ==> keys[i] in wanted && Kept(categories, keys[i])
    requires forall i, j :: 0 <= i < j < |keys| ==> keys[i] != keys[j]
    requires |out| == |keys|
    requires forall i :: 0 <= i < |keys| ==> out[i] == Entry(categories, keys[i])
    ensures forall i :: 0 <= i < |out| ==> IsEntry(out[i], categories, wanted)
    ensures forall i, j :: 0 <= i < j < |out| ==> out[i] != out[j]
  {
    forall i | 0 <= i < |out| ensures IsEntry(out[i], categories, wanted) && out[i].fields.Keys == {keys[i]} {
      EntryShape(categories, keys[i]);
    }
    forall i, j | 0 <= i < j < |out| ensures out[i] != out[j] {
      assert out[i].fields.Keys == {keys[i]} && out[j].fields.Keys == {keys[j]};
    }
  }

  lemma EntriesComplete(keys: seq<string>, out: seq<Json>, categories: Json, wanted: set<string>)
    requires forall k :: k in wanted && Kept(categories, k) ==> k in keys
    requires |out| == |keys|
    requires forall i :: 0 <= i < |keys| ==> out[i] == Entry(categories, keys[i])
    ensures forall k :: k in wanted && Kept(categories, k) ==> Entry(categories, k) in out
  {
    forall k | k in wanted && Kept(categories, k) ensures Entry(categories, k) in out {
      var i :| 0 <= i < |keys| && keys[i] == k;
      assert out[i] == Entry(categories, k);
    }
  }

  lemma EntryShape(categories: Json, key: string)
    ensures Entry(categories, key).fields.Keys == {key}
    ensures |Entry(categories, key).fields| == 1
  {
    var m := Entry(categories, key).fields;
    assert m.Keys == {key};
    assert |m| == |m.Keys|;
  }

  /**
   * What `generate_filtered_config` makes of the template: a copy that
   * differs only in the dataset prefix and title, the category list (the
   * selection for the requested names) and the geometry.
   */
  predicate IsFilteredConfig(r: Json, template: Json, projectId: Json, wanted: set<string>, geometry: Json)
    requires Buildable(template, wanted)
  {
    r.JObj? &&
    r.fields.Keys == template.fields.Keys + {"categories", "geometry"} &&
    (forall k :: k in template.fields && k !in {"dataset", "categories", "geometry"} ==>
      r.fields[k] == template.fields[k]) &&
    r.fields["dataset"] == JObj(template.fields["dataset"].fields
      ["dataset_prefix" := JStr(DatasetPrefix(projectId))]
      ["dataset_title" := JStr(DatasetTitle(projectId))]) &&
    r.fields["geometry"] == geometry &&
    r.fields["categories"].JArr? &&
    IsSelection(r.fields["categories"].items, CategoriesOf(template.fields), wanted)
  }

  /**
   * `generate_filtered_config`, returning the document instead of its JSON
   * text, or the exception it raises.
   */
  method GenerateFilteredConfig(template: Json, projectId: Json, mappingTypes: seq<string>, geometry: Json)
    returns (r: Result<Json>)
    ensures r.Ok? <==> Buildable(template, set k | k in mappingTypes)
    ensures r.Ok? ==> IsFilteredConfig(r.value, template, projectId, (set k | k in mappingTypes), geometry)
  {
    if !(template.JObj? && "dataset" in template.fields && template.fields["dataset"].JObj?) {
      return Err("TypeError or KeyError while renaming the dataset");
    }
    var fields := template.fields;
    var dataset := fields["dataset"].fields
      ["dataset_prefix" := JStr(DatasetPrefix(projectId))]
      ["dataset_title" := JStr(DatasetTitle(projectId))];
    var out := SelectCategories(CategoriesOf(fields), set k | k in mappingTypes);
    if out.Err? {
      return Err(out.error);
    }
    r := Ok(JObj(fields["dataset" := JObj(dataset)]["categories" := JArr(out.value)]["geometry" := geometry]));
  }

  /** A text entry that does not mention the requested name is skipped, and the dict after it answers. */
  lemma TextEntrySkipped(v: Json)
    ensures Scan(JArr([JStr("notes"), JObj(map["Roads" := v])]), "Roads") == Present(v)
  {
    var entries := [JStr("notes"), JObj(map["Roads" := v])];
    assert "notes"[..5][0] != "Roads"[0];
    assert !Contains("notes"[1..], "Roads");
    FirstMatchIsFirst(entries, "Roads", 1);
  }

  /** A text entry that mentions the requested name raises at `category[key]`. */
  lemma TextEntryRaises(v: Json)
    ensures Scan(JArr([JStr("Roads only"), JObj(map["Roads" := v])]), "Roads") == Raises
  {
    assert "Roads only"[..5] == "Roads";
    FirstMatchIsFirst([JStr("Roads only"), JObj(map["Roads" := v])], "Roads", 0);
  }

  /** A fixed text followed by a rendered int names that int alone. */
  lemma LabelIdentifiesInt(prefix: string, a: int, b: int)
    requires a != b
    ensures prefix + IntToDecimal(a) != prefix + IntToDecimal(b)
  {
    if prefix + IntToDecimal(a) == prefix + IntToDecimal(b) {
      assert (prefix + IntToDecimal(a))[|prefix|..] == IntToDecimal(a);
      assert (prefix + IntToDecimal(b))[|prefix|..] == IntToDecimal(b);
      IntToDecimalInjective(a, b);
    }
  }

  /** Two projects with different ids get different dataset prefixes and titles. */
  lemma PrefixIdentifiesProject(a: int, b: int)
    requires a != b
    ensures DatasetPrefix(JInt(a)) != DatasetPrefix(JInt(b))
    ensures DatasetTitle(JInt(a)) != DatasetTitle(JInt(b))
  {
    LabelIdentifiesInt("hotosm_project_", a, b);
    LabelIdentifiesInt("Tasking Manger Project ", a, b);
  }
}
