/**
 * The post-run statistics over a `result.json` report: the elapsed-time
 * parser and `process_json`, which counts failed and successful tasks, sums
 * datasets and resources, tallies resources per dataset name and measures
 * the span from the earliest start to the latest end. Timestamps are whole
 * seconds, naive or carrying a UTC offset; the ISO-8601 parser is a
 * parameter.
 */
module ResultAnalyzer {
  import opened Values

  // ---------------------------------------------------------------------
  // convert_elapsed_time_to_seconds

  predicate IsDigit(c: char)
  {
    '0' <= c <= '9'
  }

  /** The regex class `\w`, over ASCII. */
  predicate IsWordChar(c: char)
  {
    IsDigit(c) || 'a' <= c <= 'z' || 'A' <= c <= 'Z' || c == '_'
  }

  /** The length of the longest digit run at the start of `s` (the greedy `\d+`). */
  function DigitRun(s: string): (n: nat)
    ensures n <= |s|
    ensures forall i :: 0 <= i < n ==> IsDigit(s[i])
    ensures n < |s| ==> !IsDigit(s[n])
  {
    if s == [] || !IsDigit(s[0]) then 0 else 1 + DigitRun(s[1..])
  }

  /** The length of the longest word run at the start of `s` (the greedy `\w+`). */
  function WordRun(s: string): (n: nat)
    ensures n <= |s|
    ensures forall i :: 0 <= i < n ==> IsWordChar(s[i])
    ensures n < |s| ==> !IsWordChar(s[n])
  {
    if s == [] || !IsWordChar(s[0]) then 0 else 1 + WordRun(s[1..])
  }

  function DigitValue(c: char): nat
    requires IsDigit(c)
  {
    c as int - '0' as int
  }

  /** `int(digits)`. */
  function DecimalValue(digits: string): nat
    requires forall i :: 0 <= i < |digits| ==> IsDigit(digits[i])
  {
    if digits == [] then 0
    else 10 * DecimalValue(digits[..|digits| - 1]) + DigitValue(digits[|digits| - 1])
  }

  /** `time_unit_mapping.get(unit, 1)`: only the exact singular names are known. */
  function UnitSeconds(unit: string): nat
  {
    if unit == "second" then 1
    else if unit == "minute" then 60
    else if unit == "hour" then 3600
    else if unit == "day" then 86400
    else 1
  }

  /** The first alternative of the pattern, `(\d+) (\w+)`, at the start of `s`: the digits and the unit. */
  function CountMatch(s: string): Option<(string, string)>
  {
    var d := DigitRun(s);
    if 0 < d < |s| && s[d] == ' ' && WordRun(s[d + 1..]) > 0 then Some((s[..d], s[d + 1..][..WordRun(s[d + 1..])]))
    else None
  }

  /** The length of a leading "a " or "an ", or 0. */
  function ArticleLength(s: string): nat
  {
    if |s| >= 2 && s[..2] == "a " then 2 else if |s| >= 3 && s[..3] == "an " then 3 else 0
  }

  /** The second alternative, `an? (\w+)`, at the start of `s`: the unit. */
  function ArticleMatch(s: string): Option<string>
  {
    var a := ArticleLength(s);
    if a > 0 && WordRun(s[a..]) > 0 then Some(s[a..][..WordRun(s[a..])]) else None
  }

  /**
   * `convert_elapsed_time_to_seconds`: a prefix "<digits> <word>" counts the
   * digits' value of the unit, a prefix "a <word>" or "an <word>" one unit,
   * and anything else zero.
   */
  function ElapsedSeconds(s: string): nat
  {
    var count := CountMatch(s);
    if count.Some? then DecimalValue(count.value.0) * UnitSeconds(count.value.1)
    else
      var unit := ArticleMatch(s);
      if unit.Some? then UnitSeconds(unit.value) else 0
  }

  /** A word run ending at `|unit|` is measured exactly. */
  lemma {:induction false} WordRunOf(unit: string, rest: string)
    requires forall i :: 0 <= i < |unit| ==> IsWordChar(unit[i])
    requires rest == [] || !IsWordChar(rest[0])
    ensures WordRun(unit + rest) == |unit|
    decreases |unit|
  {
    if unit == [] {
      assert unit + rest == rest;
    } else {
      assert (unit + rest)[1..] == unit[1..] + rest;
      WordRunOf(unit[1..], rest);
    }
  }

  /** A digit run ending at `|digits|` is measured exactly. */
  lemma {:induction false} DigitRunOf(digits: string, rest: string)
    requires forall i :: 0 <= i < |digits| ==> IsDigit(digits[i])
    requires rest == [] || !IsDigit(rest[0])
    ensures DigitRun(digits + rest) == |digits|
    decreases |digits|
  {
    if digits == [] {
      assert digits + rest == rest;
    } else {
      assert (digits + rest)[1..] == digits[1..] + rest;
      DigitRunOf(digits[1..], rest);
    }
  }

  /** "<digits> <unit>…" matches the first alternative, with exactly those digits and that unit. */
  lemma CountMatchOf(digits: string, unit: string, rest: string)
    requires |digits| > 0 && forall i :: 0 <= i < |digits| ==> IsDigit(digits[i])
    requires |unit| > 0 && forall i :: 0 <= i < |unit| ==> IsWordChar(unit[i])
    requires rest == [] || !IsWordChar(rest[0])
    ensures CountMatch(digits + " " + unit + rest) == Some((digits, unit))
  {
    var tail := unit + rest;
    var s := digits + ([' '] + tail);
    assert digits + " " + unit + rest == s;
    DigitRunOf(digits, [' '] + tail);
    var d := |digits|;
    assert s[..d] == digits;
    assert s[d + 1..] == tail;
    WordRunOf(unit, rest);
    assert tail[..|unit|] == unit;
  }

  /** "<digits> <unit>…" is the digits' value times the unit's seconds. */
  lemma ElapsedOfCount(digits: string, unit: string, rest: string)
    requires |digits| > 0 && forall i :: 0 <= i < |digits| ==> IsDigit(digits[i])
    requires |unit| > 0 && forall i :: 0 <= i < |unit| ==> IsWordChar(unit[i])
    requires rest == [] || !IsWordChar(rest[0])
    ensures ElapsedSeconds(digits + " " + unit + rest) == DecimalValue(digits) * UnitSeconds(unit)
  {
    CountMatchOf(digits, unit, rest);
  }

  /** "a <unit>…" and "an <unit>…" match the second alternative only, with that unit. */
  lemma ArticleMatchOf(article: string, unit: string, rest: string)
    requires article == "a" || article == "an"
    requires |unit| > 0 && forall i :: 0 <= i < |unit| ==> IsWordChar(unit[i])
    requires rest == [] || !IsWordChar(rest[0])
    ensures var s := article + " " + unit + rest;
      CountMatch(s) == None && ArticleMatch(s) == Some(unit)
  {
    var s := article + " " + unit + rest;
    assert DigitRun(s) == 0 by { assert !IsDigit(s[0]); }
    var a := |article| + 1;
    assert s[..a] == article + " ";
    if article == "an" {
      assert s[..2] != "a " by { assert s[1] == 'n'; }
    }
    assert ArticleLength(s) == a;
    assert s[a..] == unit + rest;
    WordRunOf(unit, rest);
    assert s[a..][..|unit|] == unit;
  }

  /** "a <unit>…" and "an <unit>…" are one unit's seconds. */
  lemma ElapsedOfArticle(article: string, unit: string, rest: string)
    requires article == "a" || article == "an"
    requires |unit| > 0 && forall i :: 0 <= i < |unit| ==> IsWordChar(unit[i])
    requires rest == [] || !IsWordChar(rest[0])
    ensures ElapsedSeconds(article + " " + unit + rest) == UnitSeconds(unit)
  {
    ArticleMatchOf(article, unit, rest);
  }

  /** A plural unit is not in the table: "2 minutes" counts two seconds, not two minutes. */
  lemma PluralUnitCountsOne()
    ensures ElapsedSeconds("2 minutes") == 2
  {
    var unit := "minutes";
    assert forall i :: 0 <= i < |unit| ==> IsWordChar(unit[i]);
    assert UnitSeconds(unit) == 1 by { assert |unit| != |"minute"|; }
    assert DecimalValue("2") == 2 by { assert "2"[..0] == []; }
    ElapsedOfCount("2", unit, "");
    TwoMinutesSplits();
  }

  /** "2 minutes" is the count "2", a space and the unit "minutes". */
  lemma TwoMinutesSplits()
    ensures "2" + " " + "minutes" + "" == "2 minutes"
  {
  }

  /** "an hour …" is a full hour. */
  lemma ArticleCountsOneUnit()
    ensures ElapsedSeconds("an hour ago") == 3600
  {
    var unit := "hour";
    assert forall i :: 0 <= i < |unit| ==> IsWordChar(unit[i]);
    ElapsedOfArticle("an", unit, " ago");
    assert "an" + " " + unit + " ago" == "an hour ago";
  }

  /** Text that starts with neither a digit nor an article matches nothing and counts zero. */
  lemma ElapsedNoMatch(s: string)
    requires s == [] || (!IsDigit(s[0]) && s[0] != 'a')
    ensures ElapsedSeconds(s) == 0
  {
    if s != [] {
      assert |s| >= 2 ==> s[..2][0] == s[0];
      assert |s| >= 3 ==> s[..3][0] == s[0];
      assert ArticleLength(s) == 0;
    }
  }

  // ---------------------------------------------------------------------
  // Sums over maps (the `dataset_counts` defaultdict)

  /** `d[k]` on a `defaultdict(int)`. */
  function GetN(m: map<string, int>, k: string): (n: int)
    ensures k in m ==> n == m[k]
    ensures k !in m ==> n == 0
  {
    if k in m then m[k] else 0
  }

  /** `sum(m.values())`. */
  ghost function MapSum(m: map<string, int>): int
    decreases |m|
  {
    if m == map[] then 0
    else
      var k :| k in m;
      assert |m - {k}| < |m| by { assert m.Keys - {k} < m.Keys; }
      m[k] + MapSum(m - {k})
  }

  /** The sum does not depend on which key is taken first. */
  lemma {:induction false} MapSumRemove(m: map<string, int>, k: string)
    requires k in m
    ensures MapSum(m) == m[k] + MapSum(m - {k})
    decreases |m|
  {
    var j :| j in m && MapSum(m) == m[j] + MapSum(m - {j});
    if j != k {
      var mj, mk := m - {j}, m - {k};
      assert |mj| < |m| by { assert mj.Keys < m.Keys; }
      assert |mk| < |m| by { assert mk.Keys < m.Keys; }
      MapSumRemove(mj, k);
      MapSumRemove(mk, j);
      assert mj - {k} == mk - {j};
    }
  }

  /** Adding `v` to one entry of a defaultdict adds `v` to the sum of its values. */
  lemma MapSumUpdate(m: map<string, int>, k: string, v: int)
    ensures MapSum(m[k := GetN(m, k) + v]) == MapSum(m) + v
  {
    var m' := m[k := GetN(m, k) + v];
    MapSumRemove(m', k);
    assert m' - {k} == m - {k};
    if k in m {
      MapSumRemove(m, k);
    } else {
      assert m - {k} == m;
    }
  }

  /** `counts` after `counts[name] += extra[name]` for every name of `extra`. */
  function Tally(counts: map<string, int>, extra: map<string, int>): (r: map<string, int>)
    ensures r.Keys == counts.Keys + extra.Keys
  {
    map k | k in counts.Keys + extra.Keys :: GetN(counts, k) + GetN(extra, k)
  }

  /** Tallying one more name is one defaultdict update. */
  lemma TallyInsert(counts: map<string, int>, extra: map<string, int>, k: string, v: int)
    requires k !in extra
    ensures var t := Tally(counts, extra);
      Tally(counts, extra[k := v]) == t[k := GetN(t, k) + v]
  {
  }

  /** Tallying adds the sums. */
  lemma {:induction false} MapSumTally(counts: map<string, int>, extra: map<string, int>)
    ensures MapSum(Tally(counts, extra)) == MapSum(counts) + MapSum(extra)
    decreases |extra|, 1
  {
    if extra == map[] {
      assert Tally(counts, extra) == counts;
    } else {
      var k :| k in extra;
      MapSumTallyAt(counts, extra, k);
    }
  }

  lemma {:induction false} MapSumTallyAt(counts: map<string, int>, extra: map<string, int>, k: string)
    requires k in extra
    ensures MapSum(Tally(counts, extra)) == MapSum(counts) + MapSum(extra)
    decreases |extra|, 0
  {
      var rest := extra - {k};
      assert |rest| < |extra| by { assert rest.Keys < extra.Keys; }
      MapSumTally(counts, rest);
      TallySumStep(counts, extra, k);
      MapSumRemove(extra, k);
  }

  /** Tallying one name more adds its count to the sum. */
  lemma TallySumStep(counts: map<string, int>, extra: map<string, int>, k: string)
    requires k in extra
    ensures MapSum(Tally(counts, extra)) == MapSum(Tally(counts, extra - {k})) + extra[k]
  {
    TallyRemove(counts, extra, k);
    var before := Tally(counts, extra - {k});
    MapSumUpdate(before, k, extra[k]);
  }

  /** Tallying a map is tallying it without one name, then that name. */
  lemma TallyRemove(counts: map<string, int>, extra: map<string, int>, k: string)
    requires k in extra
    ensures var before := Tally(counts, extra - {k});
      Tally(counts, extra) == before[k := GetN(before, k) + extra[k]]
  {
    var rest := extra - {k};
    assert extra == rest[k := extra[k]];
    TallyInsert(counts, rest, k, extra[k]);
  }

  // ---------------------------------------------------------------------
  // One task of the report

  /** `info[key]`: a `KeyError` for a missing key, a `TypeError` on anything but a dict. */
  function Field(info: Json, key: string): (r: Result<Json>)
    ensures r.Ok? <==> info.JObj? && key in info.fields
    ensures r.Ok? ==> r.value == info.fields[key]
  {
    if !info.JObj? then Err("TypeError: indices must be integers")
    else if key !in info.fields then Err("KeyError: '" + key + "'")
    else Ok(info.fields[key])
  }

  /** Python's `len(x)`, where it is defined. */
  function Len(j: Json): Option<nat>
  {
    match j
    case JStr(s) => Some(|s|)
    case JArr(items) => Some(|items|)
    case JObj(fields) => Some(|fields|)
    case _ => None
  }

  const NoItemsError := "AttributeError: object has no attribute 'items'"

  const ResourcesError := "TypeError or KeyError: resources['resources'] has no length"

  /** `len(resources["resources"])` for one dataset entry. */
  function ResourceCount(entry: Json): (r: Result<int>)
    ensures r.Ok? <==> entry.JObj? && "resources" in entry.fields && Len(entry.fields["resources"]).Some?
  {
    if entry.JObj? && "resources" in entry.fields && Len(entry.fields["resources"]).Some?
    then Ok(Len(entry.fields["resources"]).value)
    else Err(ResourcesError)
  }

  /** Every entry of a dataset has a sized resource list. */
  predicate Countable(fields: map<string, Json>)
  {
    forall k :: k in fields ==> ResourceCount(fields[k]).Ok?
  }

  /** The resource count of each name in one dataset. */
  function CountsOf(fields: map<string, Json>): (r: map<string, int>)
    ensures r.Keys == fields.Keys
    ensures forall k :: GetN(r, k) == CountOf(fields, k)
  {
    map k | k in fields :: CountOf(fields, k)
  }

  /**
   * `task_info["datasets"]` as the loop sees it: a list's items; an empty
   * dict or string loops zero times; a non-empty one yields strings, whose
   * `.items()` raises; anything else has no `len`.
   */
  function DatasetList(j: Json): Result<seq<Json>>
  {
    match j
    case JArr(items) => Ok(items)
    case JObj(fields) => if fields == map[] then Ok([]) else Err("AttributeError: 'str' object has no attribute 'items'")
    case JStr(s) => if s == "" then Ok([]) else Err("AttributeError: 'str' object has no attribute 'items'")
    case _ => Err("TypeError: object has no len()")
  }

  // ---------------------------------------------------------------------
  // datetimes

  /**
   * A `datetime` as `fromisoformat` returns it, to the second: the
   * wall-clock time in seconds since 0001-01-01T00:00:00, and the UTC offset
   * in seconds when the string carries one (an aware datetime).
   */
  datatype Stamp = Stamp(wall: int, offset: Option<int>)

  /** `datetime.fromisoformat`: a stamp, or `None` where it raises `ValueError`. */
  type IsoParser = string -> Option<Stamp>

  predicate Aware(t: Stamp)
  {
    t.offset.Some?
  }

  /** The instant a stamp stands for: aware stamps compare and subtract in UTC, naive ones by the wall clock. */
  function Instant(t: Stamp): int
  {
    if Aware(t) then t.wall - t.offset.value else t.wall
  }

  /** `datetime.max`, 9999-12-31T23:59:59, to the second. */
  const MaxWall := 315537897599

  /** `timedelta` holds fewer than 1000000000 days; `timedelta(seconds=n)` raises from this many seconds on. */
  const TimedeltaLimit := 86400000000000

  const TimedeltaOverflow := "OverflowError: days must have magnitude <= 999999999"
  const DateOverflow := "OverflowError: date value out of range"

  /** `stamp + timedelta(seconds=elapsed)`, which raises past `datetime.max`; the offset is kept. */
  function AddSeconds(t: Stamp, elapsed: nat): (r: Result<Stamp>)
    ensures r.Ok? <==> t.wall + elapsed <= MaxWall
    ensures r.Ok? ==> Aware(r.value) == Aware(t) && Instant(r.value) == Instant(t) + elapsed
  {
    if t.wall + elapsed > MaxWall then Err(DateOverflow) else Ok(Stamp(t.wall + elapsed, t.offset))
  }

  /** The list holds both a naive and an aware stamp, so comparing its items raises. */
  predicate Mixed(xs: seq<Stamp>)
  {
    exists i, j :: 0 <= i < |xs| && 0 <= j < |xs| && !Aware(xs[i]) && Aware(xs[j])
  }

  /** `max(xs)` of a non-empty list of stamps that compare. */
  function Latest(xs: seq<Stamp>): (m: Stamp)
    requires xs != []
    ensures m in xs && forall i :: 0 <= i < |xs| ==> Instant(xs[i]) <= Instant(m)
  {
    if |xs| == 1 then xs[0]
    else var rest := Latest(xs[1..]); if Instant(xs[0]) >= Instant(rest) then xs[0] else rest
  }

  /** `min(xs)` of a non-empty list of stamps that compare. */
  function Earliest(xs: seq<Stamp>): (m: Stamp)
    requires xs != []
    ensures m in xs && forall i :: 0 <= i < |xs| ==> Instant(m) <= Instant(xs[i])
  {
    if |xs| == 1 then xs[0]
    else var rest := Earliest(xs[1..]); if Instant(xs[0]) <= Instant(rest) then xs[0] else rest
  }

  // ---------------------------------------------------------------------
  // one task

  /** What `process_json` reads of one successful task: its start, elapsed seconds, end and datasets. */
  datatype Task = Task(start: Stamp, elapsed: nat, end: Stamp, datasets: seq<Json>)

  /** A `FAILURE` marker, in any letter case. */
  predicate IsFailure(info: Json)
  {
    info.JStr? && Upper(info.s) == "FAILURE"
  }

  /**
   * The start, elapsed seconds and datasets of a task, in the order the
   * source reads them, each read raising as Python would.
   */
  function ParseTask(info: Json, iso: IsoParser): (r: Result<Task>)
    ensures r.Ok? ==> (info.JObj? && "started_at" in info.fields && "elapsed_time" in info.fields
      && "datasets" in info.fields)
    ensures r.Ok? ==> info.fields["started_at"].JStr? && iso(info.fields["started_at"].s) == Some(r.value.start)
    ensures r.Ok? ==> (info.fields["elapsed_time"].JStr?
      && r.value.elapsed == ElapsedSeconds(info.fields["elapsed_time"].s))
    ensures r.Ok? ==> (r.value.elapsed < TimedeltaLimit && r.value.end.wall <= MaxWall
      && Aware(r.value.end) == Aware(r.value.start) && Instant(r.value.end) == Instant(r.value.start) + r.value.elapsed)
    ensures r.Ok? ==> DatasetList(info.fields["datasets"]) == Ok(r.value.datasets)
  {
    var started := Field(info, "started_at");
    if started.Err? then Err(started.error)
    else if !started.value.JStr? then Err("TypeError: fromisoformat: argument must be str")
    else if iso(started.value.s).None? then Err("ValueError: Invalid isoformat string")
    else
      var elapsed := Field(info, "elapsed_time");
      if elapsed.Err? then Err(elapsed.error)
      else if !elapsed.value.JStr? then Err("TypeError: expected string or bytes-like object")
      else if ElapsedSeconds(elapsed.value.s) >= TimedeltaLimit then Err(TimedeltaOverflow)
      else
        var start, seconds := iso(started.value.s).value, ElapsedSeconds(elapsed.value.s);
        var end := AddSeconds(start, seconds);
        if end.Err? then Err(end.error)
        else
          var datasets := Field(info, "datasets");
          if datasets.Err? then Err(datasets.error)
          else
            var list := DatasetList(datasets.value);
            if list.Err? then Err(list.error)
            else Ok(Task(start, seconds, end.value, list.value))
  }

  /** A non-marker string is not a task record: reading its start raises. */
  lemma StringTaskRaises(s: string, iso: IsoParser)
    ensures ParseTask(JStr(s), iso).Err?
  {
  }

  // ---------------------------------------------------------------------
  // Tallying datasets

  /** One dataset's contribution to `dataset_counts` and `total_resources`. */
  ghost function AddOne(counts: map<string, int>, resources: int, dataset: Json): Result<(map<string, int>, int)>
  {
    if !dataset.JObj? then Err(NoItemsError) else AddFields(counts, resources, dataset.fields)
  }

  /** The names of one dataset added to the tally and the total. */
  ghost function AddFields(counts: map<string, int>, resources: int, fields: map<string, Json>): Result<(map<string, int>, int)>
  {
    if !Countable(fields) then Err(ResourcesError)
    else
      var total := resources + MapSum(CountsOf(fields));
      Ok((Tally(counts, CountsOf(fields)), total))
  }

  /** The datasets of one task, in order. */
  ghost function AddAll(counts: map<string, int>, resources: int, datasets: seq<Json>): Result<(map<string, int>, int)>
    decreases |datasets|
  {
    if datasets == [] then Ok((counts, resources))
    else
      var before := AddAll(counts, resources, datasets[..|datasets| - 1]);
      if before.Err? then before
      else AddOne(before.value.0, before.value.1, datasets[|datasets| - 1])
  }

  /** Tallying keeps `sum(dataset_counts.values()) == total_resources`. */
  lemma {:induction false} AddAllKeepsSum(counts: map<string, int>, resources: int, datasets: seq<Json>)
    requires MapSum(counts) == resources
    ensures var r := AddAll(counts, resources, datasets);
      r.Ok? ==> MapSum(r.value.0) == r.value.1
    decreases |datasets|
  {
    if datasets != [] {
      var before := AddAll(counts, resources, datasets[..|datasets| - 1]);
      AddAllKeepsSum(counts, resources, datasets[..|datasets| - 1]);
      var d := datasets[|datasets| - 1];
      if before.Ok? && d.JObj? && Countable(d.fields) {
        MapSumTally(before.value.0, CountsOf(d.fields));
      }
    }
  }

  /** The count one name adds, or 0 for a name without a sized resource list. */
  function CountOf(fields: map<string, Json>, k: string): int
  {
    if k in fields && ResourceCount(fields[k]).Ok? then ResourceCount(fields[k]).value else 0
  }

  /** The sum of the values of `m` at `names`, in that order. */
  function SumKeys(m: map<string, int>, names: seq<string>): int
    decreases |names|
  {
    if names == [] then 0 else SumKeys(m, names[..|names| - 1]) + GetN(m, names[|names| - 1])
  }

  /** One name more adds its value. */
  lemma SumKeysSnoc(m: map<string, int>, names: seq<string>, k: string)
    ensures SumKeys(m, names + [k]) == SumKeys(m, names) + GetN(m, k)
  {
    assert (names + [k])[..|names|] == names;
  }

  /** Two maps that agree on `names` sum to the same along them. */
  lemma {:induction false} SumKeysAgree(m: map<string, int>, m': map<string, int>, names: seq<string>)
    requires forall i :: 0 <= i < |names| ==> GetN(m, names[i]) == GetN(m', names[i])
    ensures SumKeys(m, names) == SumKeys(m', names)
    decreases |names|
  {
    if names != [] {
      SumKeysAgree(m, m', names[..|names| - 1]);
    }
  }

  /**
   * Summing along any listing of the keys, each once, gives
   * `sum(m.values())`: the order in which a dict is visited does not matter.
   */
  lemma {:induction false} SumKeysListing(m: map<string, int>, names: seq<string>)
    requires forall i, j :: 0 <= i < j < |names| ==> names[i] != names[j]
    requires forall k :: k in m <==> k in names
    ensures SumKeys(m, names) == MapSum(m)
    decreases |names|
  {
    if names == [] {
      assert m == map[];
    } else {
      var prefix, k := names[..|names| - 1], names[|names| - 1];
      assert names == prefix + [k];
      assert k !in prefix;
      var rest := m - {k};
      forall x ensures x in rest <==> x in prefix {
        assert x in names <==> x in prefix || x == k;
      }
      SumKeysListing(rest, prefix);
      SumKeysAgree(m, rest, prefix);
      MapSumRemove(m, k);
    }
  }

  /** A map that holds the tallied value at every tallied name is the tally. */
  lemma TallyPointwise(c: map<string, int>, counts: map<string, int>, extra: map<string, int>)
    requires forall k :: k in c <==> k in counts || k in extra
    requires forall k :: k in c ==> c[k] == GetN(counts, k) + GetN(extra, k)
    ensures c == Tally(counts, extra)
  {
    assert c.Keys == counts.Keys + extra.Keys;
  }

  /**
   * What the loop over one dataset keeps: the names visited so far, each
   * once and in `visited`'s order, are the dataset's names not in `todo`,
   * and each was sized.
   */
  ghost predicate VisitInv(fields: map<string, Json>, todo: set<string>, visited: seq<string>)
  {
    && todo <= fields.Keys
    && (forall k :: k in fields ==> (k in todo <==> k !in visited))
    && (forall i :: 0 <= i < |visited| ==> visited[i] in fields)
    && (forall i, j :: 0 <= i < j < |visited| ==> visited[i] != visited[j])
    && (forall k :: k in fields && k !in todo ==> ResourceCount(fields[k]).Ok?)
  }

  /** ... and `c` holds `counts` plus their counts, and `n` adds them to `resources`. */
  ghost predicate TallyInv(counts: map<string, int>, resources: int, fields: map<string, Json>,
                           todo: set<string>, visited: seq<string>, c: map<string, int>, n: int)
  {
    && VisitInv(fields, todo, visited)
    && (forall k :: k in c <==> k in counts || (k in fields && k !in todo))
    && (forall k :: k in c ==> c[k] == GetN(counts, k) + (if k in todo then 0 else CountOf(fields, k)))
    && n == resources + SumKeys(CountsOf(fields), visited)
  }

  /** Visiting one more sized name keeps the first half of the invariant. */
  lemma VisitInvStep(fields: map<string, Json>, todo: set<string>, visited: seq<string>, k: string)
    requires VisitInv(fields, todo, visited)
    requires k in todo && ResourceCount(fields[k]).Ok?
    ensures VisitInv(fields, todo - {k}, visited + [k])
  {
  }

  /** Adding one name's count to the tally keeps `c` in step with `todo`. */
  lemma CountStep(counts: map<string, int>, fields: map<string, Json>, todo: set<string>, c: map<string, int>, k: string)
    requires k in todo && k in fields
    requires forall x :: x in c <==> x in counts || (x in fields && x !in todo)
    requires forall x :: x in c ==> c[x] == GetN(counts, x) + (if x in todo then 0 else CountOf(fields, x))
    ensures var c', todo' := c[k := GetN(c, k) + CountOf(fields, k)], todo - {k};
      (forall x :: x in c' <==> x in counts || (x in fields && x !in todo')) &&
      (forall x :: x in c' ==> c'[x] == GetN(counts, x) + (if x in todo' then 0 else CountOf(fields, x)))
  {
  }

  /** Visiting one more sized name keeps the invariant. */
  lemma TallyInvStep(counts: map<string, int>, resources: int, fields: map<string, Json>,
                     todo: set<string>, visited: seq<string>, c: map<string, int>, n: int, k: string, count: int)
    requires TallyInv(counts, resources, fields, todo, visited, c, n)
    requires k in todo && ResourceCount(fields[k]) == Ok(count)
    ensures TallyInv(counts, resources, fields, todo - {k}, visited + [k], c[k := GetN(c, k) + count], n + count)
  {
    VisitInvStep(fields, todo, visited, k);
    assert CountOf(fields, k) == count;
    CountStep(counts, fields, todo, c, k);
    SumKeysSnoc(CountsOf(fields), visited, k);
  }

  /** Once every name is visited, the tally and the total are what the dataset adds. */
  lemma TallyEnd(counts: map<string, int>, resources: int, fields: map<string, Json>, visited: seq<string>,
                 c: map<string, int>, n: int)
    requires TallyInv(counts, resources, fields, {}, visited, c, n)
    ensures AddFields(counts, resources, fields) == Ok((c, n))
  {
    TallyEndCounts(counts, fields, c);
    TallyEndSum(fields, visited);
    AddFieldsOk(counts, resources, fields, c, n);
  }

  lemma TallyEndCounts(counts: map<string, int>, fields: map<string, Json>, c: map<string, int>)
    requires forall k :: k in c <==> k in counts || k in fields
    requires forall k :: k in c ==> c[k] == GetN(counts, k) + CountOf(fields, k)
    ensures c == Tally(counts, CountsOf(fields))
  {
    TallyPointwise(c, counts, CountsOf(fields));
  }

  lemma TallyEndSum(fields: map<string, Json>, visited: seq<string>)
    requires forall k :: k in fields ==> k in visited
    requires forall i :: 0 <= i < |visited| ==> visited[i] in fields
    requires forall i, j :: 0 <= i < j < |visited| ==> visited[i] != visited[j]
    ensures SumKeys(CountsOf(fields), visited) == MapSum(CountsOf(fields))
  {
    var extra := CountsOf(fields);
    assert forall k :: k in extra <==> k in visited;
    SumKeysListing(extra, visited);
  }

  /** A dataset whose every entry is sized adds its tally and its total. */
  lemma AddFieldsOk(counts: map<string, int>, resources: int, fields: map<string, Json>, c: map<string, int>, n: int)
    requires Countable(fields)
    requires c == Tally(counts, CountsOf(fields)) && n == resources + MapSum(CountsOf(fields))
    ensures AddFields(counts, resources, fields) == Ok((c, n))
  {
  }

  /** Some member of a non-empty set: the order in which a dict's names are visited. */
  method Pick(names: set<string>) returns (k: string)
    requires names != {}
    ensures k in names
  {
    k :| k in names;
  }

  /** An entry without a sized resource list makes the dataset raise. */
  lemma AddFieldsFails(counts: map<string, int>, resources: int, fields: map<string, Json>, k: string)
    requires k in fields && ResourceCount(fields[k]).Err?
    ensures AddFields(counts, resources, fields) == Err(ResourcesError)
  {
  }

  /** One pass of the inner loop `for dataset_name, resources in dataset.items()`. */
  method AddDataset(counts: map<string, int>, resources: int, dataset: Json) returns (r: Result<(map<string, int>, int)>)
    ensures r == AddOne(counts, resources, dataset)
  {
    if !dataset.JObj? {
      return Err(NoItemsError);
    }
    r := TallyFields(counts, resources, dataset.fields);
  }

  /** The loop over one dataset's names, which Python visits in insertion order and this model in any order. */
  method TallyFields(counts: map<string, int>, resources: int, fields: map<string, Json>) returns (r: Result<(map<string, int>, int)>)
    ensures r == AddFields(counts, resources, fields)
  {
    var c, n := counts, resources;
    var todo := fields.Keys;
    ghost var visited: seq<string> := [];
    while todo != {}
      invariant TallyInv(counts, resources, fields, todo, visited, c, n)
      decreases |todo|
    {
      var k := Pick(todo);
      var count := ResourceCount(fields[k]);
      if count.Err? {
        AddFieldsFails(counts, resources, fields, k);
        return Err(ResourcesError);
      }
      TallyInvStep(counts, resources, fields, todo, visited, c, n, k, count.value);
      c := c[k := GetN(c, k) + count.value];
      n := n + count.value;
      visited := visited + [k];
      todo := todo - {k};
    }
    TallyEnd(counts, resources, fields, visited, c, n);
    r := Ok((c, n));
  }

  /** The loop `for dataset in datasets`. */
  method AddDatasets(counts: map<string, int>, resources: int, datasets: seq<Json>) returns (r: Result<(map<string, int>, int)>)
    ensures r == AddAll(counts, resources, datasets)
  {
    var c: map<string, int>, n: int := counts, resources;
    var j := 0;
    assert datasets[..0] == [];
    while j < |datasets|
      invariant 0 <= j <= |datasets|
      invariant AddAll(counts, resources, datasets[..j]) == Ok((c, n))
    {
      assert datasets[..j + 1][..j] == datasets[..j];
      var step := AddDataset(c, n, datasets[j]);
      if step.Err? {
        AddAllErrSticks(counts, resources, datasets, j + 1);
        return step;
      }
      c, n := step.value.0, step.value.1;
      j := j + 1;
    }
    assert datasets[..|datasets|] == datasets;
    r := Ok((c, n));
  }

  /** A raise in one dataset ends the loop with that error. */
  lemma {:induction false} AddAllErrSticks(counts: map<string, int>, resources: int, datasets: seq<Json>, j: nat)
    requires j <= |datasets| && AddAll(counts, resources, datasets[..j]).Err?
    ensures AddAll(counts, resources, datasets) == AddAll(counts, resources, datasets[..j])
    decreases |datasets| - j
  {
    if j < |datasets| {
      assert datasets[..j + 1][..j] == datasets[..j];
      AddAllErrSticks(counts, resources, datasets, j + 1);
    } else {
      assert datasets[..j] == datasets;
    }
  }

  // ---------------------------------------------------------------------
  // process_json

  /** The loop's running totals and its two timestamp lists. */
  datatype Tallies = Tallies(successful: nat, failed: nat, datasets: nat, resources: int,
                             counts: map<string, int>, starts: seq<Stamp>, ends: seq<Stamp>)

  /** The report `process_json` returns; `totalElapsed` is in seconds. */
  datatype Report = Report(totalTasks: nat, successfulTasks: nat, failedTasks: nat, totalDatasets: nat,
                           totalResources: int, totalElapsed: int, datasetCounts: map<string, int>)

  /** The totals after one more successful task. */
  ghost function AddTask(acc: Tallies, task: Task): Result<Tallies>
  {
    var added := AddAll(acc.counts, acc.resources, task.datasets);
    if added.Err? then Err(added.error)
    else Ok(Tallies(acc.successful + 1, acc.failed, acc.datasets + |task.datasets|, added.value.1,
                    added.value.0, acc.starts + [task.start], acc.ends + [task.end]))
  }

  /** One iteration of the loop over the report's entries. */
  ghost function Step(acc: Tallies, info: Json, iso: IsoParser): Result<Tallies>
  {
    if IsFailure(info) then Ok(acc.(failed := acc.failed + 1))
    else
      var task := ParseTask(info, iso);
      if task.Err? then Err(task.error) else AddTask(acc, task.value)
  }

  /** The totals before the loop. */
  const NoTallies := Tallies(0, 0, 0, 0, map[], [], [])

  /** The loop over `entries`, in the report's order. */
  ghost function Accumulate(entries: seq<(string, Json)>, iso: IsoParser): Result<Tallies>
    decreases |entries|
  {
    if entries == [] then Ok(NoTallies)
    else
      var before := Accumulate(entries[..|entries| - 1], iso);
      if before.Err? then before
      else Step(before.value, entries[|entries| - 1].1, iso)
  }

  const EmptyMax := "ValueError: max() arg is an empty sequence"
  const EmptyMin := "ValueError: min() arg is an empty sequence"
  const CompareMixed := "TypeError: can't compare offset-naive and offset-aware datetimes"
  const SubtractMixed := "TypeError: can't subtract offset-naive and offset-aware datetimes"

  /**
   * The report built from the loop's totals over `total` entries:
   * `max(end_times) - min(start_times)`, where `max` and `min` raise on an
   * empty list (no task succeeded) or on naive and aware times mixed, and
   * the subtraction raises when one is naive and the other aware.
   */
  function Summarize(t: Result<Tallies>, total: nat): (r: Result<Report>)
    ensures r.Ok? <==> (t.Ok? && t.value.ends != [] && t.value.starts != []
      && !Mixed(t.value.ends) && !Mixed(t.value.starts) && Aware(t.value.ends[0]) == Aware(t.value.starts[0]))
    ensures t.Ok? && t.value.ends == [] ==> r == Err(EmptyMax)
    ensures t.Ok? && Mixed(t.value.ends) ==> r == Err(CompareMixed)
  {
    if t.Err? then Err(t.error)
    else if t.value.ends == [] then Err(EmptyMax)
    else if Mixed(t.value.ends) then Err(CompareMixed)
    else if t.value.starts == [] then Err(EmptyMin)
    else if Mixed(t.value.starts) then Err(CompareMixed)
    else
      var latest, earliest := Latest(t.value.ends), Earliest(t.value.starts);
      if Aware(latest) != Aware(earliest) then Err(SubtractMixed)
      else Ok(Report(total, t.value.successful, t.value.failed, t.value.datasets, t.value.resources,
                     Instant(latest) - Instant(earliest), t.value.counts))
  }

  /** `process_json(json_data)` over the report's `(task_id, task_info)` pairs. */
  ghost function ProcessSpec(entries: seq<(string, Json)>, iso: IsoParser): Result<Report>
  {
    Summarize(Accumulate(entries, iso), |entries|)
  }

  /** The number of `FAILURE` markers among the entries. */
  function FailureCount(entries: seq<(string, Json)>): (n: nat)
    ensures n <= |entries|
  {
    if entries == [] then 0
    else FailureCount(entries[..|entries| - 1]) + (if IsFailure(entries[|entries| - 1].1) then 1 else 0)
  }

  /** One iteration of the loop: a marker is counted as failed, anything else is read as a task. */
  method AddEntry(acc: Tallies, info: Json, iso: IsoParser) returns (r: Result<Tallies>)
    ensures r == Step(acc, info, iso)
  {
    if IsFailure(info) {
      return Ok(acc.(failed := acc.failed + 1));
    }
    var task := ParseTask(info, iso);
    if task.Err? {
      return Err(task.error);
    }
    r := AddTaskDatasets(acc, task.value);
  }

  /** A successful task: its datasets tallied, then its counts and times recorded. */
  method AddTaskDatasets(acc: Tallies, task: Task) returns (r: Result<Tallies>)
    ensures r == AddTask(acc, task)
  {
    var added := AddDatasets(acc.counts, acc.resources, task.datasets);
    if added.Err? {
      return Err(added.error);
    }
    r := Ok(Tallies(acc.successful + 1, acc.failed, acc.datasets + |task.datasets|, added.value.1,
                    added.value.0, acc.starts + [task.start], acc.ends + [task.end]));
  }

  /** The loop over one entry more is one step more. */
  lemma AccumulateStep(entries: seq<(string, Json)>, i: nat, iso: IsoParser)
    requires i < |entries|
    ensures var before := Accumulate(entries[..i], iso);
      Accumulate(entries[..i + 1], iso) == if before.Err? then before else Step(before.value, entries[i].1, iso)
  {
    assert entries[..i + 1][..i] == entries[..i];
  }

  /** `process_json`: the loop over the entries, then the report. */
  method ProcessJson(entries: seq<(string, Json)>, iso: IsoParser) returns (r: Result<Report>)
    ensures r == ProcessSpec(entries, iso)
  {
    var acc := NoTallies;
    var i := 0;
    assert entries[..0] == [];
    while i < |entries|
      invariant 0 <= i <= |entries|
      invariant Accumulate(entries[..i], iso) == Ok(acc)
    {
      AccumulateStep(entries, i, iso);
      var next := AddEntry(acc, entries[i].1, iso);
      if next.Err? {
        AccumulateErrSticks(entries, i + 1, iso);
        return Err(next.error);
      }
      acc := next.value;
      i := i + 1;
    }
    assert entries[..|entries|] == entries;
    r := Summarize(Ok(acc), |entries|);
  }

  /** A raise in one entry ends `process_json` with that error. */
  lemma {:induction false} AccumulateErrSticks(entries: seq<(string, Json)>, i: nat, iso: IsoParser)
    requires i <= |entries| && Accumulate(entries[..i], iso).Err?
    ensures Accumulate(entries, iso) == Accumulate(entries[..i], iso)
    decreases |entries| - i
  {
    if i < |entries| {
      AccumulateStep(entries, i, iso);
      AccumulateErrSticks(entries, i + 1, iso);
    } else {
      assert entries[..i] == entries;
    }
  }

  /**
   * Every entry is counted once, as failed or as successful; the failed ones
   * are exactly the markers; there is one start and one end time per
   * successful task.
   */
  lemma {:induction false} AccumulateCounts(entries: seq<(string, Json)>, iso: IsoParser)
    ensures var t := Accumulate(entries, iso);
      t.Ok? ==> (
        t.value.successful + t.value.failed == |entries| && t.value.failed == FailureCount(entries) &&
        |t.value.starts| == t.value.successful && |t.value.ends| == t.value.successful)
    decreases |entries|
  {
    if entries != [] {
      AccumulateCounts(entries[..|entries| - 1], iso);
    }
  }

  /** The number of datasets the well-formed tasks among the entries list. */
  ghost function DatasetTotal(entries: seq<(string, Json)>, iso: IsoParser): nat
    decreases |entries|
  {
    if entries == [] then 0
    else
      var info := entries[|entries| - 1].1;
      var task := ParseTask(info, iso);
      DatasetTotal(entries[..|entries| - 1], iso) + (if !IsFailure(info) && task.Ok? then |task.value.datasets| else 0)
  }

  /** `total_datasets` is the sum of `len(datasets)` over the successful tasks. */
  lemma {:induction false} AccumulateDatasets(entries: seq<(string, Json)>, iso: IsoParser)
    ensures var t := Accumulate(entries, iso);
      t.Ok? ==> t.value.datasets == DatasetTotal(entries, iso)
    decreases |entries|
  {
    if entries != [] {
      AccumulateDatasets(entries[..|entries| - 1], iso);
    }
  }

  /** The per-name counts always sum to the total resource count. */
  lemma {:induction false} AccumulateSum(entries: seq<(string, Json)>, iso: IsoParser)
    ensures var t := Accumulate(entries, iso);
      t.Ok? ==> MapSum(t.value.counts) == t.value.resources
    decreases |entries|
  {
    if entries == [] {
      assert MapSum(map[]) == 0;
    } else {
      var prefix := entries[..|entries| - 1];
      AccumulateSum(prefix, iso);
      var before := Accumulate(prefix, iso);
      var info := entries[|entries| - 1].1;
      if before.Ok? && !IsFailure(info) && ParseTask(info, iso).Ok? {
        AddAllKeepsSum(before.value.counts, before.value.resources, ParseTask(info, iso).value.datasets);
      }
    }
  }

  /**
   * An entry the totals account for: a marker, or a well-formed task whose
   * start is among the start times and whose end (start plus elapsed time)
   * is among the end times.
   */
  ghost predicate Recorded(t: Tallies, info: Json, iso: IsoParser)
  {
    !IsFailure(info) ==>
      var task := ParseTask(info, iso);
      task.Ok? && task.value.start in t.starts && task.value.end in t.ends
  }

  /** A step records its own entry and only appends to the time lists. */
  lemma StepRecords(acc: Tallies, info: Json, iso: IsoParser)
    requires Step(acc, info, iso).Ok?
    ensures var t := Step(acc, info, iso).value;
      Recorded(t, info, iso) && acc.starts <= t.starts && acc.ends <= t.ends
  {
  }

  /** Appending to the time lists keeps what is recorded. */
  lemma RecordedGrows(a: Tallies, b: Tallies, info: Json, iso: IsoParser)
    requires Recorded(a, info, iso) && a.starts <= b.starts && a.ends <= b.ends
    ensures Recorded(b, info, iso)
  {
    if !IsFailure(info) {
      var task := ParseTask(info, iso).value;
      var i :| 0 <= i < |a.starts| && a.starts[i] == task.start;
      assert b.starts[i] == task.start;
      var j :| 0 <= j < |a.ends| && a.ends[j] == task.end;
      assert b.ends[j] == task.end;
    }
  }

  /** Every entry of a report that loops without raising is recorded. */
  lemma {:induction false} AccumulateTasks(entries: seq<(string, Json)>, iso: IsoParser)
    ensures var t := Accumulate(entries, iso);
      t.Ok? ==> forall j :: 0 <= j < |entries| ==> Recorded(t.value, entries[j].1, iso)
    decreases |entries|
  {
    if entries != [] {
      var prefix, last := entries[..|entries| - 1], entries[|entries| - 1];
      AccumulateTasks(prefix, iso);
      var before := Accumulate(prefix, iso);
      if before.Ok? && Step(before.value, last.1, iso).Ok? {
        var t := Step(before.value, last.1, iso).value;
        StepRecords(before.value, last.1, iso);
        forall j | 0 <= j < |prefix|
          ensures Recorded(t, prefix[j].1, iso)
        {
          RecordedGrows(before.value, t, prefix[j].1, iso);
        }
        RecordedSnoc(prefix, last, t, iso);
        assert prefix + [last] == entries;
      }
    }
  }

  /** Recording a list and one entry more records the longer list. */
  lemma RecordedSnoc(prefix: seq<(string, Json)>, last: (string, Json), t: Tallies, iso: IsoParser)
    requires forall j :: 0 <= j < |prefix| ==> Recorded(t, prefix[j].1, iso)
    requires Recorded(t, last.1, iso)
    ensures forall j :: 0 <= j < |prefix + [last]| ==> Recorded(t, (prefix + [last])[j].1, iso)
  {
  }

  /**
   * The report's counts agree: successful and failed tasks make up the
   * total, the failed ones are exactly the markers, the datasets are
   * those of the successful tasks, and `dataset_counts` sums to
   * `total_resources`.
   */
  lemma ReportTotals(entries: seq<(string, Json)>, iso: IsoParser)
    requires ProcessSpec(entries, iso).Ok?
    ensures var rep := ProcessSpec(entries, iso).value;
      rep.successfulTasks + rep.failedTasks == rep.totalTasks == |entries| &&
      rep.failedTasks == FailureCount(entries) &&
      rep.totalDatasets == DatasetTotal(entries, iso) &&
      MapSum(rep.datasetCounts) == rep.totalResources
  {
    var t := Accumulate(entries, iso).value;
    var rep := ProcessSpec(entries, iso).value;
    assert rep.successfulTasks == t.successful && rep.failedTasks == t.failed && rep.totalTasks == |entries| &&
      rep.totalDatasets == t.datasets && rep.totalResources == t.resources && rep.datasetCounts == t.counts by {
      SummaryCarries(t, |entries|);
    }
    assert t.successful + t.failed == |entries| && t.failed == FailureCount(entries) by {
      AccumulateCounts(entries, iso);
    }
    assert t.datasets == DatasetTotal(entries, iso) by {
      AccumulateDatasets(entries, iso);
    }
    assert MapSum(t.counts) == t.resources by {
      AccumulateSum(entries, iso);
    }
  }

  /** Every successful task parsed, and `total_elapsed_time` covers each task's own elapsed time. */
  lemma ReportCoversTasks(entries: seq<(string, Json)>, iso: IsoParser)
    requires ProcessSpec(entries, iso).Ok?
    ensures forall j :: 0 <= j < |entries| && !IsFailure(entries[j].1) ==>
      ParseTask(entries[j].1, iso).Ok? && ProcessSpec(entries, iso).value.totalElapsed >= ParseTask(entries[j].1, iso).value.elapsed
  {
    AccumulateTasks(entries, iso);
    var t := Accumulate(entries, iso).value;
    forall j | 0 <= j < |entries| && !IsFailure(entries[j].1)
      ensures ParseTask(entries[j].1, iso).Ok? && ProcessSpec(entries, iso).value.totalElapsed >= ParseTask(entries[j].1, iso).value.elapsed
    {
      assert Recorded(t, entries[j].1, iso);
      ElapsedCovered(t, |entries|, entries[j].1, iso);
    }
  }

  /** The report carries the loop's counts and totals unchanged. */
  lemma SummaryCarries(t: Tallies, total: nat)
    requires Summarize(Ok(t), total).Ok?
    ensures var rep := Summarize(Ok(t), total).value;
      rep.totalTasks == total && rep.successfulTasks == t.successful && rep.failedTasks == t.failed &&
      rep.totalDatasets == t.datasets && rep.totalResources == t.resources && rep.datasetCounts == t.counts
  {
  }

  /** `total_elapsed_time` spans from every start to every end. */
  lemma SpanCovers(t: Tallies, total: nat)
    requires Summarize(Ok(t), total).Ok?
    ensures forall i, j :: 0 <= i < |t.ends| && 0 <= j < |t.starts| ==>
      Instant(t.ends[i]) - Instant(t.starts[j]) <= Summarize(Ok(t), total).value.totalElapsed
  {
  }

  /** A recorded task's own span lies within the report's: its start and end are among the compared times. */
  lemma ElapsedCovered(t: Tallies, total: nat, info: Json, iso: IsoParser)
    requires Summarize(Ok(t), total).Ok? && Recorded(t, info, iso) && !IsFailure(info)
    ensures Summarize(Ok(t), total).value.totalElapsed >= ParseTask(info, iso).value.elapsed
  {
    var task := ParseTask(info, iso).value;
    var i :| 0 <= i < |t.ends| && t.ends[i] == task.end;
    var j :| 0 <= j < |t.starts| && t.starts[j] == task.start;
    SpanCovers(t, total);
  }

  /** A report of markers only (an empty one included) loops without raising and counts every entry as failed. */
  lemma {:induction false} AllFailures(entries: seq<(string, Json)>, iso: IsoParser)
    requires forall j :: 0 <= j < |entries| ==> IsFailure(entries[j].1)
    ensures Accumulate(entries, iso) == Ok(NoTallies.(failed := |entries|))
    decreases |entries|
  {
    if entries != [] {
      AllFailures(entries[..|entries| - 1], iso);
    }
  }

  /** Without a successful task `max(end_times)` raises. */
  lemma NoSuccessRaises(entries: seq<(string, Json)>, iso: IsoParser)
    requires forall j :: 0 <= j < |entries| ==> IsFailure(entries[j].1)
    ensures ProcessSpec(entries, iso) == Err(EmptyMax)
  {
    AllFailures(entries, iso);
  }

  /** An entry that is neither a marker nor a well-formed task (such as "FAILURE: timeout") makes the whole call raise. */
  lemma MalformedEntryRaises(entries: seq<(string, Json)>, j: nat, iso: IsoParser)
    requires j < |entries| && !IsFailure(entries[j].1) && ParseTask(entries[j].1, iso).Err?
    ensures ProcessSpec(entries, iso).Err?
  {
    AccumulateTasks(entries, iso);
  }

  /**
   * An elapsed time of a billion days or more makes `timedelta` raise, and
   * one that takes the start past `datetime.max` makes the addition raise,
   * before the datasets are read.
   */
  lemma ParseTaskOverflows(info: Json, iso: IsoParser)
    requires info.JObj? && "started_at" in info.fields && "elapsed_time" in info.fields
    requires info.fields["started_at"].JStr? && iso(info.fields["started_at"].s).Some?
    requires info.fields["elapsed_time"].JStr?
    ensures var start, seconds := iso(info.fields["started_at"].s).value, ElapsedSeconds(info.fields["elapsed_time"].s);
      (seconds >= TimedeltaLimit ==> ParseTask(info, iso) == Err(TimedeltaOverflow)) &&
      (seconds < TimedeltaLimit && start.wall + seconds > MaxWall ==> ParseTask(info, iso) == Err(DateOverflow))
  {
  }

  /** "3000000" reads as three million. */
  lemma ThreeMillion()
    ensures (forall i :: 0 <= i < |"3000000"| ==> IsDigit("3000000"[i])) && DecimalValue("3000000") == 3000000
  {
    var d := "3000000";
    assert d[..0] == [] && d[..1] == "3";
    assert DecimalValue(d[..1]) == 3;
    assert d[..2] == "30" && d[..2][..1] == d[..1];
    assert DecimalValue(d[..2]) == 30;
    assert d[..3] == "300" && d[..3][..2] == d[..2];
    assert DecimalValue(d[..3]) == 300;
    assert d[..4] == "3000" && d[..4][..3] == d[..3];
    assert DecimalValue(d[..4]) == 3000;
    assert d[..5] == "30000" && d[..5][..4] == d[..4];
    assert DecimalValue(d[..5]) == 30000;
    assert d[..6] == "300000" && d[..6][..5] == d[..5];
    assert DecimalValue(d[..6]) == 300000;
    assert d[..6] == d[..|d| - 1];
  }

  /** "3000000 day" is the count "3000000", a space and the unit "day". */
  lemma ThreeMillionDaysSplits()
    ensures "3000000" + " " + "day" + "" == "3000000 day"
  {
  }

  /** "3000000 day" is three million days, in seconds. */
  lemma ThreeMillionDays()
    ensures ElapsedSeconds("3000000 day") == 259200000000
  {
    var unit := "day";
    assert forall i :: 0 <= i < |unit| ==> IsWordChar(unit[i]);
    ThreeMillion();
    ElapsedOfCount("3000000", unit, "");
    ThreeMillionDaysSplits();
  }

  /**
   * A task started 2024-01-01T00:00:00 (naive) with an `elapsed_time` of
   * "3000000 day" would end in the year 10237: the whole call raises
   * `OverflowError`.
   */
  lemma EndPastMaxRaises(iso: IsoParser, start: string)
    requires iso(start) == Some(Stamp(63839664000, None))
    ensures ProcessSpec([("t", JObj(map["started_at" := JStr(start), "elapsed_time" := JStr("3000000 day"),
      "datasets" := JArr([])]))], iso) == Err(DateOverflow)
  {
    var info := JObj(map["started_at" := JStr(start), "elapsed_time" := JStr("3000000 day"), "datasets" := JArr([])]);
    var entries := [("t", info)];
    ThreeMillionDays();
    ParseTaskOverflows(info, iso);
    assert ParseTask(info, iso) == Err(DateOverflow);
    assert entries[..0] == [];
    assert Accumulate(entries, iso) == Step(NoTallies, info, iso);
  }

  /**
   * A naive and an aware start time among the successful tasks make the
   * call raise: when the loop itself completes, it is `max(end_times)`
   * comparing the two kinds that raises `TypeError`.
   */
  lemma MixedTimesRaise(entries: seq<(string, Json)>, i: nat, j: nat, iso: IsoParser)
    requires i < |entries| && j < |entries| && !IsFailure(entries[i].1) && !IsFailure(entries[j].1)
    requires ParseTask(entries[i].1, iso).Ok? && ParseTask(entries[j].1, iso).Ok?
    requires !Aware(ParseTask(entries[i].1, iso).value.start) && Aware(ParseTask(entries[j].1, iso).value.start)
    ensures ProcessSpec(entries, iso).Err?
    ensures Accumulate(entries, iso).Ok? ==> ProcessSpec(entries, iso) == Err(CompareMixed)
  {
    AccumulateTasks(entries, iso);
    var acc := Accumulate(entries, iso);
    if acc.Ok? {
      MixedEnds(acc.value, entries[i].1, entries[j].1, iso);
    }
  }

  /** Two recorded tasks, one started naive and one aware, leave both kinds among the end times. */
  lemma MixedEnds(t: Tallies, first: Json, second: Json, iso: IsoParser)
    requires !IsFailure(first) && !IsFailure(second) && Recorded(t, first, iso) && Recorded(t, second, iso)
    requires !Aware(ParseTask(first, iso).value.start) && Aware(ParseTask(second, iso).value.start)
    ensures Mixed(t.ends)
  {
    var naive, aware := ParseTask(first, iso).value, ParseTask(second, iso).value;
    var a :| 0 <= a < |t.ends| && t.ends[a] == naive.end;
    var b :| 0 <= b < |t.ends| && t.ends[b] == aware.end;
    assert !Aware(t.ends[a]) && Aware(t.ends[b]);
  }
}
