/**
 * The earlier revision's `track_tasks_status`: each task id is polled once,
 * and once more after a 30-second pause when the first poll says
 * `PENDING` or `STARTED`; whatever is not a `SUCCESS` is stored as the
 * literal `FAILURE`. Its GET swallows request errors into `{}`, on which the
 * tracker's `response['status']` raises.
 */
module LegacyTracker {
  import opened Values
  import opened Network
  import opened Legacy

  /** `retry_get_request`: the body, or `{}` when the request fails. */
  function Poll(reply: Reply): Json
  {
    if reply.Body? then reply.body else JObj(map[])
  }

  /** `response['status']` succeeds. */
  predicate HasStatus(response: Json)
  {
    response.JObj? && "status" in response.fields
  }

  /** The outcome of a poll whose status is `SUCCESS`: its `result`, or the `KeyError` of a missing one. */
  function ResultOf(response: Json): Result<Json>
    requires HasStatus(response)
  {
    if "result" in response.fields then Ok(response.fields["result"]) else Err("KeyError: 'result'")
  }

  /** The outcome stored for one task whose first poll reads reply `pos`. */
  function TaskFrom(net: seq<Reply>, pos: nat): Run<Result<Json>>
  {
    var first := Poll(At(net, pos));
    if !HasStatus(first) then Run(Err("KeyError: 'status'"), pos + 1, [])
    else if first.fields["status"] == JStr("SUCCESS") then Run(ResultOf(first), pos + 1, [])
    else if first.fields["status"] in {JStr("PENDING"), JStr("STARTED")} then
      var second := Poll(At(net, pos + 1));
      if !HasStatus(second) then Run(Err("KeyError: 'status'"), pos + 2, [PollPause])
      else if second.fields["status"] == JStr("SUCCESS") then Run(ResultOf(second), pos + 2, [PollPause])
      else Run(Ok(JStr("FAILURE")), pos + 2, [PollPause])
    else Run(Ok(JStr("FAILURE")), pos + 1, [])
  }

  /** `results[task_id] = ...` with a list or dict id. */
  const Unhashable: string := "TypeError: unhashable type"

  /**
   * The loop over the ids from `pos`, adding to `results`. An id is stored
   * under its dict key (`True` and `1` are one key); a list or dict id is
   * polled and then raises at the assignment.
   */
  function TrackFrom(ids: seq<Json>, net: seq<Reply>, pos: nat, results: map<Json, Json>): Run<Result<map<Json, Json>>>
    decreases |ids|
  {
    if ids == [] then Run(Ok(results), pos, [])
    else
      var t := TaskFrom(net, pos);
      if t.value.Err? then Run(Err(t.value.error), t.next, t.waits)
      else if DictKey(ids[0]).None? then Run(Err(Unhashable), t.next, t.waits)
      else Prepend(t.waits, TrackFrom(ids[1..], net, t.next, results[DictKey(ids[0]).value := t.value.value]))
  }

  /** One iteration of the tracking loop. */
  method TrackTask(net: seq<Reply>, p: nat) returns (run: Run<Result<Json>>)
    ensures run == TaskFrom(net, p)
  {
    var response := Poll(At(net, p));
    if !HasStatus(response) {
      run := Run(Err("KeyError: 'status'"), p + 1, []);
    } else if response.fields["status"] == JStr("SUCCESS") {
      run := Run(ResultOf(response), p + 1, []);
    } else if response.fields["status"] in {JStr("PENDING"), JStr("STARTED")} {
      response := Poll(At(net, p + 1));
      if !HasStatus(response) {
        run := Run(Err("KeyError: 'status'"), p + 2, [PollPause]);
      } else if response.fields["status"] == JStr("SUCCESS") {
        run := Run(ResultOf(response), p + 2, [PollPause]);
      } else {
        run := Run(Ok(JStr("FAILURE")), p + 2, [PollPause]);
      }
    } else {
      run := Run(Ok(JStr("FAILURE")), p + 1, []);
    }
  }

  /** The loop over a non-empty id list is one task, then the rest. */
  lemma TrackStep(ids: seq<Json>, net: seq<Reply>, pos: nat, results: map<Json, Json>)
    requires ids != []
    ensures var t := TaskFrom(net, pos);
      TrackFrom(ids, net, pos, results) ==
        if t.value.Err? then Run(Err(t.value.error), t.next, t.waits)
        else if DictKey(ids[0]).None? then Run(Err(Unhashable), t.next, t.waits)
        else Prepend(t.waits, TrackFrom(ids[1..], net, t.next, results[DictKey(ids[0]).value := t.value.value]))
  {
  }

  /** `track_tasks_status(task_ids)`, returning what it writes to `result.json`. */
  method TrackTasksStatus(ids: seq<Json>, net: seq<Reply>, pos: nat) returns (run: Run<Result<map<Json, Json>>>)
    ensures run == TrackFrom(ids, net, pos, map[])
  {
    var results: map<Json, Json> := map[];
    var p := pos;
    var waits: seq<int> := [];
    var i := 0;
    assert ids[0..] == ids;
    while i < |ids|
      invariant 0 <= i <= |ids|
      invariant TrackFrom(ids, net, pos, map[]) == Prepend(waits, TrackFrom(ids[i..], net, p, results))
    {
      var outcome := TrackTask(net, p);
      TrackStep(ids[i..], net, p, results);
      assert ids[i..][1..] == ids[i + 1..];
      if outcome.value.Err? {
        return Run(Err(outcome.value.error), outcome.next, waits + outcome.waits);
      }
      var key := DictKey(ids[i]);
      if key.None? {
        return Run(Err(Unhashable), outcome.next, waits + outcome.waits);
      }
      PrependTwice(waits, outcome.waits, TrackFrom(ids[i + 1..], net, outcome.next, results[key.value := outcome.value.value]));
      results := results[key.value := outcome.value.value];
      p, waits := outcome.next, waits + outcome.waits;
      i := i + 1;
    }
    assert waits + [] == waits;
    run := Run(Ok(results), p, waits);
  }

  /**
   * At most two polls and one 30-second pause per task; anything stored is
   * either `FAILURE` or the `result` of a `SUCCESS` reply read for it.
   */
  lemma TaskBounds(net: seq<Reply>, pos: nat)
    ensures var t := TaskFrom(net, pos);
      pos < t.next <= pos + 2 && (t.waits == [] || t.waits == [PollPause]) &&
      (t.value.Ok? ==> (t.value.value == JStr("FAILURE") ||
        (HasStatus(Poll(At(net, t.next - 1))) && Poll(At(net, t.next - 1)).fields["status"] == JStr("SUCCESS") &&
         ResultOf(Poll(At(net, t.next - 1))) == t.value)))
  {
  }

  /** A failed status request (swallowed into `{}`) makes the tracker raise. */
  lemma FailedPollRaises(net: seq<Reply>, pos: nat)
    requires !At(net, pos).Body?
    ensures TaskFrom(net, pos).value.Err?
  {
  }

  /**
   * A completed run has stored every id under its dict key: no id was a list
   * or dict, and the keys are those of the ids (a repeated id, or `True`
   * after `1`, keeps the last outcome). An empty id list writes an empty map
   * and reads nothing.
   */
  lemma {:induction false} TrackedKeys(ids: seq<Json>, net: seq<Reply>, pos: nat, results: map<Json, Json>)
    ensures var r := TrackFrom(ids, net, pos, results);
      r.value.Ok? ==>
        (forall i :: 0 <= i < |ids| ==> DictKey(ids[i]).Some?) &&
        r.value.value.Keys == results.Keys + (set i | 0 <= i < |ids| && DictKey(ids[i]).Some? :: DictKey(ids[i]).value)
    ensures ids == [] ==> TrackFrom(ids, net, pos, results) == Run(Ok(results), pos, [])
    decreases |ids|
  {
    if ids != [] {
      var t := TaskFrom(net, pos);
      if t.value.Ok? && DictKey(ids[0]).Some? {
        TrackedKeys(ids[1..], net, t.next, results[DictKey(ids[0]).value := t.value.value]);
        var rest := set i | 0 <= i < |ids[1..]| && DictKey(ids[1..][i]).Some? :: DictKey(ids[1..][i]).value;
        var all := set i | 0 <= i < |ids| && DictKey(ids[i]).Some? :: DictKey(ids[i]).value;
        assert all == {DictKey(ids[0]).value} + rest by {
          forall x | x in all ensures x in {DictKey(ids[0]).value} + rest {
            var i :| 0 <= i < |ids| && DictKey(ids[i]).Some? && DictKey(ids[i]).value == x;
            if i > 0 { assert ids[1..][i - 1] == ids[i]; }
          }
          forall x | x in rest ensures x in all {
            var i :| 0 <= i < |ids[1..]| && DictKey(ids[1..][i]).Some? && DictKey(ids[1..][i]).value == x;
            assert ids[i + 1] == ids[1..][i];
          }
        }
      }
    }
  }

  /** An id that is a list or a dict is polled, then the assignment raises. */
  lemma UnhashableIdRaises(ids: seq<Json>, net: seq<Reply>, pos: nat, results: map<Json, Json>)
    requires ids != [] && (ids[0].JArr? || ids[0].JObj?)
    requires TaskFrom(net, pos).value.Ok?
    ensures TrackFrom(ids, net, pos, results) == Run(Err(Unhashable), TaskFrom(net, pos).next, TaskFrom(net, pos).waits)
  {
  }
}
