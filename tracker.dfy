/**
 * The current revision's `track_tasks_status`: each task id is polled
 * through `retry_get_request`; a `PENDING`/`STARTED` task is re-polled,
 * after a `task_poll_interval` sleep each time, until it reports `SUCCESS`,
 * `ERROR` or `FAILURE`; the outcome of every task is stored in a results
 * map (the content of `result.json`).
 */
module Tracker {
  import opened Values
  import opened Network
  import opened Retry
  import opened Pipeline

  /** What tracking leaves behind. */
  datatype Tracking =
    | NothingToTrack                                          // an empty id list: nothing is written
    | Results(results: map<Json, Json>, completed: nat)      // the results map, by dict key, and the completion count
    | Crashed(error: string)                                  // an exception escaped the tracker

  /** `response.get("status")` on an object response. */
  function StatusOf(response: map<string, Json>): Json
  {
    GetOr(response, "status", JNull)
  }

  /** The status ends the poll loop. */
  predicate Terminal(response: map<string, Json>)
  {
    StatusOf(response) in {JStr("SUCCESS"), JStr("ERROR"), JStr("FAILURE")}
  }

  /** The status starts the poll loop. */
  predicate Waiting(response: map<string, Json>)
  {
    StatusOf(response) in {JStr("PENDING"), JStr("STARTED")}
  }

  /** What a terminal poll stores: its `result`, or a fixed note when it has none. */
  function FinalResult(response: map<string, Json>): Json
  {
    GetOr(response, "result", JStr("No result available"))
  }

  /** What an unexpected first status stores. */
  function FailureNote(response: map<string, Json>): Json
  {
    JStr("FAILURE: " + Str(GetOr(response, "message", JStr("Unknown error"))))
  }

  /** A response that is not an object makes `.get` raise. */
  const NotAnObject: string := "AttributeError: response has no attribute 'get'"

  /**
   * A GET that does not end the poll loop has read a body before the end of
   * the oracle: the `ERROR` body of an exhausted GET is terminal.
   */
  lemma PollProgress(s: Settings, net: seq<Reply>, pos: nat)
    requires var g := GetFrom(net, pos, 0, s.maxRetries, s.backoffBase); g.value.JObj? && !Terminal(g.value.fields)
    ensures var g := GetFrom(net, pos, 0, s.maxRetries, s.backoffBase); pos < g.next <= |net|
  {
    ErrorBodyIsTerminal();
    GetResult(net, pos, 0, s.maxRetries, s.backoffBase);
  }

  /** The body of an exhausted GET has the terminal status `ERROR`. */
  lemma ErrorBodyIsTerminal()
    ensures forall m :: ErrorBody(m).JObj? && Terminal(ErrorBody(m).fields)
  {
    forall m ensures ErrorBody(m).JObj? && Terminal(ErrorBody(m).fields) {
      assert StatusOf(ErrorBody(m).fields) == JStr("ERROR");
    }
  }

  /**
   * The `while True` loop from position `pos`: sleep, poll, stop on a
   * terminal status. It ends because every non-terminal poll consumes a
   * reply of the finite oracle.
   */
  function PollFrom(s: Settings, net: seq<Reply>, pos: nat): Run<Result<Json>>
    decreases |net| - pos
  {
    var g := GetFrom(net, pos, 0, s.maxRetries, s.backoffBase);
    if !g.value.JObj? then Run(Err(NotAnObject), g.next, [s.taskPollInterval] + g.waits)
    else if Terminal(g.value.fields) then Run(Ok(FinalResult(g.value.fields)), g.next, [s.taskPollInterval] + g.waits)
    else
      PollProgress(s, net, pos);
      Prepend([s.taskPollInterval] + g.waits, PollFrom(s, net, g.next))
  }

  /** The outcome stored for one task id whose first poll starts at `pos`. */
  function TaskFrom(s: Settings, net: seq<Reply>, pos: nat): Run<Result<Json>>
  {
    var g := GetFrom(net, pos, 0, s.maxRetries, s.backoffBase);
    if !g.value.JObj? then Run(Err(NotAnObject), g.next, g.waits)
    else if StatusOf(g.value.fields) == JStr("SUCCESS") then Run(Ok(GetOr(g.value.fields, "result", JNull)), g.next, g.waits)
    else if Waiting(g.value.fields) then Prepend(g.waits, PollFrom(s, net, g.next))
    else Run(Ok(FailureNote(g.value.fields)), g.next, g.waits)
  }

  /** `results[task_id] = ...` with a list or dict id. */
  const Unhashable: string := "TypeError: unhashable type"

  /**
   * The tracking loop over `ids` from `pos`, adding to `results` and
   * `completed`. An id is stored under its dict key (`True` and `1` are one
   * key); a list or dict id is polled and then raises at the assignment.
   */
  function TrackFrom(s: Settings, ids: seq<Json>, net: seq<Reply>, pos: nat, results: map<Json, Json>, completed: nat)
    : Run<Tracking>
    decreases |ids|
  {
    if ids == [] then Run(Results(results, completed), pos, [])
    else
      var t := TaskFrom(s, net, pos);
      if t.value.Err? then Run(Crashed(t.value.error), t.next, t.waits)
      else if DictKey(ids[0]).None? then Run(Crashed(Unhashable), t.next, t.waits)
      else Prepend(t.waits, TrackFrom(s, ids[1..], net, t.next, results[DictKey(ids[0]).value := t.value.value], completed + 1))
  }

  /** `track_tasks_status(task_ids)`, returning what it writes. */
  function TrackSpec(s: Settings, ids: seq<Json>, net: seq<Reply>, pos: nat): Run<Tracking>
  {
    if ids == [] then Run(NothingToTrack, pos, []) else TrackFrom(s, ids, net, pos, map[], 0)
  }

  /** The nested `while True` poll loop. */
  method PollUntilDone(s: Settings, net: seq<Reply>, pos: nat) returns (run: Run<Result<Json>>)
    ensures run == PollFrom(s, net, pos)
  {
    var p := pos;
    var waits: seq<int> := [];
    while true
      invariant PollFrom(s, net, pos) == Prepend(waits, PollFrom(s, net, p))
      decreases |net| - p
    {
      waits := waits + [s.taskPollInterval];
      var response := RetryGet(net, p, s.maxRetries, s.backoffBase);
      if !response.value.JObj? {
        return Run(Err(NotAnObject), response.next, waits + response.waits);
      }
      if Terminal(response.value.fields) {
        return Run(Ok(FinalResult(response.value.fields)), response.next, waits + response.waits);
      }
      PollProgress(s, net, p);
      assert waits + response.waits + PollFrom(s, net, response.next).waits
        == (waits[..|waits| - 1]) + ([s.taskPollInterval] + response.waits + PollFrom(s, net, response.next).waits);
      p, waits := response.next, waits + response.waits;
    }
  }

  /** One iteration of the tracking loop: the outcome for one task id. */
  method TrackTask(s: Settings, net: seq<Reply>, pos: nat) returns (run: Run<Result<Json>>)
    ensures run == TaskFrom(s, net, pos)
  {
    var response := RetryGet(net, pos, s.maxRetries, s.backoffBase);
    if !response.value.JObj? {
      return Run(Err(NotAnObject), response.next, response.waits);
    }
    var fields := response.value.fields;
    if StatusOf(fields) == JStr("SUCCESS") {
      run := Run(Ok(GetOr(fields, "result", JNull)), response.next, response.waits);
    } else if Waiting(fields) {
      var polled := PollUntilDone(s, net, response.next);
      run := Prepend(response.waits, polled);
    } else {
      run := Run(Ok(FailureNote(fields)), response.next, response.waits);
    }
  }

  /** The tracking loop over a non-empty id list is one task, then the rest. */
  lemma TrackStep(s: Settings, ids: seq<Json>, net: seq<Reply>, pos: nat, results: map<Json, Json>, completed: nat)
    requires ids != []
    ensures var t := TaskFrom(s, net, pos);
      TrackFrom(s, ids, net, pos, results, completed) ==
        if t.value.Err? then Run(Crashed(t.value.error), t.next, t.waits)
        else if DictKey(ids[0]).None? then Run(Crashed(Unhashable), t.next, t.waits)
        else Prepend(t.waits, TrackFrom(s, ids[1..], net, t.next, results[DictKey(ids[0]).value := t.value.value], completed + 1))
  {
  }

  /** `track_tasks_status(task_ids)`: fills `results` in place, one entry per id. */
  method TrackTasksStatus(s: Settings, ids: seq<Json>, net: seq<Reply>, pos: nat) returns (run: Run<Tracking>)
    ensures run == TrackSpec(s, ids, net, pos)
  {
    if ids == [] {
      return Run(NothingToTrack, pos, []);
    }
    var results: map<Json, Json> := map[];
    var completed: nat := 0;
    var p := pos;
    var waits: seq<int> := [];
    var i := 0;
    assert ids[0..] == ids;
    while i < |ids|
      invariant 0 <= i <= |ids|
      invariant TrackSpec(s, ids, net, pos) == Prepend(waits, TrackFrom(s, ids[i..], net, p, results, completed))
    {
      var outcome := TrackTask(s, net, p);
      TrackStep(s, ids[i..], net, p, results, completed);
      assert ids[i..][1..] == ids[i + 1..];
      if outcome.value.Err? {
        return Run(Crashed(outcome.value.error), outcome.next, waits + outcome.waits);
      }
      var key := DictKey(ids[i]);
      if key.None? {
        return Run(Crashed(Unhashable), outcome.next, waits + outcome.waits);
      }
      PrependTwice(waits, outcome.waits,
        TrackFrom(s, ids[i + 1..], net, outcome.next, results[key.value := outcome.value.value], completed + 1));
      results := results[key.value := outcome.value.value];
      completed := completed + 1;
      p, waits := outcome.next, waits + outcome.waits;
      i := i + 1;
    }
    assert waits + [] == waits;
    run := Run(Results(results, completed), p, waits);
  }

  /**
   * A completed run has stored every id under its dict key: the keys are
   * those of the ids (a repeated id, or `True` after `1`, keeps the last
   * outcome), no id was a list or dict, and the completion count is the
   * number of ids polled.
   */
  lemma {:induction false} TrackedKeys(s: Settings, ids: seq<Json>, net: seq<Reply>, pos: nat,
                                       results: map<Json, Json>, completed: nat)
    ensures var r := TrackFrom(s, ids, net, pos, results, completed).value;
      r.Results? ==>
        (forall i :: 0 <= i < |ids| ==> DictKey(ids[i]).Some?) &&
        r.results.Keys == results.Keys + (set i | 0 <= i < |ids| && DictKey(ids[i]).Some? :: DictKey(ids[i]).value) &&
        r.completed == completed + |ids|
    decreases |ids|
  {
    if ids != [] {
      var t := TaskFrom(s, net, pos);
      if t.value.Ok? && DictKey(ids[0]).Some? {
        TrackedKeys(s, ids[1..], net, t.next, results[DictKey(ids[0]).value := t.value.value], completed + 1);
        KeysOfTail(ids);
      }
    }
  }

  /** The dict keys of a non-empty id list: those of its head and of its tail. */
  lemma KeysOfTail(ids: seq<Json>)
    requires ids != [] && DictKey(ids[0]).Some?
    ensures (set i | 0 <= i < |ids| && DictKey(ids[i]).Some? :: DictKey(ids[i]).value)
      == {DictKey(ids[0]).value} + (set i | 0 <= i < |ids[1..]| && DictKey(ids[1..][i]).Some? :: DictKey(ids[1..][i]).value)
  {
    var rest := set i | 0 <= i < |ids[1..]| && DictKey(ids[1..][i]).Some? :: DictKey(ids[1..][i]).value;
    var all := set i | 0 <= i < |ids| && DictKey(ids[i]).Some? :: DictKey(ids[i]).value;
    forall x | x in all ensures x in {DictKey(ids[0]).value} + rest {
      var i :| 0 <= i < |ids| && DictKey(ids[i]).Some? && DictKey(ids[i]).value == x;
      if i > 0 { assert ids[1..][i - 1] == ids[i]; }
    }
    forall x | x in rest ensures x in all {
      var i :| 0 <= i < |ids[1..]| && DictKey(ids[1..][i]).Some? && DictKey(ids[1..][i]).value == x;
      assert ids[i + 1] == ids[1..][i];
    }
  }

  /** An id that is a list or a dict is polled, then the assignment raises and tracking stops. */
  lemma UnhashableIdCrashes(s: Settings, ids: seq<Json>, net: seq<Reply>, pos: nat, results: map<Json, Json>, completed: nat)
    requires ids != [] && (ids[0].JArr? || ids[0].JObj?)
    requires TaskFrom(s, net, pos).value.Ok?
    ensures TrackFrom(s, ids, net, pos, results, completed) ==
      Run(Crashed(Unhashable), TaskFrom(s, net, pos).next, TaskFrom(s, net, pos).waits)
  {
  }

  /** Ids `1` and `True` share one entry, holding the later outcome. */
  lemma OneAndTrueShareAKey(s: Settings, net: seq<Reply>, pos: nat)
    ensures var r := TrackFrom(s, [JInt(1), JBool(true)], net, pos, map[], 0).value;
      r.Results? ==> r.results.Keys == {JInt(1)} && r.completed == 2
  {
    var ids := [JInt(1), JBool(true)];
    TrackedKeys(s, ids, net, pos, map[], 0);
    var keys := set i | 0 <= i < |ids| && DictKey(ids[i]).Some? :: DictKey(ids[i]).value;
    assert DictKey(ids[0]).value == JInt(1) && DictKey(ids[1]).value == JInt(1);
    assert keys == {JInt(1)};
  }

  /** With nothing to track nothing is read, slept or written. */
  lemma NoTasksNoCalls(s: Settings, net: seq<Reply>, pos: nat)
    ensures TrackSpec(s, [], net, pos) == Run(NothingToTrack, pos, [])
  {
  }

  /** `SUCCESS` on the first poll stores the response's `result` (Python's `None` when absent). */
  lemma SuccessOnFirstPoll(s: Settings, net: seq<Reply>, pos: nat, response: map<string, Json>)
    requires s.maxRetries >= 0 && At(net, pos) == Body(JObj(response))
    requires StatusOf(response) == JStr("SUCCESS")
    ensures TaskFrom(s, net, pos) == Run(Ok(GetOr(response, "result", JNull)), pos + 1, [])
  {
  }

  /** Any status other than the five known ones stores the failure note with the response's message. */
  lemma UnknownFirstStatus(s: Settings, net: seq<Reply>, pos: nat, response: map<string, Json>)
    requires s.maxRetries >= 0 && At(net, pos) == Body(JObj(response))
    requires StatusOf(response) !in {JStr("SUCCESS"), JStr("PENDING"), JStr("STARTED")}
    ensures TaskFrom(s, net, pos) == Run(Ok(FailureNote(response)), pos + 1, [])
  {
  }

  /** A response is still pending. */
  predicate Pending(reply: Reply)
  {
    reply.Body? && reply.body.JObj? && !Terminal(reply.body.fields)
  }

  /**
   * `n` non-terminal polls followed by a terminal one: `n + 1` polls, each
   * preceded by a poll-interval sleep, and the terminal poll's result stored.
   */
  lemma {:induction false} PollAfterPending(s: Settings, net: seq<Reply>, pos: nat, n: nat, last: map<string, Json>)
    requires s.maxRetries >= 0
    requires forall q :: pos <= q < pos + n ==> Pending(At(net, q))
    requires At(net, pos + n) == Body(JObj(last)) && Terminal(last)
    ensures PollFrom(s, net, pos) == Run(Ok(FinalResult(last)), pos + n + 1, Repeat(s.taskPollInterval, n + 1))
    decreases n
  {
    if n > 0 {
      PollAfterPending(s, net, pos + 1, n - 1, last);
      assert Repeat(s.taskPollInterval, n + 1) == [s.taskPollInterval] + Repeat(s.taskPollInterval, n);
    }
  }

  /** PENDING, PENDING, SUCCESS: three polls and two poll-interval sleeps. */
  lemma PendingPendingSuccess(s: Settings, net: seq<Reply>, pos: nat, p1: map<string, Json>, p2: map<string, Json>,
                              done: map<string, Json>)
    requires s.maxRetries >= 0
    requires At(net, pos) == Body(JObj(p1)) && StatusOf(p1) == JStr("PENDING")
    requires At(net, pos + 1) == Body(JObj(p2)) && StatusOf(p2) == JStr("PENDING")
    requires At(net, pos + 2) == Body(JObj(done)) && StatusOf(done) == JStr("SUCCESS")
    ensures TaskFrom(s, net, pos) == Run(Ok(FinalResult(done)), pos + 3, [s.taskPollInterval, s.taskPollInterval])
  {
    PollAfterPending(s, net, pos + 1, 1, done);
  }

  /**
   * A status that cannot be fetched at all (the oracle is silent) is stored
   * as a failure note carrying the GET's last error, after the backoff sleeps.
   */
  lemma SilentStatusService(s: Settings, net: seq<Reply>, pos: nat)
    requires s.maxRetries >= 0 && pos >= |net|
    ensures TaskFrom(s, net, pos) ==
      Run(Ok(JStr("FAILURE: no response")), pos + s.maxRetries + 1, Backoffs(s.backoffBase, 0, s.maxRetries))
  {
    GetExhausted(net, pos, 0, s.maxRetries, s.backoffBase);
    var e := ErrorBody("no response");
    assert GetFrom(net, pos, 0, s.maxRetries, s.backoffBase).value == e;
    assert StatusOf(e.fields) == JStr("ERROR");
    assert !Waiting(e.fields);
    assert FailureNote(e.fields) == JStr("FAILURE: " + "no response");
    assert "FAILURE: " + "no response" == "FAILURE: no response";
  }
}
