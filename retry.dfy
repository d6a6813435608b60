/**
 * The bounded attempt loops of the current `ProjectProcessor`: the POST
 * submission, the status GET, and the two project-service lookups. Each is
 * specified by a recursive function over the attempt number (the `...From`
 * functions) and implemented by the loop the source has; the lemmas state
 * attempt counts, wait schedules and results.
 */
module Retry {
  import opened Values
  import opened Network

  /** `retry_post_request`'s own default `max_retries`; `process_project` relies on it. */
  const DefaultPostRetries: int := 3

  /**
   * How a 2xx body ends a POST attempt: `"task_id" not in result` and
   * `result["task_id"]` settle the call with the id or with `None`, unless
   * either raises `TypeError` (a `None`, number or bool body, or a string or
   * list that holds "task_id"), which fails the attempt like any exception.
   */
  predicate Settles(body: Json)
  {
    !Probe(body, "task_id").Raises?
  }

  /** The value a settling body makes `retry_post_request` return. */
  function TaskIdOf(body: Json): (r: Json)
    requires Settles(body)
    ensures body.JObj? && "task_id" in body.fields ==> r == body.fields["task_id"]
    ensures !(body.JObj? && "task_id" in body.fields) ==> r == JNull
  {
    if Probe(body, "task_id").Present? then Probe(body, "task_id").value else JNull
  }

  /** A reply that fails the attempt through the generic `except Exception` branch. */
  predicate FailsAttempt(reply: Reply)
  {
    reply.Failure? || (reply.Body? && !Settles(reply.body))
  }

  predicate RateLimited(status: int)
  {
    status == 429 || status == 502
  }

  // ---------------------------------------------------------------- POST

  /** `retry_post_request` from attempt `attempt` on, reading replies from `pos`. */
  function PostFrom(net: seq<Reply>, pos: nat, attempt: nat, maxRetries: int,
                    rateLimitWait: int, backoffBase: int): Run<Json>
    decreases maxRetries + 1 - attempt
  {
    if attempt > maxRetries then Run(JNull, pos, [])
    else match At(net, pos)
      case HttpError(status, _) =>
        if RateLimited(status) && attempt < maxRetries then
          Prepend([rateLimitWait], PostFrom(net, pos + 1, attempt + 1, maxRetries, rateLimitWait, backoffBase))
        else if attempt == maxRetries then Run(JNull, pos + 1, [])
        else PostFrom(net, pos + 1, attempt + 1, maxRetries, rateLimitWait, backoffBase)
      case Body(body) =>
        if Settles(body) then Run(TaskIdOf(body), pos + 1, [])
        else if attempt < maxRetries then
          Prepend([Pow(backoffBase, attempt)], PostFrom(net, pos + 1, attempt + 1, maxRetries, rateLimitWait, backoffBase))
        else Run(JNull, pos + 1, [])
      case Failure(_) =>
        if attempt < maxRetries then
          Prepend([Pow(backoffBase, attempt)], PostFrom(net, pos + 1, attempt + 1, maxRetries, rateLimitWait, backoffBase))
        else Run(JNull, pos + 1, [])
  }

  /** One attempt of the POST loop, then the attempts after it. */
  lemma PostStep(net: seq<Reply>, pos: nat, attempt: nat, maxRetries: int, w: int, b: int)
    requires attempt <= maxRetries
    ensures var reply := At(net, pos); var rest := PostFrom(net, pos + 1, attempt + 1, maxRetries, w, b);
      PostFrom(net, pos, attempt, maxRetries, w, b) ==
        if reply.HttpError? then
          if RateLimited(reply.status) && attempt < maxRetries then Prepend([w], rest)
          else if attempt == maxRetries then Run(JNull, pos + 1, [])
          else rest
        else if reply.Body? && Settles(reply.body) then Run(TaskIdOf(reply.body), pos + 1, [])
        else if attempt < maxRetries then Prepend([Pow(b, attempt)], rest)
        else Run(JNull, pos + 1, [])
  {
  }

  /** `retry_post_request(request_config, max_retries)`. */
  method RetryPost(net: seq<Reply>, pos: nat, maxRetries: int, rateLimitWait: int, backoffBase: int)
    returns (run: Run<Json>)
    ensures run == PostFrom(net, pos, 0, maxRetries, rateLimitWait, backoffBase)
  {
    var attempt: nat := 0;
    var p := pos;
    var waits: seq<int> := [];
    while attempt <= maxRetries
      invariant p == pos + attempt
      invariant PostFrom(net, pos, 0, maxRetries, rateLimitWait, backoffBase)
        == Prepend(waits, PostFrom(net, p, attempt, maxRetries, rateLimitWait, backoffBase))
      decreases maxRetries + 1 - attempt
    {
      var reply := At(net, p);
      PostStep(net, p, attempt, maxRetries, rateLimitWait, backoffBase);
      ghost var rest := PostFrom(net, p + 1, attempt + 1, maxRetries, rateLimitWait, backoffBase);
      if reply.HttpError? {
        if RateLimited(reply.status) && attempt < maxRetries {
          PrependTwice(waits, [rateLimitWait], rest);
          waits := waits + [rateLimitWait];
        } else if attempt == maxRetries {
          return Run(JNull, p + 1, waits);
        }
      } else if reply.Body? && Settles(reply.body) {
        return Run(TaskIdOf(reply.body), p + 1, waits);
      } else if attempt < maxRetries {
        // a failure, or a body on which the `task_id` test raised
        PrependTwice(waits, [Pow(backoffBase, attempt)], rest);
        waits := waits + [Pow(backoffBase, attempt)];
      } else {
        return Run(JNull, p + 1, waits);
      }
      p, attempt := p + 1, attempt + 1;
    }
    run := Run(JNull, p, waits);
  }

  /**
   * At most `max_retries + 1` attempts, one reply each, and a sleep only
   * between two attempts.
   */
  lemma {:induction false} PostBounds(net: seq<Reply>, pos: nat, attempt: nat, maxRetries: int, w: int, b: int)
    requires attempt <= maxRetries
    ensures var r := PostFrom(net, pos, attempt, maxRetries, w, b);
      pos < r.next <= pos + maxRetries + 1 - attempt && |r.waits| < r.next - pos
    decreases maxRetries + 1 - attempt
  {
    if attempt < maxRetries {
      PostBounds(net, pos + 1, attempt + 1, maxRetries, w, b);
    }
  }

  /**
   * A task id is returned only from a dict body that carries it, that reply
   * is the last one read, and no earlier reply settled the call.
   */
  lemma {:induction false} PostResultFromBody(net: seq<Reply>, pos: nat, attempt: nat, maxRetries: int, w: int, b: int)
    ensures var r := PostFrom(net, pos, attempt, maxRetries, w, b);
      r.value != JNull ==>
        r.next > pos && At(net, r.next - 1).Body? && At(net, r.next - 1).body.JObj? &&
        "task_id" in At(net, r.next - 1).body.fields && At(net, r.next - 1).body.fields["task_id"] == r.value &&
        forall q :: pos <= q < r.next - 1 ==> !(At(net, q).Body? && Settles(At(net, q).body))
    decreases maxRetries + 1 - attempt
  {
    if attempt <= maxRetries && !(At(net, pos).Body? && Settles(At(net, pos).body)) {
      PostResultFromBody(net, pos + 1, attempt + 1, maxRetries, w, b);
    }
  }

  /**
   * `n` rate-limit replies (429 or 502) followed by a settling body: `n`
   * waits of `rate_limit_wait`, then the body's task id (or `None` at once
   * when the dict lacks one), provided `n <= max_retries`.
   */
  lemma {:induction false} PostAfterRateLimits(net: seq<Reply>, pos: nat, attempt: nat, n: nat, maxRetries: int, w: int, b: int)
    requires attempt + n <= maxRetries
    requires forall q :: pos <= q < pos + n ==> At(net, q).HttpError? && RateLimited(At(net, q).status)
    requires At(net, pos + n).Body? && Settles(At(net, pos + n).body)
    ensures PostFrom(net, pos, attempt, maxRetries, w, b) ==
      Run(TaskIdOf(At(net, pos + n).body), pos + n + 1, Repeat(w, n))
    decreases n
  {
    if n > 0 {
      PostAfterRateLimits(net, pos + 1, attempt + 1, n - 1, maxRetries, w, b);
    }
  }

  /**
   * A body on which the `task_id` test or lookup raises is a failed attempt:
   * before the last attempt it sleeps `backoff_base ** attempt` and retries,
   * on the last one it gives `None`.
   */
  lemma PostRetriesRaisingBody(net: seq<Reply>, pos: nat, attempt: nat, maxRetries: int, w: int, b: int)
    requires attempt <= maxRetries && At(net, pos).Body? && !Settles(At(net, pos).body)
    ensures attempt < maxRetries ==>
      PostFrom(net, pos, attempt, maxRetries, w, b) ==
        Prepend([Pow(b, attempt)], PostFrom(net, pos + 1, attempt + 1, maxRetries, w, b))
    ensures attempt == maxRetries ==> PostFrom(net, pos, attempt, maxRetries, w, b) == Run(JNull, pos + 1, [])
  {
  }

  /** An empty (`None`) body and then a proper reply: one backoff sleep of `2 ** 0`, then the id. */
  lemma PostNullThenTaskId(w: int)
    ensures PostFrom([Body(JNull), Body(JObj(map["task_id" := JStr("t1")]))], 0, 0, 3, w, 2)
      == Run(JStr("t1"), 2, [1])
  {
    var net := [Body(JNull), Body(JObj(map["task_id" := JStr("t1")]))];
    PostRetriesRaisingBody(net, 0, 0, 3, w, 2);
    assert PostFrom(net, 1, 1, 3, w, 2) == Run(JStr("t1"), 2, []);
  }

  /** A string body that mentions "task_id" raises at `result["task_id"]` and is retried too. */
  lemma PostStringBodyRaises()
    ensures !Settles(JStr("no task_id here"))
  {
    ContainsWitness("no task_id here", "task_id", 3);
  }

  /**
   * Only failed attempts, all the way: `None`, after `max_retries + 1`
   * attempts and the backoff sleeps `base ** 0 .. base ** (max_retries - 1)`.
   */
  lemma {:induction false} PostExhausted(net: seq<Reply>, pos: nat, attempt: nat, maxRetries: int, w: int, b: int)
    requires attempt <= maxRetries
    requires forall q :: pos <= q <= pos + maxRetries - attempt ==> FailsAttempt(At(net, q))
    ensures PostFrom(net, pos, attempt, maxRetries, w, b) ==
      Run(JNull, pos + maxRetries + 1 - attempt, Backoffs(b, attempt, maxRetries - attempt))
    decreases maxRetries + 1 - attempt
  {
    if attempt < maxRetries {
      PostExhausted(net, pos + 1, attempt + 1, maxRetries, w, b);
    }
  }

  /**
   * An HTTP error other than 429/502 is retried at once, with no sleep; on
   * the final attempt any HTTP error ends the loop with `None`.
   */
  lemma PostOtherHttpError(net: seq<Reply>, pos: nat, attempt: nat, maxRetries: int, w: int, b: int)
    requires attempt <= maxRetries && At(net, pos).HttpError?
    ensures !RateLimited(At(net, pos).status) && attempt < maxRetries ==>
      PostFrom(net, pos, attempt, maxRetries, w, b) == PostFrom(net, pos + 1, attempt + 1, maxRetries, w, b)
    ensures attempt == maxRetries ==> PostFrom(net, pos, attempt, maxRetries, w, b) == Run(JNull, pos + 1, [])
  {
  }

  // ---------------------------------------------------------------- GET

  /** The body `retry_get_request` returns when every attempt failed. */
  function ErrorBody(message: string): Json
  {
    JObj(map["status" := JStr("ERROR"), "message" := JStr(message)])
  }

  /** `retry_get_request` from attempt `attempt` on. */
  function GetFrom(net: seq<Reply>, pos: nat, attempt: nat, maxRetries: int, backoffBase: int): Run<Json>
    decreases maxRetries + 1 - attempt
  {
    if attempt > maxRetries then Run(JNull, pos, [])
    else match At(net, pos)
      case Body(body) => Run(body, pos + 1, [])
      case _ =>
        if attempt < maxRetries then
          Prepend([Pow(backoffBase, attempt)], GetFrom(net, pos + 1, attempt + 1, maxRetries, backoffBase))
        else Run(ErrorBody(At(net, pos).message), pos + 1, [])
  }

  /** `retry_get_request(url)` with the processor's `max_retries`. */
  method RetryGet(net: seq<Reply>, pos: nat, maxRetries: int, backoffBase: int) returns (run: Run<Json>)
    ensures run == GetFrom(net, pos, 0, maxRetries, backoffBase)
  {
    var attempt: nat := 0;
    var p := pos;
    var waits: seq<int> := [];
    while attempt <= maxRetries
      invariant p == pos + attempt
      invariant GetFrom(net, pos, 0, maxRetries, backoffBase)
        == Prepend(waits, GetFrom(net, p, attempt, maxRetries, backoffBase))
      decreases maxRetries + 1 - attempt
    {
      var reply := At(net, p);
      if reply.Body? {
        return Run(reply.body, p + 1, waits);
      }
      if attempt < maxRetries {
        waits := waits + [Pow(backoffBase, attempt)];
      } else {
        return Run(ErrorBody(reply.message), p + 1, waits);
      }
      p, attempt := p + 1, attempt + 1;
    }
    run := Run(JNull, p, waits);
  }

  /**
   * `k` failed attempts followed by a body: the body, after the backoff
   * sleeps `base ** attempt ..` of those `k` attempts.
   */
  lemma {:induction false} GetAfterFailures(net: seq<Reply>, pos: nat, attempt: nat, k: nat, maxRetries: int, b: int)
    requires attempt + k <= maxRetries
    requires forall q :: pos <= q < pos + k ==> !At(net, q).Body?
    requires At(net, pos + k).Body?
    ensures GetFrom(net, pos, attempt, maxRetries, b) == Run(At(net, pos + k).body, pos + k + 1, Backoffs(b, attempt, k))
    decreases k
  {
    if k > 0 {
      GetAfterFailures(net, pos + 1, attempt + 1, k - 1, maxRetries, b);
    }
  }

  /**
   * `max_retries + 1` failed attempts: an `ERROR` body carrying the last
   * exception's message, after the backoff sleeps between them.
   */
  lemma {:induction false} GetExhausted(net: seq<Reply>, pos: nat, attempt: nat, maxRetries: int, b: int)
    requires attempt <= maxRetries
    requires forall q :: pos <= q <= pos + maxRetries - attempt ==> !At(net, q).Body?
    ensures GetFrom(net, pos, attempt, maxRetries, b) ==
      Run(ErrorBody(At(net, pos + maxRetries - attempt).message), pos + maxRetries + 1 - attempt,
          Backoffs(b, attempt, maxRetries - attempt))
    decreases maxRetries + 1 - attempt
  {
    if attempt < maxRetries {
      GetExhausted(net, pos + 1, attempt + 1, maxRetries, b);
    }
  }

  /** A GET returns either a reply body read at or after `pos`, or the `ERROR` body. */
  lemma {:induction false} GetResult(net: seq<Reply>, pos: nat, attempt: nat, maxRetries: int, b: int)
    requires attempt <= maxRetries
    ensures var r := GetFrom(net, pos, attempt, maxRetries, b);
      pos < r.next <= pos + maxRetries + 1 - attempt && |r.waits| < r.next - pos &&
      ((At(net, r.next - 1).Body? && r.value == At(net, r.next - 1).body) ||
       (!At(net, r.next - 1).Body? && r.value == ErrorBody(At(net, r.next - 1).message)))
    decreases maxRetries + 1 - attempt
  {
    if attempt < maxRetries && !At(net, pos).Body? {
      GetResult(net, pos + 1, attempt + 1, maxRetries, b);
    }
  }

  // ------------------------------------------------- project lookups

  /** `all(key in result for key in ["mappingTypes", "areaOfInterest"])` on an object reply. */
  predicate HasProjectFields(body: Json)
  {
    body.JObj? && "mappingTypes" in body.fields && "areaOfInterest" in body.fields
  }

  /**
   * `all(key in result for key in ["mappingTypes", "areaOfInterest"])` is
   * false without raising: a reply that lacks a name (a dict without the
   * key, a string without the substring, a list without the element), the
   * second name tested only when the first is there.
   */
  predicate LacksProjectFields(body: Json)
  {
    Membership("mappingTypes", body) == Some(false)
    || (Membership("mappingTypes", body) == Some(true) && Membership("areaOfInterest", body) == Some(false))
  }

  /**
   * A reply on which the field test or the indexing after it raises: `None`,
   * a number or a bool fails at `in`, and a string or list holding both
   * names fails at `result["mappingTypes"]`. Every reply is exactly one of
   * complete, lacking or raising.
   */
  lemma ProjectFieldsRaise(body: Json)
    ensures !HasProjectFields(body) && !LacksProjectFields(body) <==>
      Membership("mappingTypes", body).None? ||
      (!body.JObj? && Membership("mappingTypes", body) == Some(true) && Membership("areaOfInterest", body) == Some(true))
    ensures !(HasProjectFields(body) && LacksProjectFields(body))
  {
  }

  /** `"features" in data` on an object reply. */
  predicate HasFeatures(body: Json)
  {
    body.JObj? && "features" in body.fields
  }

  /** The feature `get_project_details` builds from a complete project reply. */
  function ProjectFeature(projectId: Json, body: Json): Json
    requires HasProjectFields(body)
  {
    JObj(map[
      "type" := JStr("Feature"),
      "properties" := JObj(map["mapping_types" := body.fields["mappingTypes"], "project_id" := projectId]),
      "geometry" := body.fields["areaOfInterest"]])
  }

  /** `get_project_details` from attempt `retry` on. */
  function DetailsFrom(net: seq<Reply>, pos: nat, retry: nat, maxRetries: int, backoffBase: int, projectId: Json)
    : Run<Option<Json>>
    decreases maxRetries - retry
  {
    if retry >= maxRetries then Run(None, pos, [])
    else match At(net, pos)
      case Body(body) =>
        if HasProjectFields(body) then Run(Some(ProjectFeature(projectId, body)), pos + 1, [])
        else if LacksProjectFields(body) then DetailsFrom(net, pos + 1, retry + 1, maxRetries, backoffBase, projectId)
        else Prepend([Pow(backoffBase, retry)], DetailsFrom(net, pos + 1, retry + 1, maxRetries, backoffBase, projectId))
      case HttpError(404, _) => Run(None, pos + 1, [])
      case _ => Prepend([Pow(backoffBase, retry)], DetailsFrom(net, pos + 1, retry + 1, maxRetries, backoffBase, projectId))
  }

  /** `get_project_details(project_id)`. */
  method GetProjectDetails(net: seq<Reply>, pos: nat, maxRetries: int, backoffBase: int, projectId: Json)
    returns (run: Run<Option<Json>>)
    ensures run == DetailsFrom(net, pos, 0, maxRetries, backoffBase, projectId)
  {
    var retry: nat := 0;
    var p := pos;
    var waits: seq<int> := [];
    while retry < maxRetries
      invariant p == pos + retry
      invariant DetailsFrom(net, pos, 0, maxRetries, backoffBase, projectId)
        == Prepend(waits, DetailsFrom(net, p, retry, maxRetries, backoffBase, projectId))
      decreases maxRetries - retry
    {
      var reply := At(net, p);
      DetailsRetryPolicy(net, p, retry, maxRetries, backoffBase, projectId);
      if reply.Body? && HasProjectFields(reply.body) {
        return Run(Some(ProjectFeature(projectId, reply.body)), p + 1, waits);
      } else if reply.Body? && LacksProjectFields(reply.body) {
        // missing fields: `continue`, skipping the sleep
      } else if reply.HttpError? && reply.status == 404 {
        DetailsNotFound(net, p, retry, maxRetries, backoffBase, projectId, reply.message);
        return Run(None, p + 1, waits);
      } else {
        PrependTwice(waits, [Pow(backoffBase, retry)], DetailsFrom(net, p + 1, retry + 1, maxRetries, backoffBase, projectId));
        waits := waits + [Pow(backoffBase, retry)];
      }
      p, retry := p + 1, retry + 1;
    }
    assert waits + [] == waits;
    run := Run(None, p, waits);
  }

  /** At most `max_retries` attempts, and at most one sleep per attempt. */
  lemma {:induction false} DetailsBounds(net: seq<Reply>, pos: nat, retry: nat, maxRetries: int, b: int, id: Json)
    ensures var r := DetailsFrom(net, pos, retry, maxRetries, b, id);
      pos <= r.next <= pos + (if retry < maxRetries then maxRetries - retry else 0) && |r.waits| <= r.next - pos
    decreases maxRetries - retry
  {
    if retry < maxRetries {
      DetailsBounds(net, pos + 1, retry + 1, maxRetries, b, id);
    }
  }

  /** A 404 ends the lookup at once, with no sleep and no further attempt. */
  lemma DetailsNotFound(net: seq<Reply>, pos: nat, retry: nat, maxRetries: int, b: int, id: Json, m: string)
    requires retry < maxRetries && At(net, pos) == HttpError(404, m)
    ensures DetailsFrom(net, pos, retry, maxRetries, b, id) == Run(None, pos + 1, [])
  {
  }

  /**
   * A reply lacking `mappingTypes` or `areaOfInterest` is retried without a
   * sleep; a reply on which the test or the indexing raises, and any error
   * other than a 404, sleeps `backoff_base ** retry` first.
   */
  lemma DetailsRetryPolicy(net: seq<Reply>, pos: nat, retry: nat, maxRetries: int, b: int, id: Json)
    requires retry < maxRetries
    ensures At(net, pos).Body? && LacksProjectFields(At(net, pos).body) ==>
      DetailsFrom(net, pos, retry, maxRetries, b, id) == DetailsFrom(net, pos + 1, retry + 1, maxRetries, b, id)
    ensures At(net, pos).Body? && !HasProjectFields(At(net, pos).body) && !LacksProjectFields(At(net, pos).body) ==>
      DetailsFrom(net, pos, retry, maxRetries, b, id) ==
        Prepend([Pow(b, retry)], DetailsFrom(net, pos + 1, retry + 1, maxRetries, b, id))
    ensures !At(net, pos).Body? && At(net, pos) != HttpError(404, At(net, pos).message) ==>
      DetailsFrom(net, pos, retry, maxRetries, b, id) ==
        Prepend([Pow(b, retry)], DetailsFrom(net, pos + 1, retry + 1, maxRetries, b, id))
  {
  }

  /** A null body, such as an empty response, makes `in` raise: the lookup sleeps and tries again. */
  lemma DetailsNullBodySleeps(net: seq<Reply>, pos: nat, retry: nat, maxRetries: int, b: int, id: Json)
    requires retry < maxRetries && At(net, pos) == Body(JNull)
    ensures DetailsFrom(net, pos, retry, maxRetries, b, id) ==
      Prepend([Pow(b, retry)], DetailsFrom(net, pos + 1, retry + 1, maxRetries, b, id))
  {
  }

  /**
   * A found project is the feature built from the last reply read, which
   * carries both required fields; `project_id` is the id asked for.
   */
  lemma {:induction false} DetailsFound(net: seq<Reply>, pos: nat, retry: nat, maxRetries: int, b: int, id: Json)
    ensures var r := DetailsFrom(net, pos, retry, maxRetries, b, id);
      r.value.Some? ==>
        r.next > pos && At(net, r.next - 1).Body? &&
        HasProjectFields(At(net, r.next - 1).body) &&
        r.value.value == ProjectFeature(id, At(net, r.next - 1).body)
    decreases maxRetries - retry
  {
    if retry < maxRetries {
      DetailsFound(net, pos + 1, retry + 1, maxRetries, b, id);
    }
  }

  /**
   * Every attempt failing without a response: `None` after `max_retries`
   * attempts, with a backoff sleep after each of them, the last one included.
   */
  lemma {:induction false} DetailsExhausted(net: seq<Reply>, pos: nat, retry: nat, maxRetries: int, b: int, id: Json)
    requires retry <= maxRetries
    requires forall q :: pos <= q < pos + maxRetries - retry ==> At(net, q).Failure?
    ensures DetailsFrom(net, pos, retry, maxRetries, b, id) ==
      Run(None, pos + maxRetries - retry, Backoffs(b, retry, maxRetries - retry))
    decreases maxRetries - retry
  {
    if retry < maxRetries {
      DetailsExhausted(net, pos + 1, retry + 1, maxRetries, b, id);
    }
  }

  /** `get_active_projects` from attempt `retry` on. */
  function ActiveFrom(net: seq<Reply>, pos: nat, retry: nat, maxRetries: int, backoffBase: int): Run<Option<Json>>
    decreases maxRetries - retry
  {
    if retry >= maxRetries then Run(None, pos, [])
    else match At(net, pos)
      case Body(body) =>
        (match Probe(body, "features")
         case Present(features) => Run(Some(features), pos + 1, [])
         case Absent => ActiveFrom(net, pos + 1, retry + 1, maxRetries, backoffBase)
         case Raises => Prepend([Pow(backoffBase, retry)], ActiveFrom(net, pos + 1, retry + 1, maxRetries, backoffBase)))
      case _ => Prepend([Pow(backoffBase, retry)], ActiveFrom(net, pos + 1, retry + 1, maxRetries, backoffBase))
  }

  /** One attempt of the active-project query, then the attempts after it. */
  lemma ActiveStep(net: seq<Reply>, pos: nat, retry: nat, maxRetries: int, b: int)
    requires retry < maxRetries
    ensures var reply := At(net, pos); var probe := if reply.Body? then Probe(reply.body, "features") else Raises;
      var rest := ActiveFrom(net, pos + 1, retry + 1, maxRetries, b);
      ActiveFrom(net, pos, retry, maxRetries, b) ==
        if probe.Present? then Run(Some(probe.value), pos + 1, [])
        else if probe.Absent? then rest
        else Prepend([Pow(b, retry)], rest)
  {
  }

  /** `get_active_projects(time_interval)`; the interval only shapes the URL. */
  method GetActiveProjects(net: seq<Reply>, pos: nat, maxRetries: int, backoffBase: int)
    returns (run: Run<Option<Json>>)
    ensures run == ActiveFrom(net, pos, 0, maxRetries, backoffBase)
  {
    var retry: nat := 0;
    var p := pos;
    var waits: seq<int> := [];
    while retry < maxRetries
      invariant p == pos + retry
      invariant ActiveFrom(net, pos, 0, maxRetries, backoffBase)
        == Prepend(waits, ActiveFrom(net, p, retry, maxRetries, backoffBase))
      decreases maxRetries - retry
    {
      var reply := At(net, p);
      var probe := if reply.Body? then Probe(reply.body, "features") else Raises;
      ActiveStep(net, p, retry, maxRetries, backoffBase);
      if probe.Present? {
        return Run(Some(probe.value), p + 1, waits);
      } else if probe.Raises? {
        // an error response, or `in`/indexing raising on the body
        PrependTwice(waits, [Pow(backoffBase, retry)], ActiveFrom(net, p + 1, retry + 1, maxRetries, backoffBase));
        waits := waits + [Pow(backoffBase, retry)];
      }
      p, retry := p + 1, retry + 1;
    }
    run := Run(None, p, waits);
  }

  /**
   * The active-project list is the `features` of the last reply read, a
   * dict holding that key.
   */
  /**
   * A reply without `features` (a dict without the key, a string without the
   * substring, a list without the element) is retried without a sleep; a
   * reply on which `in` or `data["features"]` raises, and any error
   * response, sleeps `backoff_base ** retry` first.
   */
  lemma ActiveRetryPolicy(net: seq<Reply>, pos: nat, retry: nat, maxRetries: int, b: int)
    requires retry < maxRetries
    ensures At(net, pos).Body? && Membership("features", At(net, pos).body) == Some(false) ==>
      ActiveFrom(net, pos, retry, maxRetries, b) == ActiveFrom(net, pos + 1, retry + 1, maxRetries, b)
    ensures (!At(net, pos).Body? || (!HasFeatures(At(net, pos).body) && Membership("features", At(net, pos).body) != Some(false))) ==>
      ActiveFrom(net, pos, retry, maxRetries, b) == Prepend([Pow(b, retry)], ActiveFrom(net, pos + 1, retry + 1, maxRetries, b))
  {
  }

  lemma {:induction false} ActiveFound(net: seq<Reply>, pos: nat, retry: nat, maxRetries: int, b: int)
    ensures var r := ActiveFrom(net, pos, retry, maxRetries, b);
      pos <= r.next <= pos + (if retry < maxRetries then maxRetries - retry else 0) &&
      |r.waits| <= r.next - pos &&
      (r.value.Some? ==>
        r.next > pos && At(net, r.next - 1).Body? && HasFeatures(At(net, r.next - 1).body) &&
        r.value.value == At(net, r.next - 1).body.fields["features"])
    decreases maxRetries - retry
  {
    if retry < maxRetries {
      ActiveFound(net, pos + 1, retry + 1, maxRetries, b);
    }
  }
}
