/**
 * The remote services as an oracle. Every HTTP call the extractor makes
 * reads the next reply of a finite, recorded sequence; once the sequence is
 * used up the network has fallen silent and every further call fails
 * without a response, as a timeout would. Sleeps are not performed but
 * recorded, in order, as a trace of durations in seconds.
 */
module Network {
  import opened Values

  /**
   * What one HTTP call yields: a decoded body (the status passed
   * `raise_for_status`); an HTTP error status, which is also what aiohttp's
   * `ContentTypeError` gives for a body not typed as JSON (it carries the
   * response's own status); or any other exception (timeout, connection
   * error, a JSON-typed body that fails to parse). `message` is the
   * exception's `str()`.
   */
  datatype Reply =
    | Body(body: Json)
    | HttpError(status: int, message: string)
    | Failure(message: string)

  /** The reply to the call made at position `pos`. */
  function At(net: seq<Reply>, pos: nat): (r: Reply)
    ensures pos >= |net| ==> r == Failure("no response")
  {
    if pos < |net| then net[pos] else Failure("no response")
  }

  /** The outcome of a sequence of calls: a value, the next unread reply, and the sleeps taken. */
  datatype Run<T> = Run(value: T, next: nat, waits: seq<int>)

  /** `run`, preceded by the sleeps `ws`. */
  function Prepend<T>(ws: seq<int>, run: Run<T>): (r: Run<T>)
    ensures r.value == run.value && r.next == run.next && r.waits == ws + run.waits
  {
    Run(run.value, run.next, ws + run.waits)
  }

  /** Sleeps taken one after another. */
  lemma PrependTwice<T>(ws: seq<int>, vs: seq<int>, run: Run<T>)
    ensures Prepend(ws, Prepend(vs, run)) == Prepend(ws + vs, run)
  {
    assert ws + (vs + run.waits) == (ws + vs) + run.waits;
  }

  /** A run collecting a list, preceded by the items `acc` and the sleeps `ws`. */
  function Extend<T>(acc: seq<T>, ws: seq<int>, run: Run<seq<T>>): Run<seq<T>>
  {
    Run(acc + run.value, run.next, ws + run.waits)
  }

  lemma ExtendNothing<T>(run: Run<seq<T>>)
    ensures Extend([], [], run) == run
  {
    assert [] + run.value == run.value;
    assert [] + run.waits == run.waits;
  }

  lemma ExtendTwice<T>(a: seq<T>, b: seq<T>, v: seq<int>, w: seq<int>, run: Run<seq<T>>)
    ensures Extend(a, v, Extend(b, w, run)) == Extend(a + b, v + w, run)
  {
    assert a + (b + run.value) == (a + b) + run.value;
    assert v + (w + run.waits) == (v + w) + run.waits;
  }

  /** Python's `base ** e` for a non-negative exponent. */
  function Pow(base: int, e: nat): int
  {
    if e == 0 then 1 else base * Pow(base, e - 1)
  }

  /** The backoff schedule `base ** from, ..., base ** (from + n - 1)`. */
  function Backoffs(base: int, from: nat, n: nat): (r: seq<int>)
    ensures |r| == n
    ensures forall i :: 0 <= i < n ==> r[i] == Pow(base, from + i)
    decreases n
  {
    if n == 0 then [] else [Pow(base, from)] + Backoffs(base, from + 1, n - 1)
  }

  /** `n` sleeps of `w` seconds. */
  function Repeat(w: int, n: nat): (r: seq<int>)
    ensures |r| == n
    ensures forall i :: 0 <= i < n ==> r[i] == w
  {
    if n == 0 then [] else [w] + Repeat(w, n - 1)
  }
}
