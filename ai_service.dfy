/** The two provider calls of `AiService` that the queue dispatches:
    `performDirectStreamModel`, which folds the parser's chunks into a
    running response and notifies the caller after every chunk, and
    `performDirectCallModel`, which reads the first choice of a
    non-streaming reply. Their results are the `Outcome`s the queue settles
    its requests with. */
module AiService {
  import opened Wrappers
  import opened Text
  import Json
  import opened OpenAiStream
  import opened QueueModel

  /** One `onChunk` notification: a copy of the running response, whether
      it is the last one, and the error text of a failed stream. */
  datatype Notification = Notification(current: Response, finished: bool, error: Option<string>)

  const Empty := Response("", "")

  /** The running response after one more chunk: a reasoning chunk extends
      only the reasoning, a content chunk only the content. */
  function Add(acc: Response, c: Chunk): Response {
    match c
    case Reasoning(r) => acc.(reasoning := acc.reasoning + r)
    case Content(t) => acc.(content := acc.content + t)
  }

  /** The running response after `chunks`, folded from the left as the
      `for await` loop does. */
  function Aggregate(chunks: seq<Chunk>): Response {
    if chunks == [] then Empty else Add(Aggregate(chunks[..|chunks| - 1]), chunks[|chunks| - 1])
  }

  /** The texts of the content chunks, in order, joined. */
  function Contents(chunks: seq<Chunk>): string {
    if chunks == [] then ""
    else (if chunks[0].Content? then chunks[0].text else "") + Contents(chunks[1..])
  }

  /** The texts of the reasoning chunks, in order, joined. */
  function Reasonings(chunks: seq<Chunk>): string {
    if chunks == [] then ""
    else (if chunks[0].Reasoning? then chunks[0].text else "") + Reasonings(chunks[1..])
  }

  lemma {:induction false} ContentsSnoc(chunks: seq<Chunk>, c: Chunk)
    ensures Contents(chunks + [c]) == Contents(chunks) + (if c.Content? then c.text else "")
    ensures Reasonings(chunks + [c]) == Reasonings(chunks) + (if c.Reasoning? then c.text else "")
  {
    if chunks != [] {
      assert (chunks + [c])[1..] == chunks[1..] + [c];
      ContentsSnoc(chunks[1..], c);
    }
  }

  /** The aggregated content is exactly the content chunks joined in
      order, and the aggregated reasoning exactly the reasoning chunks. */
  lemma {:induction false} AggregateSplits(chunks: seq<Chunk>)
    ensures Aggregate(chunks) == Response(Contents(chunks), Reasonings(chunks))
    decreases |chunks|
  {
    if chunks != [] {
      var init := chunks[..|chunks| - 1];
      AggregateSplits(init);
      assert chunks == init + [chunks[|chunks| - 1]];
      ContentsSnoc(init, chunks[|chunks| - 1]);
    }
  }

  /** Each notification extends the previous one: the content and the
      reasoning shown to the caller only grow. */
  lemma {:induction false} AggregateGrows(chunks: seq<Chunk>, i: nat)
    requires i <= |chunks|
    ensures StartsWith(Aggregate(chunks).content, Aggregate(chunks[..i]).content)
    ensures StartsWith(Aggregate(chunks).reasoning, Aggregate(chunks[..i]).reasoning)
    decreases |chunks|
  {
    if i < |chunks| {
      var init := chunks[..|chunks| - 1];
      assert chunks[..i] == init[..i];
      AggregateGrows(init, i);
    } else {
      assert chunks[..i] == chunks;
    }
  }

  /** The `error` text of the final notification of a failed stream: an
      abort passes its message through, any other error falls back to
      'stream error' when it has no message. */
  function ErrorText(e: Error): (r: string)
    ensures e.name != "AbortError" ==> r != ""
    ensures e.message != "" ==> r == e.message
  {
    if e.name == "AbortError" then e.message
    else if e.message != "" then e.message
    else "stream error"
  }

  /** The caller's `onChunk` throwing `error` at its `call`-th invocation
      (counting from 0); every other invocation returns normally. */
  datatype CallbackFailure = CallbackFailure(call: nat, error: Error)

  /** The notifications of a stream that yields `chunks` and then ends, or
      throws `failure`, when `onChunk` never throws: one unfinished
      notification per chunk with the aggregate so far, then one finished
      notification, carrying the error text of a failure. */
  function Notifications(chunks: seq<Chunk>, failure: Option<Error>): (r: seq<Notification>)
    ensures |r| == |chunks| + 1
  {
    seq(|chunks|, i requires 0 <= i < |chunks| => Notification(Aggregate(chunks[..i + 1]), false, None))
    + [Notification(Aggregate(chunks), true, if failure.Some? then Some(ErrorText(failure.value)) else None)]
  }

  /** `performDirectStreamModel`: the stream yields `chunks` and then ends,
      or throws `failure`; `thrower` says which `onChunk` call, if any,
      throws. Without a throwing callback: one unfinished notification per
      chunk, then exactly one finished notification; the aggregated
      response is returned, or the failure rethrown. When the callback
      throws, the stream is abandoned, the `catch` sends one more finished
      notification with the callback's error (unless the throwing call was
      the `catch`'s own) and the callback's error is rethrown, so a stream
      that ended normally can still be rejected after two finished
      notifications. */
  method PerformDirectStreamModel(chunks: seq<Chunk>, failure: Option<Error>, thrower: Option<CallbackFailure>)
    returns (notifications: seq<Notification>, result: Outcome)
    ensures thrower.None? || thrower.value.call > |chunks| ==>
      && notifications == Notifications(chunks, failure)
      && result == if failure.Some? then Rejected(failure.value) else Resolved(Some(Aggregate(chunks)))
    ensures thrower.Some? && thrower.value.call <= |chunks| ==>
      var n := thrower.value.call;
      && result == Rejected(thrower.value.error)
      && notifications == Notifications(chunks, failure)[..n + 1]
           + if n == |chunks| && failure.Some? then []
             else [Notification(Aggregate(chunks[..if n < |chunks| then n + 1 else n]), true, Some(ErrorText(thrower.value.error)))]
  {
    ghost var spec := Notifications(chunks, failure);
    var aggregated := Empty;
    notifications := [];
    var thrown: Option<Error> := None;
    var k := 0;
    while k < |chunks| && thrown.None?
      invariant 0 <= k <= |chunks|
      invariant aggregated == Aggregate(chunks[..k])
      invariant notifications == spec[..k]
      invariant thrown.Some? ==> 0 < k && thrower.Some? && thrower.value.call == k - 1 && thrown.value == thrower.value.error
      invariant thrown.None? ==> thrower.None? || thrower.value.call >= k
    {
      assert chunks[..k + 1][..k] == chunks[..k];
      match chunks[k] {
        case Reasoning(r) =>
          aggregated := aggregated.(reasoning := aggregated.reasoning + r);
        case Content(t) =>
          aggregated := aggregated.(content := aggregated.content + t);
      }
      notifications := notifications + [Notification(aggregated, false, None)];
      assert spec[..k + 1] == spec[..k] + [spec[k]];
      if thrower.Some? && thrower.value.call == k {
        thrown := Some(thrower.value.error);
      }
      k := k + 1;
    }
    // The error the `catch` handles, if the `try` does not return.
    var pending: Option<Error>;
    if thrown.Some? {
      pending := thrown;
    } else {
      assert chunks[..|chunks|] == chunks;
      if failure.Some? {
        pending := failure;
      } else {
        notifications := notifications + [Notification(aggregated, true, None)];
        assert spec == spec[..|chunks|] + [spec[|chunks|]];
        pending := if thrower.Some? && thrower.value.call == |chunks| then Some(thrower.value.error) else None;
      }
    }
    if pending.None? {
      result := Resolved(Some(aggregated));
    } else {
      var e := pending.value;
      var call := |notifications|;
      if e.name == "AbortError" {
        notifications := notifications + [Notification(aggregated, true, Some(e.message))];
      } else {
        var text := if e.message != "" then e.message else "stream error";
        notifications := notifications + [Notification(aggregated, true, Some(text))];
      }
      if failure.Some? && thrown.None? {
        assert spec == spec[..|chunks|] + [spec[|chunks|]];
      }
      result := if thrower.Some? && thrower.value.call == call then Rejected(thrower.value.error) else Rejected(e);
    }
  }

  /** `performDirectCallModel`: the content of the first choice's message
      of the reply, or '' when there is none; the reasoning is always ''.
      A `null` reply makes `data.choices` throw a `TypeError`, the one reply
      the optional chaining does not absorb. */
  function PerformDirectCallModel(reply: Json.Value): (r: Result<Response, Error>)
    ensures r.Err? <==> reply.Null?
    ensures r.Err? ==> r.error.name == "TypeError"
    ensures r.Ok? ==> r.value.reasoning == ""
    ensures r.Ok? && Json.AsString(Json.Member(Json.Member(Json.First(Json.Member(Some(reply), "choices")), "message"), "content")).Some?
      ==> r.value.content == Json.AsString(Json.Member(Json.Member(Json.First(Json.Member(Some(reply), "choices")), "message"), "content")).value
    ensures r.Ok? && Json.AsString(Json.Member(Json.Member(Json.First(Json.Member(Some(reply), "choices")), "message"), "content")).None?
      ==> r.value.content == ""
  {
    if reply.Null? then
      Err(Error("TypeError", "Cannot read properties of null (reading 'choices')"))
    else
      var msg := Json.Member(Json.First(Json.Member(Some(reply), "choices")), "message");
      match Json.Member(msg, "content")
      case Some(Str(s)) => Ok(Response(s, ""))
      case _ => Ok(Response("", ""))
  }
}
