/** The Gemini branch of the streaming chat handler. Each JSON object the
    brace scanner cuts from the upstream text is parsed, and every candidate
    in it becomes one OpenAI-style `chat.completion.chunk` whose delta
    carries the candidate's answer text and its reasoning: the thought
    parts, else the response's `thinking`, else the candidate's
    `reasoning_content`. With `reasoning_to_content` the reasoning is sent
    as content instead. After the last read the handler sends
    `data: [DONE]`; a failed read ends the stream with an error comment. */
module GeminiStream {
  import opened Wrappers
  import opened Text
  import Json
  import opened GeminiClient
  import opened BraceScan

  /** The delta of a chunk: `content` and `reasoning_content`, each present
      or absent. */
  datatype Delta = Delta(content: Option<string>, reasoning: Option<string>)

  /** What the handler writes: a chunk with one choice, `data: [DONE]`, or
      the comment `: error <message>`. */
  datatype Event =
    | Chunk(delta: Delta, finish: Option<string>)
    | Done
    | ErrorComment(message: string)

  /** `reasoning_to_content` is `'1'` or `'true'` in the query. */
  predicate ReasoningToContent(query: Option<Json.Value>) {
    query == Some(Json.Str("1")) || query == Some(Json.Str("true"))
  }

  // ---------------------------------------------------------------------
  // One candidate
  // ---------------------------------------------------------------------

  /** The reasoning a candidate's chunk carries: its thought text wins,
      then the response's non-empty `thinking`, then the candidate's own
      non-empty `reasoning_content`; '' when there is none. */
  function Reasoning(data: Json.Value, candidate: Json.Value, thought: string): (r: string)
    ensures thought != "" ==> r == thought
    ensures thought == "" && Json.NonEmptyString(Json.Member(Some(data), "thinking")).Some?
      ==> r == Json.NonEmptyString(Json.Member(Some(data), "thinking")).value
    ensures thought == "" && Json.NonEmptyString(Json.Member(Some(data), "thinking")).None?
      ==> r == Json.NonEmptyString(Json.Member(Some(candidate), "reasoning_content")).GetOr("")
  {
    if thought != "" then thought
    else match Json.NonEmptyString(Json.Member(Some(data), "thinking"))
      case Some(t) => t
      case None => Json.NonEmptyString(Json.Member(Some(candidate), "reasoning_content")).GetOr("")
  }

  /** The delta of a chunk. Without `reasoning_to_content` it carries the
      text and the reasoning, each only when non-empty; with it, it carries
      only `content`: the reasoning when there is any, else the text. */
  function BuildDelta(text: string, reasoning: string, toContent: bool): (d: Delta)
    ensures !toContent ==> d.content.GetOr("") == text && d.reasoning.GetOr("") == reasoning
    ensures toContent ==> (d.reasoning == None && d.content.GetOr("") == (if reasoning != "" then reasoning else text))
    ensures d.content != Some("") && d.reasoning != Some("")
  {
    if toContent then
      Delta(if reasoning != "" then Some(reasoning) else if text != "" then Some(text) else None, None)
    else
      Delta(if text != "" then Some(text) else None, if reasoning != "" then Some(reasoning) else None)
  }

  /** A delta is empty exactly when there is neither text nor reasoning, in
      both modes: nothing is dropped and no empty field is sent. */
  lemma DeltaEmptyIffNothing(text: string, reasoning: string, toContent: bool)
    ensures BuildDelta(text, reasoning, toContent) == Delta(None, None) <==> text == "" && reasoning == ""
  {
    var d := BuildDelta(text, reasoning, toContent);
    if d == Delta(None, None) {
      assert d.content.GetOr("") == "";
    }
  }

  /** `candidate?.finishReason ? candidate.finishReason.toLowerCase() : null`:
      `Some(None)` for a falsy reason, `None` where a truthy reason that is
      not a string has no `toLowerCase` and the call throws. */
  function FinishReason(candidate: Json.Value): (r: Option<Option<string>>)
    ensures r.None? <==>
      (Json.Truthy(Json.Member(Some(candidate), "finishReason")) && !Json.Member(Some(candidate), "finishReason").value.Str?)
    ensures r == Some(None) <==> !Json.Truthy(Json.Member(Some(candidate), "finishReason"))
    ensures r.Some? && r.value.Some? ==>
      (Json.AsString(Json.Member(Some(candidate), "finishReason")).Some?
       && r.value.value == ToLower(Json.AsString(Json.Member(Some(candidate), "finishReason")).value))
  {
    var fr := Json.Member(Some(candidate), "finishReason");
    if !Json.Truthy(fr) then Some(None)
    else match fr.value
      case Str(s) => Some(Some(ToLower(s)))
      case _ => None
  }

  /** The chunk written for one candidate of response `data`; `None` when
      the candidate throws (its parts are not iterable, or its finish reason
      has no `toLowerCase`). */
  function CandidateEvent(data: Json.Value, candidate: Json.Value, toContent: bool): Option<Event> {
    match PartsOf(candidate)
    case None => None
    case Some(parts) =>
      match FinishReason(candidate)
      case None => None
      case Some(finish) =>
        Some(Chunk(BuildDelta(AnswerText(parts), Reasoning(data, candidate, ThoughtText(parts)), toContent), finish))
  }

  /** What each candidate of a run gives, in order: its chunk, or `None`
      where it throws. */
  function CandidateResults(data: Json.Value, candidates: seq<Json.Value>, toContent: bool): (r: seq<Option<Event>>)
    ensures |r| == |candidates|
    decreases |candidates|
  {
    if candidates == [] then []
    else [CandidateEvent(data, candidates[0], toContent)] + CandidateResults(data, candidates[1..], toContent)
  }

  lemma {:induction false} CandidateResultsAt(data: Json.Value, candidates: seq<Json.Value>, toContent: bool, i: nat)
    requires i < |candidates|
    ensures CandidateResults(data, candidates, toContent)[i] == CandidateEvent(data, candidates[i], toContent)
    decreases i
  {
    if i > 0 {
      CandidateResultsAt(data, candidates[1..], toContent, i - 1);
    }
  }

  /** The chunks written from a run of results: up to the first throw; the
      chunks already written stay written and the rest are skipped. */
  function UntilNone(results: seq<Option<Event>>): seq<Event>
    decreases |results|
  {
    if results == [] then []
    else match results[0]
      case None => []
      case Some(e) => [e] + UntilNone(results[1..])
  }

  lemma {:induction false} UntilNoneSpec(results: seq<Option<Event>>, k: nat)
    requires k <= |results|
    requires forall i :: 0 <= i < k ==> results[i].Some?
    requires k < |results| ==> results[k].None?
    ensures |UntilNone(results)| == k
    ensures forall i :: 0 <= i < k ==> Some(UntilNone(results)[i]) == results[i]
    decreases k
  {
    if k > 0 {
      UntilNoneSpec(results[1..], k - 1);
    }
  }

  lemma {:induction false} UntilNoneIs(results: seq<Option<Event>>, events: seq<Event>)
    requires |events| <= |results|
    requires forall i :: 0 <= i < |events| ==> results[i] == Some(events[i])
    requires |events| < |results| ==> results[|events|].None?
    ensures UntilNone(results) == events
    decreases |events|
  {
    if events != [] {
      UntilNoneIs(results[1..], events[1..]);
    }
  }

  /** The chunks written for a run of candidates. */
  function UntilThrow(data: Json.Value, candidates: seq<Json.Value>, toContent: bool): seq<Event> {
    UntilNone(CandidateResults(data, candidates, toContent))
  }

  /** Exactly one chunk per candidate, in order, when no candidate throws;
      otherwise exactly the chunks of the candidates before the first one
      that throws. */
  lemma UntilThrowSpec(data: Json.Value, candidates: seq<Json.Value>, toContent: bool, k: nat)
    requires k <= |candidates|
    requires forall i :: 0 <= i < k ==> CandidateEvent(data, candidates[i], toContent).Some?
    requires k < |candidates| ==> CandidateEvent(data, candidates[k], toContent).None?
    ensures |UntilThrow(data, candidates, toContent)| == k
    ensures forall i :: 0 <= i < k ==>
      Some(UntilThrow(data, candidates, toContent)[i]) == CandidateEvent(data, candidates[i], toContent)
  {
    var results := CandidateResults(data, candidates, toContent);
    forall i | 0 <= i < |candidates|
      ensures results[i] == CandidateEvent(data, candidates[i], toContent)
    {
      CandidateResultsAt(data, candidates, toContent, i);
    }
    UntilNoneSpec(results, k);
  }

  // ---------------------------------------------------------------------
  // One object, one read, the whole stream
  // ---------------------------------------------------------------------

  /** The chunks written for one text cut by the scanner: nothing when
      `JSON.parse` fails or `candidates` is truthy but not iterable (the
      error is swallowed), otherwise the chunks of its candidates. */
  function ObjectEvents(text: string, parse: string -> Option<Json.Value>, toContent: bool): seq<Event> {
    match parse(text)
    case None => []
    case Some(data) =>
      match Json.IterateOrEmpty(Json.Member(Some(data), "candidates"))
      case None => []
      case Some(candidates) => UntilThrow(data, candidates, toContent)
  }

  /** The chunks written for a run of texts, in order. */
  function EventsOf(texts: seq<string>, parse: string -> Option<Json.Value>, toContent: bool): seq<Event>
    decreases |texts|
  {
    if texts == [] then [] else ObjectEvents(texts[0], parse, toContent) + EventsOf(texts[1..], parse, toContent)
  }

  lemma {:induction false} EventsOfAppend(a: seq<string>, b: seq<string>, parse: string -> Option<Json.Value>, toContent: bool)
    ensures EventsOf(a + b, parse, toContent) == EventsOf(a, parse, toContent) + EventsOf(b, parse, toContent)
    decreases |a|
  {
    if a == [] {
      assert a + b == b;
    } else {
      assert (a + b)[1..] == a[1..] + b;
      EventsOfAppend(a[1..], b, parse, toContent);
    }
  }

  lemma {:induction false} EventsOfAreChunks(texts: seq<string>, parse: string -> Option<Json.Value>, toContent: bool)
    ensures forall i :: 0 <= i < |EventsOf(texts, parse, toContent)| ==> EventsOf(texts, parse, toContent)[i].Chunk?
    decreases |texts|
  {
    if texts != [] {
      EventsOfAreChunks(texts[1..], parse, toContent);
      match parse(texts[0])
      case None =>
      case Some(data) =>
        match Json.IterateOrEmpty(Json.Member(Some(data), "candidates"))
        case None =>
        case Some(candidates) => UntilThrowChunks(data, candidates, toContent);
    }
  }

  lemma {:induction false} UntilNoneChunks(results: seq<Option<Event>>)
    requires forall i :: 0 <= i < |results| && results[i].Some? ==> results[i].value.Chunk?
    ensures forall i :: 0 <= i < |UntilNone(results)| ==> UntilNone(results)[i].Chunk?
    decreases |results|
  {
    if results != [] {
      UntilNoneChunks(results[1..]);
    }
  }

  lemma UntilThrowChunks(data: Json.Value, candidates: seq<Json.Value>, toContent: bool)
    ensures forall i :: 0 <= i < |UntilThrow(data, candidates, toContent)| ==> UntilThrow(data, candidates, toContent)[i].Chunk?
  {
    var results := CandidateResults(data, candidates, toContent);
    forall i | 0 <= i < |results| && results[i].Some?
      ensures results[i].value.Chunk?
    {
      CandidateResultsAt(data, candidates, toContent, i);
    }
    UntilNoneChunks(results);
  }

  /** The last event: `data: [DONE]` after the final read, or the error
      comment when a read failed, with the error's message when it is a
      string and 'Upstream error' otherwise. */
  function Final(failure: Option<Option<string>>): Event {
    match failure
    case None => Done
    case Some(message) => ErrorComment(message.GetOr("Upstream error"))
  }

  /** Everything the handler writes for the text read as `fragments`,
      followed by `failure` or by the end of the stream. */
  function StreamEvents(fragments: seq<string>, parse: string -> Option<Json.Value>, toContent: bool,
                        failure: Option<Option<string>>): seq<Event>
  {
    EventsOf(Reads(fragments).texts, parse, toContent) + [Final(failure)]
  }

  /** `data: [DONE]` is written exactly once, last, when no read fails; a
      failed stream ends with its error comment instead, and every other
      event is a chunk. */
  lemma DoneOnceAtEnd(fragments: seq<string>, parse: string -> Option<Json.Value>, toContent: bool,
                      failure: Option<Option<string>>)
    ensures var es := StreamEvents(fragments, parse, toContent, failure);
      && (failure.None? <==> es[|es| - 1] == Done)
      && forall i :: 0 <= i < |es| - 1 ==> es[i].Chunk?
  {
    EventsOfAreChunks(Reads(fragments).texts, parse, toContent);
  }

  // ---------------------------------------------------------------------
  // The handler, imperatively
  // ---------------------------------------------------------------------

  /** The three assignments to `aggregatedReasoning`, in order. */
  method AggregateReasoning(data: Json.Value, candidate: Json.Value, candidateReasoning: string) returns (r: string)
    ensures r == Reasoning(data, candidate, candidateReasoning)
  {
    r := "";
    var thinking := Json.Member(Some(data), "thinking");
    if thinking.Some? && thinking.value.Str? && thinking.value.s != "" {
      r := thinking.value.s;
    }
    if candidateReasoning != "" {
      r := candidateReasoning;
    }
    var own := Json.Member(Some(candidate), "reasoning_content");
    if r == "" && own.Some? && own.value.Str? && own.value.s != "" {
      r := own.value.s;
    }
  }

  /** The delta, filled field by field as the handler does. */
  method MakeDelta(text: string, reasoning: string, toContent: bool) returns (delta: Delta)
    ensures delta == BuildDelta(text, reasoning, toContent)
  {
    delta := Delta(None, None);
    if toContent {
      if reasoning != "" {
        delta := delta.(content := Some(reasoning));
      } else if text != "" {
        delta := delta.(content := Some(text));
      }
    } else {
      if text != "" {
        delta := delta.(content := Some(text));
      }
      if reasoning != "" {
        delta := delta.(reasoning := Some(reasoning));
      }
    }
  }

  /** The body of the candidate loop, in the handler's order of
      statements. */
  method BuildCandidateEvent(data: Json.Value, candidate: Json.Value, toContent: bool) returns (e: Option<Event>)
    ensures e == CandidateEvent(data, candidate, toContent)
  {
    var parts := PartsOf(candidate);
    if parts.None? {
      return None;
    }
    var text, candidateReasoning := SplitParts(parts.value);
    var aggregatedReasoning := AggregateReasoning(data, candidate, candidateReasoning);
    var delta := MakeDelta(text, aggregatedReasoning, toContent);
    var fr := Json.Member(Some(candidate), "finishReason");
    var finish: Option<string> := None;
    if Json.Truthy(fr) {
      if !fr.value.Str? {
        return None;
      }
      finish := Some(ToLower(fr.value.s));
    }
    e := Some(Chunk(delta, finish));
  }

  /** The candidate loop: one chunk per candidate, stopping at the first
      candidate that throws. */
  method EmitCandidates(data: Json.Value, candidates: seq<Json.Value>, toContent: bool) returns (events: seq<Event>)
    ensures events == UntilThrow(data, candidates, toContent)
  {
    events := [];
    ghost var results := CandidateResults(data, candidates, toContent);
    for k := 0 to |candidates|
      invariant |events| == k
      invariant forall i :: 0 <= i < k ==> results[i] == Some(events[i])
    {
      var e := BuildCandidateEvent(data, candidates[k], toContent);
      CandidateResultsAt(data, candidates, toContent, k);
      if e.None? {
        UntilNoneIs(results, events);
        return;
      }
      events := events + [e.value];
    }
    UntilNoneIs(results, events);
  }

  /** The `try` block for one text cut by the scanner. */
  method EmitObject(text: string, parse: string -> Option<Json.Value>, toContent: bool) returns (events: seq<Event>)
    ensures events == ObjectEvents(text, parse, toContent)
  {
    events := [];
    var parsed := parse(text);
    if parsed.None? {
      return;
    }
    var data := parsed.value;
    var iterated := Json.IterateOrEmpty(Json.Member(Some(data), "candidates"));
    if iterated.None? {
      return;
    }
    events := EmitCandidates(data, iterated.value, toContent);
  }

  lemma TextsSnoc(b: string, spans: seq<Span>, k: nat, parse: string -> Option<Json.Value>, toContent: bool)
    requires k < |spans|
    requires forall i :: 0 <= i < |spans| ==> spans[i].start <= spans[i].end < |b|
    ensures EventsOf(Texts(b, spans[..k + 1]), parse, toContent)
      == EventsOf(Texts(b, spans[..k]), parse, toContent) + ObjectEvents(b[spans[k].start..spans[k].end + 1], parse, toContent)
  {
    var text := b[spans[k].start..spans[k].end + 1];
    assert spans[..k + 1][..k] == spans[..k];
    assert Slice(b, spans[k]) == text;
    assert Texts(b, spans[..k + 1]) == Texts(b, spans[..k]) + [text];
    EventsOfAppend(Texts(b, spans[..k]), [text], parse, toContent);
    assert EventsOf([text], parse, toContent) == ObjectEvents(text, parse, toContent) + EventsOf([], parse, toContent);
  }

  /** One read: the spans the scanner cuts, each handed to `JSON.parse` in
      order, and `lastPos`. Scanning does not depend on what the `try`
      block writes, so the spans are cut first and processed after. */
  method ScanRead(buffer: string, parse: string -> Option<Json.Value>, toContent: bool)
    returns (events: seq<Event>, lastPos: nat)
    ensures lastPos == LastPos(SpansFrom(buffer, 0)) && lastPos <= |buffer|
    ensures (if lastPos > 0 then buffer[lastPos..] else buffer) == Kept(buffer)
    ensures events == EventsOf(Cut(buffer).texts, parse, toContent)
  {
    var spans;
    spans, lastPos := CutObjects(buffer);
    SpansWellFormed(buffer, 0);
    KeptSpec(buffer);
    events := [];
    for k := 0 to |spans|
      invariant events == EventsOf(Texts(buffer, spans[..k]), parse, toContent)
    {
      var text := buffer[spans[k].start..spans[k].end + 1];
      var evs := EmitObject(text, parse, toContent);
      TextsSnoc(buffer, spans, k, parse, toContent);
      events := events + evs;
    }
    assert spans[..|spans|] == spans;
  }

  /** One read: `buffer += chunk`, the scan, and
      `buffer = buffer.slice(lastPos)` when a span was cut. */
  method ReadFragment(buffer: string, fragment: string, parse: string -> Option<Json.Value>, toContent: bool)
    returns (events: seq<Event>, kept: string)
    ensures events == EventsOf(ReadOnce(buffer, fragment).texts, parse, toContent)
    ensures kept == ReadOnce(buffer, fragment).kept
  {
    kept := buffer + fragment;
    var lastPos;
    events, lastPos := ScanRead(kept, parse, toContent);
    if lastPos > 0 {
      kept := kept[lastPos..];
    }
  }

  /** What is written once the reads stop: `data: [DONE]` after the loop,
      or the `catch` block's comment. */
  method Finish(failure: Option<Option<string>>) returns (e: Event)
    ensures e == Final(failure)
  {
    match failure {
      case None =>
        e := Done;
      case Some(message) =>
        e := ErrorComment(if message.Some? then message.value else "Upstream error");
    }
  }

  /** The read loop: every read's objects, in order. */
  method ReadAll(fragments: seq<string>, parse: string -> Option<Json.Value>, toContent: bool)
    returns (events: seq<Event>)
    ensures events == EventsOf(Reads(fragments).texts, parse, toContent)
  {
    var buffer := "";
    events := [];
    ghost var texts: seq<string> := [];
    for k := 0 to |fragments|
      invariant Reads(fragments[..k]) == Read(texts, buffer)
      invariant events == EventsOf(texts, parse, toContent)
    {
      ReadsSnoc(fragments, k);
      ghost var cut := ReadOnce(buffer, fragments[k]);
      var evs;
      evs, buffer := ReadFragment(buffer, fragments[k], parse, toContent);
      EventsOfAppend(texts, cut.texts, parse, toContent);
      texts := texts + cut.texts;
      events := events + evs;
    }
    assert fragments[..|fragments|] == fragments;
  }

  /** The Gemini streaming handler after a successful upstream response:
      the reads deliver `fragments`, then the stream ends (`failure` is
      `None`) or a read fails with the given message. */
  method GeminiStreamResponse(fragments: seq<string>, parse: string -> Option<Json.Value>, toContent: bool,
                              failure: Option<Option<string>>)
    returns (events: seq<Event>)
    ensures events == StreamEvents(fragments, parse, toContent, failure)
  {
    events := ReadAll(fragments, parse, toContent);
    var last := Finish(failure);
    events := events + [last];
  }
}
