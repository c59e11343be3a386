/** `LlmClient`'s URL builder and the line-framed server-sent-events parser
    of `streamChatCompletion`. The response body arrives as a sequence of
    decoded text fragments; the parser keeps a buffer, cuts it at every
    newline, trims each line, ignores blank and non-`data:` lines, stops at
    `data: [DONE]`, and for every payload that parses yields the delta's
    non-empty `reasoning_content` before its non-empty `content`. After the
    body ends, a last unterminated `data:` line is still processed.

    The specification `Stream` reads the whole text at once; the method is
    proved to yield exactly `Stream` of the concatenated fragments, so the
    output does not depend on where the network cut the text. */
module OpenAiStream {
  import opened Wrappers
  import opened Text
  import Json

  // ---------------------------------------------------------------------
  // The endpoint
  // ---------------------------------------------------------------------

  /** `s.replace(/\/$/, '')`: one trailing slash is dropped. */
  function StripTrailingSlash(s: string): (r: string)
    ensures EndsWith(s, "/") ==> r + "/" == s
    ensures !EndsWith(s, "/") ==> r == s
  {
    if |s| > 0 && s[|s| - 1] == '/' then s[..|s| - 1] else s
  }

  /** `getChatCompletionsUrl`: the base URL followed by
      `/v1/chat/completions`, reusing a `/v1` the base already ends with.
      A string that starts with the base, ends with the path and has this
      length is unique, so the three clauses fix the URL. */
  function ChatCompletionsUrl(baseUrl: string): (r: string)
    ensures StartsWith(r, baseUrl) && EndsWith(r, "/v1/chat/completions")
    ensures |r| == |baseUrl| + if EndsWith(baseUrl, "/v1") then |"/chat/completions"| else |"/v1/chat/completions"|
  {
    if EndsWith(baseUrl, "/v1") then
      var r := baseUrl + "/chat/completions";
      assert r[..|baseUrl|] == baseUrl;
      assert r[|r| - 20..] == baseUrl[|baseUrl| - 3..] + "/chat/completions";
      r
    else
      var r := baseUrl + "/v1/chat/completions";
      assert r[..|baseUrl|] == baseUrl && r[|r| - 20..] == "/v1/chat/completions";
      r
  }

  /** The endpoint a client posts to: the configured base URL without its
      trailing slash, then `getChatCompletionsUrl`. */
  function EndpointUrl(configured: string): string {
    ChatCompletionsUrl(StripTrailingSlash(configured))
  }

  /** A base URL may be configured with or without a trailing slash and
      with or without `/v1`: all four spellings reach the same endpoint. */
  lemma SameEndpoint(base: string)
    requires !EndsWith(base, "/") && !EndsWith(base, "/v1")
    ensures EndpointUrl(base + "/") == EndpointUrl(base)
    ensures EndpointUrl(base + "/v1") == EndpointUrl(base)
    ensures EndpointUrl(base + "/v1/") == EndpointUrl(base)
    ensures EndpointUrl(base) == base + "/v1/chat/completions"
  {
    var v := base + "/v1";
    StripAppended(base);
    StripAppended(v);
    assert base + "/v1/" == v + "/";
    StripKeepsVersion(base);
    VersionedUrl(base);
  }

  lemma StripKeepsVersion(base: string)
    ensures StripTrailingSlash(base + "/v1") == base + "/v1"
  {
    assert (base + "/v1")[|base| + 2] == '1';
  }

  lemma VersionedUrl(base: string)
    ensures ChatCompletionsUrl(base + "/v1") == base + "/v1/chat/completions"
  {
    var v := base + "/v1";
    assert EndsWith(v, "/v1") by { assert v[|v| - 3..] == "/v1"; }
    assert "/v1" + "/chat/completions" == "/v1/chat/completions";
    assert v + "/chat/completions" == base + ("/v1" + "/chat/completions");
  }

  lemma StripAppended(s: string)
    ensures StripTrailingSlash(s + "/") == s
  {
    assert (s + "/")[..|s|] == s;
  }

  // ---------------------------------------------------------------------
  // One line
  // ---------------------------------------------------------------------

  /** What the generator yields: `JSON.stringify({ reasoning })` or
      `JSON.stringify({ content })`. */
  datatype Chunk = Reasoning(text: string) | Content(text: string)

  /** A trimmed line as the parser sees it. */
  datatype Line = Blank | Other | Done | Data(payload: string)

  const DataPrefix: string := "data:"

  function Classify(line: string): Line {
    if line == "" then Blank
    else if !StartsWith(line, DataPrefix) then Other
    else
      var data := Trim(line[|DataPrefix|..]);
      if data == "[DONE]" then Done else Data(data)
  }

  /** `json?.choices?.[0]?.delta`. */
  function DeltaOf(json: Json.Value): Option<Json.Value> {
    Json.Member(Json.First(Json.Member(Some(json), "choices")), "delta")
  }

  /** What one parsed payload yields: the reasoning first, then the
      content, each only when it is a non-empty string. */
  function DeltaChunks(json: Json.Value): (r: seq<Chunk>)
    ensures |r| <= 2 && forall i :: 0 <= i < |r| ==> r[i].text != ""
    ensures |r| == 2 ==> r[0].Reasoning? && r[1].Content?
    ensures Reasoning(Json.NonEmptyString(Json.Member(DeltaOf(json), "reasoning_content")).GetOr("")) in r
      <==> Json.NonEmptyString(Json.Member(DeltaOf(json), "reasoning_content")).Some?
    ensures Content(Json.NonEmptyString(Json.Member(DeltaOf(json), "content")).GetOr("")) in r
      <==> Json.NonEmptyString(Json.Member(DeltaOf(json), "content")).Some?
    ensures forall i :: 0 <= i < |r| ==>
      if r[i].Reasoning? then Some(r[i].text) == Json.NonEmptyString(Json.Member(DeltaOf(json), "reasoning_content"))
      else Some(r[i].text) == Json.NonEmptyString(Json.Member(DeltaOf(json), "content"))
  {
    var delta := DeltaOf(json);
    var reasoning := Json.NonEmptyString(Json.Member(delta, "reasoning_content"));
    var content := Json.NonEmptyString(Json.Member(delta, "content"));
    (if reasoning.Some? then [Reasoning(reasoning.value)] else [])
    + (if content.Some? then [Content(content.value)] else [])
  }

  /** A `data:` payload: parsed and read, or dropped when `JSON.parse`
      throws. */
  function PayloadChunks(payload: string, parse: string -> Option<Json.Value>): seq<Chunk> {
    match parse(payload)
    case Some(json) => DeltaChunks(json)
    case None => []
  }

  /** What one line (before trimming) yields; `[DONE]` yields nothing
      here, its effect on the rest of the stream is in `ScanLines`. */
  function LineChunks(line: string, parse: string -> Option<Json.Value>): seq<Chunk> {
    TrimmedLineChunks(Trim(line), parse)
  }

  function TrimmedLineChunks(line: string, parse: string -> Option<Json.Value>): seq<Chunk> {
    match Classify(line)
    case Data(payload) => PayloadChunks(payload, parse)
    case _ => []
  }

  // ---------------------------------------------------------------------
  // The whole text
  // ---------------------------------------------------------------------

  /** The result of reading the complete lines of a text: what they
      yielded, whether `[DONE]` was met, and the unterminated rest. */
  datatype Scan = Scan(chunks: seq<Chunk>, done: bool, rest: string)

  function Prepend(c: seq<Chunk>, s: Scan): Scan {
    s.(chunks := c + s.chunks)
  }

  function ScanLines(buffer: string, parse: string -> Option<Json.Value>): Scan
    decreases |buffer|
  {
    var eol := IndexOf(buffer, '\n');
    if eol < 0 then Scan([], false, buffer)
    else if Classify(Trim(buffer[..eol])) == Done then Scan([], true, "")
    else Prepend(LineChunks(buffer[..eol], parse), ScanLines(buffer[eol + 1..], parse))
  }

  /** Everything the generator yields for a response body `text`. */
  function Stream(text: string, parse: string -> Option<Json.Value>): seq<Chunk> {
    var s := ScanLines(text, parse);
    if s.done then s.chunks else s.chunks + LineChunks(s.rest, parse)
  }

  // ---------------------------------------------------------------------
  // Properties of the specification
  // ---------------------------------------------------------------------

  /** Cutting at the first newline of `line + "\n" + rest`. */
  lemma CutFirstLine(line: string, rest: string)
    requires '\n' !in line
    ensures IndexOf(line + "\n" + rest, '\n') == |line|
    ensures (line + "\n" + rest)[..|line|] == line && (line + "\n" + rest)[|line| + 1..] == rest
  {
    var t := line + "\n" + rest;
    assert t[|line|] == '\n';
    assert t[..|line|] == line;
    IndexOfAppend(line + "\n", rest, '\n');
    IndexOfSpec(line + "\n", '\n');
    assert forall j | 0 <= j < |line| :: (line + "\n")[j] == line[j];
  }

  /** A line other than `data: [DONE]` contributes its own chunks and the
      rest of the stream follows unchanged. */
  lemma LineThenRest(line: string, rest: string, parse: string -> Option<Json.Value>)
    requires '\n' !in line && Classify(Trim(line)) != Done
    ensures Stream(line + "\n" + rest, parse) == LineChunks(line, parse) + Stream(rest, parse)
  {
    CutFirstLine(line, rest);
    var s := ScanLines(rest, parse);
    assert ScanLines(line + "\n" + rest, parse) == Prepend(LineChunks(line, parse), s);
    if !s.done {
      AppendAssoc(LineChunks(line, parse), s.chunks, LineChunks(s.rest, parse));
    }
  }

  lemma AppendAssoc(a: seq<Chunk>, b: seq<Chunk>, c: seq<Chunk>)
    ensures (a + b) + c == a + (b + c)
  {
  }

  /** `data: [DONE]` ends the stream: nothing after it is yielded, not even
      a trailing unterminated line. */
  lemma DoneStops(line: string, rest: string, parse: string -> Option<Json.Value>)
    requires '\n' !in line && Classify(Trim(line)) == Done
    ensures Stream(line + "\n" + rest, parse) == []
  {
    CutFirstLine(line, rest);
  }

  /** A trailing line without a newline is read like a complete one. */
  lemma TrailingLineDrained(line: string, parse: string -> Option<Json.Value>)
    requires '\n' !in line
    ensures Stream(line, parse) == LineChunks(line, parse)
  {
  }

  /** Blank lines, lines not starting with `data:` and payloads that do not
      parse change nothing. */
  lemma SkippedLine(line: string, rest: string, parse: string -> Option<Json.Value>)
    requires '\n' !in line
    requires Trim(line) == "" || !StartsWith(Trim(line), DataPrefix)
      || (Classify(Trim(line)).Data? && parse(Classify(Trim(line)).payload).None?)
    ensures Stream(line + "\n" + rest, parse) == Stream(rest, parse)
  {
    LineThenRest(line, rest, parse);
  }

  lemma LineChunksNonEmpty(line: string, parse: string -> Option<Json.Value>)
    ensures forall c | c in LineChunks(line, parse) :: c.text != ""
  {
    var k := Classify(Trim(line));
    if k.Data? && parse(k.payload).Some? {
      var d := DeltaChunks(parse(k.payload).value);
    }
  }

  /** Every yielded chunk carries a non-empty text. */
  lemma {:induction false} ScanChunksNonEmpty(buffer: string, parse: string -> Option<Json.Value>)
    ensures forall c | c in ScanLines(buffer, parse).chunks :: c.text != ""
    decreases |buffer|
  {
    var eol := IndexOf(buffer, '\n');
    if eol >= 0 {
      ScanAt(buffer, eol, buffer[..eol], buffer[eol + 1..], parse);
      if Classify(Trim(buffer[..eol])) != Done {
        ScanChunksNonEmpty(buffer[eol + 1..], parse);
        LineChunksNonEmpty(buffer[..eol], parse);
      }
    }
  }

  lemma StreamChunksNonEmpty(text: string, parse: string -> Option<Json.Value>)
    ensures forall c | c in Stream(text, parse) :: c.text != ""
  {
    ScanChunksNonEmpty(text, parse);
  }

  // ---------------------------------------------------------------------
  // The parser as written
  // ---------------------------------------------------------------------

  /** One parsed payload: yield the reasoning, then the content. */
  method YieldDelta(data: string, parse: string -> Option<Json.Value>) returns (emitted: seq<Chunk>)
    ensures emitted == PayloadChunks(data, parse)
  {
    emitted := [];
    var json := parse(data);
    if json.Some? {
      var delta := DeltaOf(json.value);
      var reasoning := Json.Member(delta, "reasoning_content");
      if reasoning.Some? && reasoning.value.Str? && |reasoning.value.s| > 0 {
        emitted := emitted + [Reasoning(reasoning.value.s)];
      }
      var content := Json.Member(delta, "content");
      if content.Some? && content.value.Str? && |content.value.s| > 0 {
        emitted := emitted + [Content(content.value.s)];
      }
    }
  }

  /** The first newline of `buffer + tail` is the first newline of
      `buffer` when `buffer` has one. */
  lemma CutInBuffer(buffer: string, tail: string)
    requires IndexOf(buffer, '\n') >= 0
    ensures IndexOf(buffer + tail, '\n') == IndexOf(buffer, '\n')
    ensures (buffer + tail)[..IndexOf(buffer, '\n')] == buffer[..IndexOf(buffer, '\n')]
    ensures (buffer + tail)[IndexOf(buffer, '\n') + 1..] == buffer[IndexOf(buffer, '\n') + 1..] + tail
  {
    IndexOfSpec(buffer, '\n');
    IndexOfAppend(buffer, tail, '\n');
  }

  /** `ScanLines` at a text whose first line is `line`. */
  lemma ScanAt(t: string, eol: int, line: string, after: string, parse: string -> Option<Json.Value>)
    requires 0 <= eol == IndexOf(t, '\n') && t[..eol] == line && t[eol + 1..] == after
    ensures ScanLines(t, parse)
      == if Classify(Trim(line)) == Done then Scan([], true, "")
         else Prepend(LineChunks(line, parse), ScanLines(after, parse))
  {
  }

  /** One turn of the inner loop, stated on the specification. */
  lemma ScanLineStep(buffer: string, tail: string, parse: string -> Option<Json.Value>)
    requires IndexOf(buffer, '\n') >= 0
    ensures var eol := IndexOf(buffer, '\n');
      ScanLines(buffer + tail, parse)
      == if Classify(Trim(buffer[..eol])) == Done then Scan([], true, "")
         else Prepend(LineChunks(buffer[..eol], parse), ScanLines(buffer[eol + 1..] + tail, parse))
  {
    var eol := IndexOf(buffer, '\n');
    CutInBuffer(buffer, tail);
    ScanAt(buffer + tail, eol, buffer[..eol], buffer[eol + 1..] + tail, parse);
  }

  lemma PrependPrepend(a: seq<Chunk>, b: seq<Chunk>, s: Scan)
    ensures Prepend(a, Prepend(b, s)) == Prepend(a + b, s)
  {
    AppendAssoc(a, b, s.chunks);
  }

  /** Appending the next fragment to the buffer leaves the text still to
      read unchanged. */
  lemma FeedFragment(buffer: string, fragments: seq<string>, k: nat)
    requires k < |fragments|
    ensures buffer + Concat(fragments[k..]) == (buffer + fragments[k]) + Concat(fragments[k + 1..])
  {
    assert fragments[k..][1..] == fragments[k + 1..];
  }

  lemma ConcatBounds(fragments: seq<string>, buffer: string)
    ensures "" + Concat(fragments[0..]) == Concat(fragments)
    ensures buffer + Concat(fragments[|fragments|..]) == buffer
  {
    assert fragments[0..] == fragments;
    assert fragments[|fragments|..] == [];
  }

  /** A text without a newline has no complete line. */
  lemma NoCompleteLine(buffer: string, parse: string -> Option<Json.Value>)
    requires '\n' !in buffer
    ensures ScanLines(buffer, parse) == Scan([], false, buffer)
  {
    IndexOfSpec(buffer, '\n');
  }

  /** One trimmed line: `[DONE]` ends the stream; a `data:` payload
      yields its delta; anything else is skipped. */
  method ReadLine(line: string, parse: string -> Option<Json.Value>) returns (emitted: seq<Chunk>, done: bool)
    ensures done <==> Classify(line) == Done
    ensures emitted == TrimmedLineChunks(line, parse)
  {
    emitted, done := [], false;
    if line != "" && StartsWith(line, DataPrefix) {
      var data := Trim(line[|DataPrefix|..]);
      if data == "[DONE]" {
        done := true;
      } else {
        emitted := YieldDelta(data, parse);
      }
    }
  }

  /** One turn of the inner loop of `streamChatCompletion`: cut the
      buffer at its first newline and read the trimmed line. `tail` stands
      for the text still to arrive. */
  method CutLine(buffer: string, ghost tail: string, parse: string -> Option<Json.Value>)
    returns (emitted: seq<Chunk>, rest: string, done: bool)
    requires IndexOf(buffer, '\n') >= 0
    ensures |rest| < |buffer|
    ensures done ==> ScanLines(buffer + tail, parse) == Scan([], true, "")
    ensures !done ==> ScanLines(buffer + tail, parse) == Prepend(emitted, ScanLines(rest + tail, parse))
  {
    var eol := IndexOf(buffer, '\n');
    ScanLineStep(buffer, tail, parse);
    var line := Trim(buffer[..eol]);
    rest := buffer[eol + 1..];
    emitted, done := ReadLine(line, parse);
  }

  /** The inner loop of `streamChatCompletion`: cut and read every
      complete line of the buffer. */
  method ReadLines(buffer: string, ghost tail: string, parse: string -> Option<Json.Value>)
    returns (out: seq<Chunk>, rest: string, done: bool)
    ensures done ==> ScanLines(buffer + tail, parse) == Scan(out, true, "")
    ensures !done ==> '\n' !in rest && ScanLines(buffer + tail, parse) == Prepend(out, ScanLines(rest + tail, parse))
  {
    out, rest, done := [], buffer, false;
    ghost var target := ScanLines(buffer + tail, parse);
    while IndexOf(rest, '\n') >= 0
      invariant target == Prepend(out, ScanLines(rest + tail, parse))
      decreases |rest|
    {
      var emitted;
      ghost var before := rest;
      emitted, rest, done := CutLine(rest, tail, parse);
      if done {
        return;
      }
      PrependPrepend(out, emitted, ScanLines(rest + tail, parse));
      out := out + emitted;
    }
    IndexOfSpec(rest, '\n');
  }

  /** `streamChatCompletion` over the decoded fragments of the body. */
  method StreamChatCompletion(fragments: seq<string>, parse: string -> Option<Json.Value>) returns (out: seq<Chunk>)
    ensures out == Stream(Concat(fragments), parse)
  {
    ghost var whole := ScanLines(Concat(fragments), parse);
    out := [];
    var buffer := "";
    ConcatBounds(fragments, buffer);
    for k := 0 to |fragments|
      invariant '\n' !in buffer
      invariant Prepend(out, ScanLines(buffer + Concat(fragments[k..]), parse)) == whole
    {
      ghost var tail := Concat(fragments[k + 1..]);
      FeedFragment(buffer, fragments, k);
      buffer := buffer + fragments[k];
      var emitted, done;
      emitted, buffer, done := ReadLines(buffer, tail, parse);
      if done {
        out := out + emitted;
        return;
      }
      PrependPrepend(out, emitted, ScanLines(buffer + tail, parse));
      out := out + emitted;
    }
    ConcatBounds(fragments, buffer);
    NoCompleteLine(buffer, parse);
    assert whole == Scan(out, false, buffer);
    buffer := Trim(buffer);
    var emitted, done := ReadLine(buffer, parse);
    out := out + emitted;
  }
}
