/** The `reasoning_to_content` rewrite the chat handler applies to a
    DeepSeek stream. The upstream server-sent events are cut into lines;
    every complete line is trimmed and written back: a blank line as a bare
    newline, `data: [DONE]` unchanged (the stream goes on), a `data:`
    payload that parses re-serialised after moving the first choice's
    `reasoning_content` into its `content`, a payload that does not parse
    as it came, and any other line unchanged. A trailing line without a
    newline is never written.

    `Transform` reads the whole text at once; the handler's loop is proved
    to write exactly `Transform` of the concatenated fragments. */
module DeepSeekTransform {
  import opened Wrappers
  import opened Text
  import Json
  import OpenAiStream

  // ---------------------------------------------------------------------
  // The payload rewrite
  // ---------------------------------------------------------------------

  /** The two statements on `choice.delta`: a truthy `reasoning_content`
      becomes the `content` when the content is falsy, and is then
      deleted. A falsy `reasoning_content` (absent, '' or `null`) leaves
      the delta as it is. */
  function RewriteDelta(delta: map<string, Json.Value>): (r: map<string, Json.Value>)
    ensures var rc := Json.Member(Some(Json.Obj(delta)), "reasoning_content");
      var content := Json.Member(Some(Json.Obj(delta)), "content");
      && (!Json.Truthy(rc) ==> r == delta)
      && (Json.Truthy(rc) ==> "reasoning_content" !in r && "content" in r)
      && (Json.Truthy(rc) && !Json.Truthy(content) ==> r["content"] == delta["reasoning_content"])
      && (Json.Truthy(content) ==> "content" in r && r["content"] == delta["content"])
    ensures forall k :: k in delta && k != "content" && k != "reasoning_content" ==> k in r && r[k] == delta[k]
    ensures forall k :: k in r ==> k in delta || k == "content"
  {
    var rc := Json.Member(Some(Json.Obj(delta)), "reasoning_content");
    var content := Json.Member(Some(Json.Obj(delta)), "content");
    var moved := if Json.Truthy(rc) && !Json.Truthy(content) then delta["content" := rc.value] else delta;
    if Json.Truthy(rc) then moved - {"reasoning_content"} else moved
  }

  /** A rewritten delta is left alone by a second rewrite. */
  lemma RewriteDeltaIdempotent(delta: map<string, Json.Value>)
    ensures RewriteDelta(RewriteDelta(delta)) == RewriteDelta(delta)
  {
    var r := RewriteDelta(delta);
    assert Json.Member(Some(Json.Obj(r)), "reasoning_content").None? || r == delta;
  }

  /** Two objects with the same properties, equal everywhere but at `key`. */
  predicate SameExcept(f: map<string, Json.Value>, g: map<string, Json.Value>, key: string) {
    f.Keys == g.Keys && forall k :: k in f && k != key ==> g[k] == f[k]
  }

  /** A choice left alone, or changed only in its `delta`. */
  predicate ChoiceFrame(c: Json.Value, c': Json.Value) {
    c' == c || (c.Obj? && c'.Obj? && SameExcept(c.fields, c'.fields, "delta"))
  }

  /** A `choices` value changed at most in the choice `?.[0]` reaches, and
      there only in that choice's `delta`. */
  predicate ChoicesFrame(c: Json.Value, c': Json.Value) {
    match c
    case Arr(items) =>
      c'.Arr? && |c'.items| == |items|
      && (forall i :: 0 < i < |items| ==> c'.items[i] == items[i])
      && (|items| > 0 ==> ChoiceFrame(items[0], c'.items[0]))
    case Obj(cs) =>
      c'.Obj? && SameExcept(cs, c'.fields, "0")
      && ("0" in cs ==> ChoiceFrame(cs["0"], c'.fields["0"]))
    case _ => c' == c
  }

  /** A choice with an object `delta`, rewritten; `None` when the choice
      has no such delta and nothing happens. */
  function RewriteChoice(choice: Json.Value): (r: Option<Json.Value>)
    ensures r.Some? ==> ChoiceFrame(choice, r.value)
  {
    match choice
    case Obj(fields) =>
      if "delta" in fields && fields["delta"].Obj? then
        Some(Json.Obj(fields["delta" := Json.Obj(RewriteDelta(fields["delta"].fields))]))
      else None
    case _ => None
  }

  /** The parsed payload after the rewrite of `json?.choices?.[0]`: only
      that choice's delta changes, wherever `?.[0]` finds it (the first
      element of an array, or the property `"0"` of an object). */
  function Rewrite(json: Json.Value): (r: Json.Value)
    ensures match OpenAiStream.DeltaOf(json)
      case Some(Obj(delta)) => OpenAiStream.DeltaOf(r) == Some(Json.Obj(RewriteDelta(delta)))
      case _ => r == json
    ensures !json.Obj? ==> r == json
    ensures json.Obj? ==> r.Obj? && SameExcept(json.fields, r.fields, "choices")
    ensures json.Obj? && "choices" in json.fields ==> ChoicesFrame(json.fields["choices"], r.fields["choices"])
  {
    match json
    case Obj(f) =>
      if "choices" !in f then json
      else (match f["choices"]
        case Arr(items) =>
          if |items| == 0 || RewriteChoice(items[0]).None? then json
          else Json.Obj(f["choices" := Json.Arr(items[0 := RewriteChoice(items[0]).value])])
        case Obj(cs) =>
          if "0" !in cs || RewriteChoice(cs["0"]).None? then json
          else Json.Obj(f["choices" := Json.Obj(cs["0" := RewriteChoice(cs["0"]).value])])
        case _ => json)
    case _ => json
  }

  lemma RewriteChoiceIdempotent(choice: Json.Value)
    requires RewriteChoice(choice).Some?
    ensures RewriteChoice(RewriteChoice(choice).value) == RewriteChoice(choice)
  {
    var d := choice.fields["delta"].fields;
    RewriteDeltaIdempotent(d);
    var f1 := choice.fields["delta" := Json.Obj(RewriteDelta(d))];
    assert f1["delta" := Json.Obj(RewriteDelta(RewriteDelta(d)))] == f1;
  }

  /** Rewriting twice is rewriting once: a payload that already went
      through the handler is not changed again. */
  lemma RewriteIdempotent(json: Json.Value)
    ensures Rewrite(Rewrite(json)) == Rewrite(json)
  {
    if json.Obj? && "choices" in json.fields {
      var f := json.fields;
      match f["choices"]
      case Arr(items) =>
        if |items| > 0 && RewriteChoice(items[0]).Some? {
          RewriteChoiceIdempotent(items[0]);
          var c := RewriteChoice(items[0]).value;
          var f1 := f["choices" := Json.Arr(items[0 := c])];
          assert items[0 := c][0 := c] == items[0 := c];
          assert f1["choices" := Json.Arr(items[0 := c])] == f1;
        }
      case Obj(cs) =>
        if "0" in cs && RewriteChoice(cs["0"]).Some? {
          RewriteChoiceIdempotent(cs["0"]);
          var c := RewriteChoice(cs["0"]).value;
          var f1 := f["choices" := Json.Obj(cs["0" := c])];
          assert cs["0" := c]["0" := c] == cs["0" := c];
          assert f1["choices" := Json.Obj(cs["0" := c])] == f1;
        }
      case _ =>
    }
  }

  // ---------------------------------------------------------------------
  // One line
  // ---------------------------------------------------------------------

  const DoneWrite: string := "data: [DONE]\n\n"

  /** A write that ends a line. */
  predicate EndsLine(w: string) {
    |w| > 0 && w[|w| - 1] == '\n'
  }

  /** The write for one trimmed line. */
  function LineWrite(line: string, parse: string -> Option<Json.Value>, stringify: Json.Value -> string): (r: string)
    ensures EndsLine(r)
  {
    match OpenAiStream.Classify(line)
    case Blank => "\n"
    case Other => line + "\n"
    case Done => DoneWrite
    case Data(payload) =>
      match parse(payload)
      case Some(json) => "data: " + stringify(Rewrite(json)) + "\n\n"
      case None => "data: " + payload + "\n\n"
  }

  // ---------------------------------------------------------------------
  // The whole text
  // ---------------------------------------------------------------------

  /** The writes for the complete lines of a text and its unterminated
      rest. */
  datatype Pass = Pass(writes: seq<string>, rest: string)

  function PrependWrites(w: seq<string>, p: Pass): Pass {
    p.(writes := w + p.writes)
  }

  function ScanWrites(buffer: string, parse: string -> Option<Json.Value>, stringify: Json.Value -> string): Pass
    decreases |buffer|
  {
    var eol := IndexOf(buffer, '\n');
    if eol < 0 then Pass([], buffer)
    else PrependWrites([LineWrite(Trim(buffer[..eol]), parse, stringify)], ScanWrites(buffer[eol + 1..], parse, stringify))
  }

  /** Everything written for a response body `text`. */
  function Transform(text: string, parse: string -> Option<Json.Value>, stringify: Json.Value -> string): seq<string> {
    ScanWrites(text, parse, stringify).writes
  }

  // ---------------------------------------------------------------------
  // Properties of the specification
  // ---------------------------------------------------------------------

  /** Every complete line gives its own write and the rest of the text
      follows unchanged, whatever the line is: `data: [DONE]` does not end
      the rewrite. */
  lemma LineThenRest(line: string, rest: string, parse: string -> Option<Json.Value>, stringify: Json.Value -> string)
    requires '\n' !in line
    ensures Transform(line + "\n" + rest, parse, stringify) == [LineWrite(Trim(line), parse, stringify)] + Transform(rest, parse, stringify)
  {
    OpenAiStream.CutFirstLine(line, rest);
  }

  /** `data: [DONE]` is the end marker once the prefix is cut and the rest
      trimmed. */
  lemma DoneLineIsDone()
    ensures Trim("data: [DONE]") == "data: [DONE]"
    ensures OpenAiStream.Classify("data: [DONE]") == OpenAiStream.Done
  {
    var line := "data: [DONE]";
    assert !IsSpace(line[0]) && !IsSpace(line[|line| - 1]);
    assert TrimStart(line) == line;
    var data := " [DONE]";
    assert line[..|OpenAiStream.DataPrefix|] == OpenAiStream.DataPrefix;
    assert line[|OpenAiStream.DataPrefix|..] == data;
    assert IsSpace(data[0]) && data[1..] == "[DONE]";
    assert !IsSpace("[DONE]"[0]) && !IsSpace("[DONE]"[5]);
    assert TrimStart(data) == "[DONE]";
  }

  /** `data: [DONE]` is passed on and what follows it is still rewritten. */
  lemma DoneContinues(rest: string, parse: string -> Option<Json.Value>, stringify: Json.Value -> string)
    ensures Transform("data: [DONE]\n" + rest, parse, stringify) == [DoneWrite] + Transform(rest, parse, stringify)
  {
    var line := "data: [DONE]";
    assert "data: [DONE]\n" + rest == line + "\n" + rest;
    LineThenRest(line, rest, parse, stringify);
    DoneLineIsDone();
  }

  /** A text without a newline is never written: the handler has no drain
      after the last read. */
  lemma TrailingLineDropped(text: string, parse: string -> Option<Json.Value>, stringify: Json.Value -> string)
    requires '\n' !in text
    ensures Transform(text, parse, stringify) == [] && ScanWrites(text, parse, stringify).rest == text
  {
    IndexOfSpec(text, '\n');
  }

  /** Exactly one write per newline of the text. */
  lemma {:induction false} OneWritePerLine(text: string, parse: string -> Option<Json.Value>, stringify: Json.Value -> string)
    ensures |Transform(text, parse, stringify)| == multiset(text)['\n']
    decreases |text|
  {
    var eol := IndexOf(text, '\n');
    IndexOfSpec(text, '\n');
    if eol >= 0 {
      var line, rest := text[..eol], text[eol + 1..];
      assert text == line + "\n" + rest;
      assert multiset(line)['\n'] == 0;
      OneWritePerLine(rest, parse, stringify);
    } else {
      assert multiset(text)['\n'] == 0;
    }
  }

  /** Every write ends with a newline, so the client still sees whole
      lines. */
  lemma {:induction false} WritesEndLines(text: string, parse: string -> Option<Json.Value>, stringify: Json.Value -> string)
    ensures forall i :: 0 <= i < |Transform(text, parse, stringify)| ==> EndsLine(Transform(text, parse, stringify)[i])
    decreases |text|
  {
    var eol := IndexOf(text, '\n');
    if eol >= 0 {
      var w := LineWrite(Trim(text[..eol]), parse, stringify);
      var after := Transform(text[eol + 1..], parse, stringify);
      ScanAt(text, eol, text[..eol], text[eol + 1..], parse, stringify);
      WritesEndLines(text[eol + 1..], parse, stringify);
      var all := Transform(text, parse, stringify);
      assert all == [w] + after;
      forall i | 0 <= i < |all|
        ensures EndsLine(all[i])
      {
        if i > 0 {
          assert all[i] == after[i - 1];
        }
      }
    }
  }

  // ---------------------------------------------------------------------
  // The handler as written
  // ---------------------------------------------------------------------

  /** The `try` block on a parsed payload: the two statements on the
      first choice's delta, applied to a copy of the document. */
  method RewritePayload(json: Json.Value) returns (r: Json.Value)
    ensures r == Rewrite(json)
  {
    r := json;
    if !json.Obj? || "choices" !in json.fields {
      return;
    }
    var choices := json.fields["choices"];
    var choice: Option<Json.Value> := None;
    if choices.Arr? && |choices.items| > 0 {
      choice := Some(choices.items[0]);
    } else if choices.Obj? && "0" in choices.fields {
      choice := Some(choices.fields["0"]);
    }
    if choice.None? || !choice.value.Obj? || "delta" !in choice.value.fields || !choice.value.fields["delta"].Obj? {
      return;
    }
    var delta := choice.value.fields["delta"].fields;
    var reasoning := Json.Member(Some(Json.Obj(delta)), "reasoning_content");
    if Json.Truthy(reasoning) && !Json.Truthy(Json.Member(Some(Json.Obj(delta)), "content")) {
      delta := delta["content" := reasoning.value];
    }
    if Json.Truthy(reasoning) {
      delta := delta - {"reasoning_content"};
    }
    var updated := Json.Obj(choice.value.fields["delta" := Json.Obj(delta)]);
    if choices.Arr? {
      r := Json.Obj(json.fields["choices" := Json.Arr(choices.items[0 := updated])]);
    } else {
      r := Json.Obj(json.fields["choices" := Json.Obj(choices.fields["0" := updated])]);
    }
  }

  /** One trimmed line. */
  method WriteLine(line: string, parse: string -> Option<Json.Value>, stringify: Json.Value -> string) returns (w: string)
    ensures w == LineWrite(line, parse, stringify)
  {
    if line == "" {
      return "\n";
    }
    if !StartsWith(line, OpenAiStream.DataPrefix) {
      return line + "\n";
    }
    var data := Trim(line[|OpenAiStream.DataPrefix|..]);
    if data == "[DONE]" {
      return DoneWrite;
    }
    var json := parse(data);
    if json.None? {
      return "data: " + data + "\n\n";
    }
    var rewritten := RewritePayload(json.value);
    w := "data: " + stringify(rewritten) + "\n\n";
  }

  /** `ScanWrites` at a text whose first line is `line`. */
  lemma ScanAt(t: string, eol: int, line: string, after: string, parse: string -> Option<Json.Value>,
               stringify: Json.Value -> string)
    requires 0 <= eol == IndexOf(t, '\n') && t[..eol] == line && t[eol + 1..] == after
    ensures ScanWrites(t, parse, stringify)
      == PrependWrites([LineWrite(Trim(line), parse, stringify)], ScanWrites(after, parse, stringify))
  {
  }

  lemma PrependPrepend(a: seq<string>, b: seq<string>, p: Pass)
    ensures PrependWrites(a, PrependWrites(b, p)) == PrependWrites(a + b, p)
  {
    assert (a + b) + p.writes == a + (b + p.writes);
  }

  /** One turn of the inner loop: cut the buffer at its first newline and
      write the trimmed line. `tail` stands for the text still to arrive. */
  method CutLine(buffer: string, ghost tail: string, parse: string -> Option<Json.Value>, stringify: Json.Value -> string)
    returns (w: string, rest: string)
    requires IndexOf(buffer, '\n') >= 0
    ensures |rest| < |buffer|
    ensures ScanWrites(buffer + tail, parse, stringify) == PrependWrites([w], ScanWrites(rest + tail, parse, stringify))
  {
    var eol := IndexOf(buffer, '\n');
    OpenAiStream.CutInBuffer(buffer, tail);
    ScanAt(buffer + tail, eol, buffer[..eol], buffer[eol + 1..] + tail, parse, stringify);
    var line := Trim(buffer[..eol]);
    rest := buffer[eol + 1..];
    w := WriteLine(line, parse, stringify);
  }

  /** The inner loop: every complete line of the buffer. */
  method WriteLines(buffer: string, ghost tail: string, parse: string -> Option<Json.Value>, stringify: Json.Value -> string)
    returns (out: seq<string>, rest: string)
    ensures '\n' !in rest
    ensures ScanWrites(buffer + tail, parse, stringify) == PrependWrites(out, ScanWrites(rest + tail, parse, stringify))
  {
    out, rest := [], buffer;
    ghost var target := ScanWrites(buffer + tail, parse, stringify);
    while IndexOf(rest, '\n') >= 0
      invariant target == PrependWrites(out, ScanWrites(rest + tail, parse, stringify))
      decreases |rest|
    {
      var w;
      w, rest := CutLine(rest, tail, parse, stringify);
      PrependPrepend(out, [w], ScanWrites(rest + tail, parse, stringify));
      out := out + [w];
    }
    IndexOfSpec(rest, '\n');
  }

  lemma NoCompleteLine(buffer: string, parse: string -> Option<Json.Value>, stringify: Json.Value -> string)
    requires '\n' !in buffer
    ensures ScanWrites(buffer, parse, stringify) == Pass([], buffer)
  {
    IndexOfSpec(buffer, '\n');
  }

  /** The DeepSeek branch after a successful upstream response: the reads
      deliver `fragments`, then the body ends (`failure` is `None`) or a
      read fails with the given message, which is written as a comment. */
  method TransformStream(fragments: seq<string>, parse: string -> Option<Json.Value>, stringify: Json.Value -> string,
                         failure: Option<Option<string>>)
    returns (writes: seq<string>)
    ensures writes == Transform(Concat(fragments), parse, stringify)
      + (if failure.Some? then [": error " + failure.value.GetOr("Upstream error") + "\n\n"] else [])
  {
    ghost var whole := ScanWrites(Concat(fragments), parse, stringify);
    writes := [];
    var buffer := "";
    OpenAiStream.ConcatBounds(fragments, buffer);
    for k := 0 to |fragments|
      invariant '\n' !in buffer
      invariant PrependWrites(writes, ScanWrites(buffer + Concat(fragments[k..]), parse, stringify)) == whole
    {
      ghost var tail := Concat(fragments[k + 1..]);
      OpenAiStream.FeedFragment(buffer, fragments, k);
      buffer := buffer + fragments[k];
      var out;
      out, buffer := WriteLines(buffer, tail, parse, stringify);
      PrependPrepend(writes, out, ScanWrites(buffer + tail, parse, stringify));
      writes := writes + out;
    }
    OpenAiStream.ConcatBounds(fragments, buffer);
    NoCompleteLine(buffer, parse, stringify);
    assert whole.writes == writes;
    if failure.Some? {
      var message := if failure.value.Some? then failure.value.value else "Upstream error";
      writes := writes + [": error " + message + "\n\n"];
    }
  }
}
