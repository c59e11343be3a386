/** `GeminiClient`'s request and response shaping: the conversion of chat
    messages to Gemini `contents`, the split of a candidate's parts into
    answer text and thought text, and the mapping of a non-streaming reply's
    candidates to OpenAI-style choices. The part rules are shared with the
    streaming handler, which reads parts the same way. */
module GeminiClient {
  import opened Wrappers
  import opened Text
  import Json

  // ---------------------------------------------------------------------
  // Messages to contents
  // ---------------------------------------------------------------------

  /** A chat message as the handler receives it. */
  datatype ChatMessage = ChatMessage(role: string, content: string)

  datatype GeminiRole = User | Model

  datatype GeminiContent = GeminiContent(role: GeminiRole, parts: seq<string>)

  /** The Gemini role of a chat role: only `assistant` speaks as `model`;
      system, tool and function messages are sent as the user's. */
  function RoleOf(role: string): (r: GeminiRole)
    ensures r == Model <==> role == "assistant"
  {
    if role == "assistant" then Model else User
  }

  /** `toGeminiContents`: one content per message, in order, with one text
      part holding the message's content. */
  method ToGeminiContents(messages: seq<ChatMessage>) returns (contents: seq<GeminiContent>)
    ensures |contents| == |messages|
    ensures forall i :: 0 <= i < |messages| ==>
      contents[i] == GeminiContent(RoleOf(messages[i].role), [messages[i].content])
  {
    contents := [];
    for k := 0 to |messages|
      invariant |contents| == k
      invariant forall i :: 0 <= i < k ==>
        contents[i] == GeminiContent(RoleOf(messages[i].role), [messages[i].content])
    {
      var m := messages[k];
      var role := User;
      if m.role == "assistant" {
        role := Model;
      }
      var text := m.content;
      contents := contents + [GeminiContent(role, [text])];
    }
  }

  // ---------------------------------------------------------------------
  // Parts
  // ---------------------------------------------------------------------

  /** `typeof p?.text === 'string' ? p.text : ''`. */
  function PartText(p: Json.Value): string {
    Json.AsString(Json.Member(Some(p), "text")).GetOr("")
  }

  /** A thought part: `thought` or `inlineThought` is `true`, or the role
      is 'thought'. */
  predicate IsThought(p: Json.Value) {
    Json.Member(Some(p), "thought") == Some(Json.Bool(true))
    || Json.Member(Some(p), "inlineThought") == Some(Json.Bool(true))
    || Json.Member(Some(p), "role") == Some(Json.Str("thought"))
  }

  /** The texts of the answer parts, joined in order. */
  function AnswerText(parts: seq<Json.Value>): string {
    if parts == [] then ""
    else
      var last := parts[|parts| - 1];
      AnswerText(parts[..|parts| - 1]) + (if IsThought(last) then "" else PartText(last))
  }

  /** The texts of the thought parts, joined in order. */
  function ThoughtText(parts: seq<Json.Value>): string {
    if parts == [] then ""
    else
      var last := parts[|parts| - 1];
      ThoughtText(parts[..|parts| - 1]) + (if IsThought(last) then PartText(last) else "")
  }

  /** The texts of all parts, joined in order. */
  function AllText(parts: seq<Json.Value>): string {
    if parts == [] then "" else AllText(parts[..|parts| - 1]) + PartText(parts[|parts| - 1])
  }

  /** Every part's text goes to exactly one of the two: without thought
      parts the answer is all the text, and the two lengths add up. */
  lemma {:induction false} PartsPartition(parts: seq<Json.Value>)
    ensures |AnswerText(parts)| + |ThoughtText(parts)| == |AllText(parts)|
    ensures (forall i :: 0 <= i < |parts| ==> !IsThought(parts[i]))
      ==> AnswerText(parts) == AllText(parts) && ThoughtText(parts) == ""
    ensures (forall i :: 0 <= i < |parts| ==> IsThought(parts[i]))
      ==> ThoughtText(parts) == AllText(parts) && AnswerText(parts) == ""
  {
    if parts != [] {
      var init := parts[..|parts| - 1];
      PartsPartition(init);
      assert forall i :: 0 <= i < |init| ==> init[i] == parts[i];
    }
  }

  /** The loop over a candidate's parts: each part's text is appended to
      the reasoning when it is a thought, to the text otherwise. */
  method SplitParts(parts: seq<Json.Value>) returns (text: string, reasoning: string)
    ensures text == AnswerText(parts) && reasoning == ThoughtText(parts)
  {
    text, reasoning := "", "";
    for k := 0 to |parts|
      invariant text == AnswerText(parts[..k]) && reasoning == ThoughtText(parts[..k])
    {
      assert parts[..k + 1][..k] == parts[..k];
      var p := parts[k];
      var partText := PartText(p);
      if IsThought(p) {
        reasoning := reasoning + partText;
      } else {
        text := text + partText;
      }
    }
    assert parts[..|parts|] == parts;
  }

  // ---------------------------------------------------------------------
  // Candidates to choices
  // ---------------------------------------------------------------------

  /** An OpenAI-style choice: the message content, an optional
      `reasoning_content`, and the finish reason (`null` as `None`). */
  datatype Choice = Choice(index: nat, content: string, reasoning: Option<string>, finish: Option<string>)

  /** `c?.content?.parts || []`, iterated: `None` when the value is truthy
      but not iterable, where the `for ... of` throws. */
  function PartsOf(c: Json.Value): Option<seq<Json.Value>> {
    Json.IterateOrEmpty(Json.Member(Json.Member(Some(c), "content"), "parts"))
  }

  /** The choice made from candidate `c` at position `idx`. */
  function ChoiceOf(c: Json.Value, idx: nat): (r: Option<Choice>)
    ensures r.None? <==> PartsOf(c).None?
    ensures r.Some? ==> r.value.index == idx && r.value.content == AnswerText(PartsOf(c).value)
    ensures r.Some? && ThoughtText(PartsOf(c).value) != "" ==> r.value.reasoning == Some(ThoughtText(PartsOf(c).value))
    ensures r.Some? && ThoughtText(PartsOf(c).value) == "" ==>
      r.value.reasoning == Json.NonEmptyString(Json.Member(Some(c), "reasoning_content"))
    ensures r.Some? ==> match Json.Member(Some(c), "finishReason")
      case Some(Str(fr)) => r.value.finish == Some(ToLower(fr))
      case _ => r.value.finish == None
  {
    match PartsOf(c)
    case None => None
    case Some(parts) =>
      var reasoning :=
        if ThoughtText(parts) != "" then ThoughtText(parts)
        else Json.AsString(Json.Member(Some(c), "reasoning_content")).GetOr("");
      var finish :=
        match Json.Member(Some(c), "finishReason")
        case Some(Str(fr)) => Some(ToLower(fr))
        case _ => None;
      Some(Choice(idx, AnswerText(parts), if reasoning != "" then Some(reasoning) else None, finish))
  }

  /** `Array.isArray(data?.candidates) ? data.candidates : []`. */
  function CandidatesOf(data: Json.Value): seq<Json.Value> {
    match Json.Member(Some(data), "candidates")
    case Some(Arr(items)) => items
    case _ => []
  }

  /** The choices of a reply: one per candidate, in order and numbered from
      0, or `None` when some candidate's parts are not iterable and the
      call throws. */
  function ChoicesOf(data: Json.Value): (r: Option<seq<Choice>>)
    ensures r.Some? ==> |r.value| == |CandidatesOf(data)|
    ensures r.Some? ==> forall i :: 0 <= i < |r.value| ==> Some(r.value[i]) == ChoiceOf(CandidatesOf(data)[i], i)
    ensures r.None? <==> exists i :: 0 <= i < |CandidatesOf(data)| && ChoiceOf(CandidatesOf(data)[i], i).None?
  {
    var cs := CandidatesOf(data);
    if forall i :: 0 <= i < |cs| ==> ChoiceOf(cs[i], i).Some? then
      Some(seq(|cs|, i requires 0 <= i < |cs| => ChoiceOf(cs[i], i).value))
    else None
  }

  /** A reply without a `candidates` array gives no choices. */
  lemma NoCandidatesNoChoices(data: Json.Value)
    requires Json.Member(Some(data), "candidates").None? || !Json.Member(Some(data), "candidates").value.Arr?
    ensures ChoicesOf(data) == Some([])
  {
  }

  /** One candidate, as the callback of `candidates.map` computes it. */
  method CandidateChoice(c: Json.Value, idx: nat) returns (r: Option<Choice>)
    ensures r == ChoiceOf(c, idx)
  {
    var partsValue := Json.Member(Json.Member(Some(c), "content"), "parts");
    var parts := Json.IterateOrEmpty(partsValue);
    if parts.None? {
      return None;
    }
    var text, reasoningContent := SplitParts(parts.value);
    var fallback := Json.Member(Some(c), "reasoning_content");
    if reasoningContent == "" && fallback.Some? && fallback.value.Str? {
      reasoningContent := fallback.value.s;
    }
    var finish: Option<string> := None;
    var fr := Json.Member(Some(c), "finishReason");
    if fr.Some? && fr.value.Str? {
      finish := Some(ToLower(fr.value.s));
    }
    r := Some(Choice(idx, text, if reasoningContent != "" then Some(reasoningContent) else None, finish));
  }

  /** The choices of `createChatCompletion`'s reply. */
  method CreateChatCompletionChoices(data: Json.Value) returns (r: Option<seq<Choice>>)
    ensures r == ChoicesOf(data)
  {
    var candidates := CandidatesOf(data);
    var choices: seq<Choice> := [];
    for idx := 0 to |candidates|
      invariant |choices| == idx
      invariant forall i :: 0 <= i < idx ==> Some(choices[i]) == ChoiceOf(candidates[i], i)
    {
      var choice := CandidateChoice(candidates[idx], idx);
      if choice.None? {
        return None;
      }
      choices := choices + [choice.value];
    }
    r := Some(choices);
    assert forall i :: 0 <= i < |candidates| ==> ChoiceOf(candidates[i], i).Some?;
    assert choices == ChoicesOf(data).value;
  }
}
