/** The bracket-matching scanner of the Gemini streaming handler. Each read
    appends text to a buffer; the scanner walks the buffer character by
    character, and at every `{` counts braces forward (inside JSON strings
    too) until the count returns to zero. A balanced span is handed to
    `JSON.parse` and scanning resumes after it; when a `{` never balances,
    scanning resumes at the next character. The buffer then keeps what
    follows the last span, or stays as it was when no span was found.

    The module also holds a corrected scanner that stops at the first
    unbalanced `{`, with the property the as-written one lacks: the texts
    handed to `JSON.parse` do not depend on how the stream was cut into
    reads. */
module BraceScan {
  import opened Wrappers
  import opened Text

  // ---------------------------------------------------------------------
  // Brace depth
  // ---------------------------------------------------------------------

  function Step(c: char): int {
    if c == '{' then 1 else if c == '}' then -1 else 0
  }

  /** Opening minus closing braces in `s`. */
  function Depth(s: string): int {
    if s == [] then 0 else Depth(s[..|s| - 1]) + Step(s[|s| - 1])
  }

  /** `b[start..end]` inclusive is one balanced object as the scanner cuts
      it: it opens with `{`, closes with `}`, its depth is zero, and every
      non-empty proper prefix is still open. */
  ghost predicate Balanced(b: string, start: nat, end: nat) {
    && start < end < |b|
    && b[start] == '{' && b[end] == '}'
    && Depth(b[start..end + 1]) == 0
    && forall k :: start < k <= end ==> Depth(b[start..k]) >= 1
  }

  // ---------------------------------------------------------------------
  // The inner loop: find the closing brace
  // ---------------------------------------------------------------------

  /** The inner `for (j ...)` loop from position `j` with `count` open
      braces: the position where the count first reaches zero. */
  function CloseFrom(b: string, j: nat, count: int): (r: Option<nat>)
    requires j <= |b|
    ensures r.Some? ==> j <= r.value < |b|
    decreases |b| - j
  {
    if j == |b| then None
    else
      var c := count + Step(b[j]);
      if c == 0 then Some(j) else CloseFrom(b, j + 1, c)
  }

  /** The closing brace of the `{` at position `i`. */
  function Close(b: string, i: nat): (r: Option<nat>)
    requires i < |b|
    ensures r.Some? ==> i < r.value < |b|
  {
    CloseFrom(b, i + 1, 1)
  }

  lemma DepthSnoc(b: string, i: nat, j: nat)
    requires i <= j < |b|
    ensures Depth(b[i..j + 1]) == Depth(b[i..j]) + Step(b[j])
  {
    assert b[i..j + 1][..j - i] == b[i..j];
  }

  lemma {:induction false} CloseFromBalanced(b: string, i: nat, j: nat, count: int)
    requires i < j <= |b| && b[i] == '{'
    requires count == Depth(b[i..j])
    requires forall k :: i < k <= j ==> Depth(b[i..k]) >= 1
    ensures CloseFrom(b, j, count).Some? ==> Balanced(b, i, CloseFrom(b, j, count).value)
    decreases |b| - j
  {
    if j < |b| {
      DepthSnoc(b, i, j);
      var c := count + Step(b[j]);
      if c != 0 {
        CloseFromBalanced(b, i, j + 1, c);
      }
    }
  }

  /** A span the inner loop closes is balanced. */
  lemma CloseBalanced(b: string, i: nat)
    requires i < |b| && b[i] == '{'
    ensures Close(b, i).Some? ==> Balanced(b, i, Close(b, i).value)
  {
    DepthSnoc(b, i, i);
    assert b[i..i] == [];
    CloseFromBalanced(b, i, i + 1, 1);
  }

  lemma {:induction false} CloseFromComplete(b: string, i: nat, e: nat, j: nat, count: int)
    requires Balanced(b, i, e) && i < j <= e
    requires count == Depth(b[i..j])
    ensures CloseFrom(b, j, count) == Some(e)
    decreases e - j
  {
    DepthSnoc(b, i, j);
    if j < e {
      CloseFromComplete(b, i, e, j + 1, count + Step(b[j]));
    }
  }

  /** The inner loop misses no object: a balanced span starting at `i` is
      the one it closes. With `CloseBalanced`, `Close` finds exactly the
      balanced spans. */
  lemma CloseComplete(b: string, i: nat, e: nat)
    requires Balanced(b, i, e)
    ensures Close(b, i) == Some(e)
  {
    DepthSnoc(b, i, i);
    assert b[i..i] == [];
    CloseFromComplete(b, i, e, i + 1, 1);
  }

  // ---------------------------------------------------------------------
  // The outer loop, as written
  // ---------------------------------------------------------------------

  datatype Span = Span(start: nat, end: nat)

  /** The spans the outer loop cuts from position `i` on: after a span it
      resumes past the span's end, after an unbalanced `{` at the next
      character. */
  function SpansFrom(b: string, i: nat): seq<Span>
    requires i <= |b|
    decreases |b| - i
  {
    if i == |b| then []
    else if b[i] == '{' && Close(b, i).Some? then [Span(i, Close(b, i).value)] + SpansFrom(b, Close(b, i).value + 1)
    else SpansFrom(b, i + 1)
  }

  /** The value of `lastPos` after the loop: one past the last span. */
  function LastPos(spans: seq<Span>): nat {
    if spans == [] then 0 else spans[|spans| - 1].end + 1
  }

  /** `buffer.substring(start, end + 1)` for a span inside the buffer. */
  function Slice(b: string, span: Span): string {
    if span.start <= span.end < |b| then b[span.start..span.end + 1] else ""
  }

  /** The texts handed to `JSON.parse` during one read, in order. */
  function Texts(b: string, spans: seq<Span>): seq<string> {
    if spans == [] then [] else Texts(b, spans[..|spans| - 1]) + [Slice(b, spans[|spans| - 1])]
  }

  /** The buffer kept for the next read: `buffer.slice(lastPos)` when a
      span was cut, otherwise the buffer unchanged (`lastPos` never passes
      the end of the buffer: see `KeptSpec`). */
  function Kept(b: string): string {
    var p := LastPos(SpansFrom(b, 0));
    if 0 < p <= |b| then b[p..] else b
  }

  ghost predicate WellFormed(b: string, i: nat, spans: seq<Span>) {
    && (forall k :: 0 <= k < |spans| ==> i <= spans[k].start && Balanced(b, spans[k].start, spans[k].end))
    && (forall k :: 0 <= k < |spans| - 1 ==> spans[k].end < spans[k + 1].start)
  }

  lemma WellFormedCons(b: string, i: nat, e: nat, rest: seq<Span>)
    requires Balanced(b, i, e) && WellFormed(b, e + 1, rest)
    ensures WellFormed(b, i, [Span(i, e)] + rest)
  {
    var all := [Span(i, e)] + rest;
    forall k | 0 <= k < |all|
      ensures i <= all[k].start && Balanced(b, all[k].start, all[k].end)
    {
      if k > 0 {
        assert all[k] == rest[k - 1];
      }
    }
    forall k | 0 <= k < |all| - 1
      ensures all[k].end < all[k + 1].start
    {
      if k > 0 {
        assert all[k] == rest[k - 1] && all[k + 1] == rest[k];
      }
    }
  }

  lemma WellFormedFrom(b: string, i: nat, spans: seq<Span>)
    requires WellFormed(b, i + 1, spans)
    ensures WellFormed(b, i, spans)
  {
  }

  /** The spans of one read are balanced, in order and disjoint. */
  lemma {:induction false} SpansWellFormed(b: string, i: nat)
    requires i <= |b|
    ensures WellFormed(b, i, SpansFrom(b, i))
    decreases |b| - i
  {
    if i < |b| {
      if b[i] == '{' && Close(b, i).Some? {
        var e := Close(b, i).value;
        CloseBalanced(b, i);
        SpansWellFormed(b, e + 1);
        WellFormedCons(b, i, e, SpansFrom(b, e + 1));
      } else {
        SpansWellFormed(b, i + 1);
        WellFormedFrom(b, i, SpansFrom(b, i + 1));
      }
    }
  }

  /** Every text handed to `JSON.parse` opens with `{`, closes with `}`,
      and is balanced with every proper prefix still open. */
  lemma ParsedTextsBalanced(b: string)
    ensures var spans := SpansFrom(b, 0);
      forall k :: 0 <= k < |spans| ==> Balanced(b, spans[k].start, spans[k].end)
  {
    SpansWellFormed(b, 0);
  }

  /** The closing brace of the `{` at `i` does not depend on the text
      before `q`. */
  lemma {:induction false} CloseFromShift(b: string, q: nat, j: nat, count: int)
    requires q <= j <= |b|
    ensures CloseFrom(b, j, count).Some? <==> CloseFrom(b[q..], j - q, count).Some?
    ensures CloseFrom(b, j, count).Some? ==> CloseFrom(b, j, count).value == CloseFrom(b[q..], j - q, count).value + q
    decreases |b| - j
  {
    if j < |b| {
      assert b[q..][j - q] == b[j];
      CloseFromShift(b, q, j + 1, count + Step(b[j]));
    }
  }

  /** When no span is found from `i` on, no `{` from `i` on closes. */
  lemma {:induction false} NoSpansNoClose(b: string, i: nat)
    requires i <= |b| && SpansFrom(b, i) == []
    ensures forall k :: i <= k < |b| && b[k] == '{' ==> Close(b, k).None?
    decreases |b| - i
  {
    if i < |b| {
      NoSpansNoClose(b, i + 1);
    }
  }

  lemma {:induction false} LastSpansEmpty(b: string, i: nat)
    requires i <= |b| && SpansFrom(b, i) != []
    ensures var s := SpansFrom(b, i); s[|s| - 1].end + 1 <= |b| && SpansFrom(b, s[|s| - 1].end + 1) == []
    decreases |b| - i
  {
    if b[i] == '{' && Close(b, i).Some? {
      var e := Close(b, i).value;
      if SpansFrom(b, e + 1) != [] {
        LastSpansEmpty(b, e + 1);
      }
    } else {
      LastSpansEmpty(b, i + 1);
    }
  }

  /** The buffer keeps exactly what follows the last span, and all of it
      when no span was cut. */
  lemma KeptSpec(b: string)
    ensures SpansFrom(b, 0) == [] ==> Kept(b) == b
    ensures SpansFrom(b, 0) != [] ==> LastPos(SpansFrom(b, 0)) <= |b| && Kept(b) == b[LastPos(SpansFrom(b, 0))..]
  {
    if SpansFrom(b, 0) != [] {
      LastSpansEmpty(b, 0);
    }
  }

  /** What the buffer keeps has no complete object left in it: every `{`
      in it is still waiting for its closing brace. */
  lemma KeptIsOpen(b: string)
    ensures var r := Kept(b);
      forall k :: 0 <= k < |r| && r[k] == '{' ==> Close(r, k).None?
  {
    var spans := SpansFrom(b, 0);
    var p := LastPos(spans);
    if spans == [] {
      NoSpansNoClose(b, 0);
    } else {
      LastSpansEmpty(b, 0);
      NoSpansNoClose(b, p);
      var r := b[p..];
      forall k | 0 <= k < |r| && r[k] == '{'
        ensures Close(r, k).None?
      {
        assert b[p + k] == '{';
        CloseFromShift(b, p, p + k + 1, 1);
      }
    }
  }

  /** The buffer kept for the next read holds no balanced object. */
  lemma KeptHoldsNoObject(b: string)
    ensures var r := Kept(b); forall start: nat, end: nat :: !Balanced(r, start, end)
  {
    var r := Kept(b);
    KeptIsOpen(b);
    forall start: nat, end: nat
      ensures !Balanced(r, start, end)
    {
      if Balanced(r, start, end) {
        CloseComplete(r, start, end);
      }
    }
  }

  /** The texts after one read and the buffer kept. */
  datatype Read = Read(texts: seq<string>, kept: string)

  /** The scan of one buffer as written: the texts cut and the rest kept. */
  function Cut(b: string): Read {
    Read(Texts(b, SpansFrom(b, 0)), Kept(b))
  }

  /** One read as written: append the fragment, cut the spans, keep the
      rest. */
  function ReadOnce(buffer: string, fragment: string): Read {
    Cut(buffer + fragment)
  }

  /** The state after a sequence of reads: every text handed to
      `JSON.parse` so far, in order, and the buffer kept. */
  function Reads(fragments: seq<string>): Read
    decreases |fragments|
  {
    if fragments == [] then Read([], "")
    else
      var r := Reads(fragments[..|fragments| - 1]);
      var c := ReadOnce(r.kept, fragments[|fragments| - 1]);
      Read(r.texts + c.texts, c.kept)
  }

  lemma ReadsSnoc(fragments: seq<string>, k: nat)
    requires k < |fragments|
    ensures var r := Reads(fragments[..k]); var c := ReadOnce(r.kept, fragments[k]);
      Reads(fragments[..k + 1]) == Read(r.texts + c.texts, c.kept)
  {
    assert fragments[..k + 1][..k] == fragments[..k];
  }

  /** As written, the texts handed to `JSON.parse` depend on where the
      stream is cut: the object `{{}}` read in one piece is parsed whole,
      but read as `{{}` then `}` only its inner `{}` is parsed, and the
      outer object is never parsed at all. */
  lemma SplitChangesParsedTexts()
    ensures Reads(["{{}}"]).texts == ["{{}}"]
    ensures Reads(["{{}", "}"]).texts == ["{}"]
  {
    var whole := "{{}}";
    assert "" + whole == whole;
    assert CloseFrom(whole, 1, 1) == Some(3) by {
      assert CloseFrom(whole, 3, 1) == Some(3);
      assert CloseFrom(whole, 2, 2) == Some(3);
    }
    assert SpansFrom(whole, 4) == [];
    assert SpansFrom(whole, 0) == [Span(0, 3)];
    assert whole[0..4] == whole;
    var part := "{{}";
    assert "" + part == part;
    assert CloseFrom(part, 1, 1) == None by {
      assert CloseFrom(part, 3, 1) == None;
      assert CloseFrom(part, 2, 2) == None;
    }
    assert CloseFrom(part, 2, 1) == Some(2);
    assert SpansFrom(part, 3) == [];
    assert SpansFrom(part, 1) == [Span(1, 2)];
    assert SpansFrom(part, 0) == [Span(1, 2)];
    assert part[1..3] == "{}";
    assert Kept(part) == "";
    assert "" + "}" == "}";
    assert SpansFrom("}", 1) == [];
    assert SpansFrom("}", 0) == [];
  }

  // ---------------------------------------------------------------------
  // The scanner as written, imperatively
  // ---------------------------------------------------------------------

  /** The nested loops of one read: returns the spans cut, in order, and
      `lastPos`. */
  method CutObjects(buffer: string) returns (spans: seq<Span>, lastPos: nat)
    ensures spans == SpansFrom(buffer, 0)
    ensures lastPos == LastPos(spans)
  {
    spans, lastPos := [], 0;
    var i := 0;
    while i < |buffer|
      invariant 0 <= i <= |buffer|
      invariant spans + SpansFrom(buffer, i) == SpansFrom(buffer, 0)
      invariant lastPos == LastPos(spans)
      decreases |buffer| - i
    {
      if buffer[i] == '{' {
        ghost var start := i;
        var braceCount := 1;
        var j := i + 1;
        while j < |buffer|
          invariant start < j <= |buffer| && i == start
          invariant CloseFrom(buffer, j, braceCount) == Close(buffer, start)
          invariant spans + SpansFrom(buffer, start) == SpansFrom(buffer, 0)
          invariant lastPos == LastPos(spans)
          decreases |buffer| - j
        {
          if buffer[j] == '{' {
            braceCount := braceCount + 1;
          } else if buffer[j] == '}' {
            braceCount := braceCount - 1;
          }
          if braceCount == 0 {
            assert Close(buffer, start) == Some(j);
            AppendAssoc(spans, [Span(start, j)], SpansFrom(buffer, j + 1));
            spans := spans + [Span(i, j)];
            i := j;
            lastPos := j + 1;
            break;
          }
          j := j + 1;
        }
      }
      i := i + 1;
    }
  }

  lemma AppendAssoc(a: seq<Span>, b: seq<Span>, c: seq<Span>)
    ensures (a + b) + c == a + (b + c)
  {
  }

  // ---------------------------------------------------------------------
  // The corrected scanner
  // ---------------------------------------------------------------------

  /** The scan with the intended behaviour: an unbalanced `{` ends the
      scan, and the buffer keeps the text from that `{` on, so the object
      is completed by later reads instead of being cut apart. */
  function CutIntended(b: string): Read
    decreases |b|
  {
    if b == [] then Read([], "")
    else if b[0] != '{' then CutIntended(b[1..])
    else match Close(b, 0)
      case Some(e) =>
        var r := CutIntended(b[e + 1..]);
        r.(texts := [b[..e + 1]] + r.texts)
      case None => Read([], b)
  }

  /** All texts the corrected scanner hands to `JSON.parse` over a
      sequence of reads. */
  function ReadTextsIntended(buffer: string, fragments: seq<string>): seq<string>
    decreases |fragments|
  {
    if fragments == [] then []
    else
      var r := CutIntended(buffer + fragments[0]);
      r.texts + ReadTextsIntended(r.kept, fragments[1..])
  }

  lemma {:induction false} CloseFromPrefix(b: string, m: string, j: nat, count: int)
    requires j <= |b|
    ensures CloseFrom(b, j, count).Some? ==> CloseFrom(b + m, j, count) == CloseFrom(b, j, count)
    ensures CloseFrom(b, j, count).None? ==> CloseFrom(b + m, j, count).None? || CloseFrom(b + m, j, count).value >= |b|
    decreases |b| - j
  {
    if j < |b| {
      assert (b + m)[j] == b[j];
      CloseFromPrefix(b, m, j + 1, count + Step(b[j]));
    }
  }

  /** The corrected scan of `b + m` is the scan of `b` followed by the scan
      of what `b` kept, extended by `m`. */
  lemma {:induction false} CutIntendedSplit(b: string, m: string)
    ensures CutIntended(b + m).texts == CutIntended(b).texts + CutIntended(CutIntended(b).kept + m).texts
    decreases |b|
  {
    if b == [] {
      assert b + m == m;
    } else if b[0] != '{' {
      assert (b + m)[1..] == b[1..] + m;
      CutIntendedSplit(b[1..], m);
    } else {
      CloseFromPrefix(b, m, 1, 1);
      match Close(b, 0)
      case Some(e) =>
        assert (b + m)[..e + 1] == b[..e + 1];
        assert (b + m)[e + 1..] == b[e + 1..] + m;
        CutIntendedSplit(b[e + 1..], m);
      case None =>
    }
  }

  /** What the corrected scan keeps holds no complete object. */
  lemma {:induction false} KeptHasNoTexts(b: string)
    ensures CutIntended(CutIntended(b).kept).texts == []
    decreases |b|
  {
    if b != [] {
      if b[0] != '{' {
        KeptHasNoTexts(b[1..]);
      } else if Close(b, 0).Some? {
        KeptHasNoTexts(b[Close(b, 0).value + 1..]);
      }
    }
  }

  lemma {:induction false} ReadTextsIntendedConcat(buffer: string, fragments: seq<string>)
    requires CutIntended(buffer).texts == []
    ensures ReadTextsIntended(buffer, fragments) == CutIntended(buffer + Concat(fragments)).texts
    decreases |fragments|
  {
    if fragments == [] {
      assert buffer + Concat(fragments) == buffer;
    } else {
      var b := buffer + fragments[0];
      var r := CutIntended(b);
      KeptHasNoTexts(b);
      ReadTextsIntendedConcat(r.kept, fragments[1..]);
      CutIntendedSplit(b, Concat(fragments[1..]));
      CutIntendedSplit(buffer, fragments[0]);
      assert buffer + Concat(fragments) == b + Concat(fragments[1..]);
    }
  }

  /** The corrected scanner hands `JSON.parse` the same texts however the
      stream is cut into reads. */
  lemma IntendedSplitInvariant(fragments: seq<string>)
    ensures ReadTextsIntended("", fragments) == CutIntended(Concat(fragments)).texts
  {
    ReadTextsIntendedConcat("", fragments);
    assert "" + Concat(fragments) == Concat(fragments);
  }
}
