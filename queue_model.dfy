/** The request scheduler of the AI service (`AiRequestQueueService`), as a
    pure state machine. A `State` holds the FIFO queue, the requests whose
    `executeSingleRequest` is still awaiting the provider, the
    `activeProcessors` counter, the concurrency limit, and three logs the
    source leaves implicit: the settlements of the request promises (each
    `resolve`/`reject` call), the requests handed to a `performDirect*`
    call, and the admission loop's dispatches and pacing waits.

    The class in module RequestQueue runs the same operations imperatively
    and is proved to agree with the functions here. */
module QueueModel {
  import opened Wrappers

  datatype Mode = Call | Stream | StreamToResponse

  datatype Role = System | User | Assistant | Tool

  datatype Message = Message(role: Role, content: string)

  /** A queued request. `ticket` stands for the identity of the request
      object (every submission creates a new one); `id` is the printable
      identifier the source builds from the clock and a random number. The
      three flags say whether the abort signal has fired and whether the
      stream callback or the response transport was supplied. */
  datatype Request = Request(
    ticket: nat,
    id: string,
    mode: Mode,
    model: string,
    messages: seq<Message>,
    cancellationKey: Option<string>,
    aborted: bool,
    hasOnChunk: bool,
    hasResponse: bool)

  datatype Error = Error(name: string, message: string)

  datatype Response = Response(content: string, reasoning: string)

  /** What a request's promise was settled with: `resolve(value)` (no value
      for the transport mode) or `reject(error)`. */
  datatype Outcome = Resolved(value: Option<Response>) | Rejected(error: Error)

  datatype Settlement = Settlement(ticket: nat, outcome: Outcome)

  /** One step of the admission loop: a request taken from the head, or a
      wait of `ms` milliseconds before the next one. */
  datatype Step = Dispatched(ticket: nat) | Paced(ms: real)

  datatype State = State(
    queue: seq<Request>,
    executing: seq<Request>,
    active: int,
    limit: int,
    settled: seq<Settlement>,
    started: seq<nat>,
    trace: seq<Step>,
    issued: nat)

  const AbortedBeforeStart := Error("AbortError", "Request aborted before start")
  const MissingOnChunk := Error("Error", "Missing onChunk")
  const MissingResponse := Error("Error", "Missing response")
  const Destroyed := Error("Error", "AiRequestQueueService destroyed")

  function ReplacedError(id: string): Error {
    Error("Error", "Request " + id + " was cancelled and replaced.")
  }

  function Tickets(q: seq<Request>): (r: seq<nat>)
    ensures |r| == |q| && forall i :: 0 <= i < |q| ==> r[i] == q[i].ticket
  {
    seq(|q|, i requires 0 <= i < |q| => q[i].ticket)
  }

  function SettledTickets(st: seq<Settlement>): (r: seq<nat>)
    ensures |r| == |st| && forall i :: 0 <= i < |st| ==> r[i] == st[i].ticket
  {
    seq(|st|, i requires 0 <= i < |st| => st[i].ticket)
  }

  function Range(n: nat): (r: seq<nat>)
    ensures |r| == n && forall i :: 0 <= i < n ==> r[i] == i
  {
    seq(n, i requires 0 <= i < n => i)
  }

  /** A truthy cancellation key: present and not the empty string. */
  predicate HasKey(r: Request) {
    r.cancellationKey.Some? && r.cancellationKey.value != ""
  }

  /** At most one queued request carries a given non-empty key. */
  ghost predicate KeysUnique(q: seq<Request>) {
    forall i, j :: 0 <= i < j < |q| && HasKey(q[i]) ==> q[i].cancellationKey != q[j].cancellationKey
  }

  /** Every request ever submitted is in exactly one place: waiting in the
      queue, executing, or settled (once). */
  ghost predicate Conserved(s: State) {
    multiset(Tickets(s.queue)) + multiset(Tickets(s.executing)) + multiset(SettledTickets(s.settled))
      == multiset(Range(s.issued))
  }

  ghost predicate Wf(s: State) {
    && s.active == |s.executing|
    && s.limit >= 1
    && KeysUnique(s.queue)
    && Conserved(s)
  }

  // ---------------------------------------------------------------------
  // Admission (processQueue) and the synchronous start of a request
  // ---------------------------------------------------------------------

  /** The error `executeSingleRequest` throws before any `await`, so before
      any provider call: an already aborted signal, or a streaming mode
      without its callback or transport. */
  function StartFailure(r: Request): Option<Error> {
    if r.aborted then Some(AbortedBeforeStart)
    else if r.mode == Stream && !r.hasOnChunk then Some(MissingOnChunk)
    else if r.mode == StreamToResponse && !r.hasResponse then Some(MissingResponse)
    else None
  }

  /** One iteration of the admission loop: increment the counter, shift the
      head, start it; a request failing synchronously is rejected and its
      slot given back at once; wait when another slot is free and the queue
      is not empty. */
  function Dispatch(s: State, interval: real): (t: State)
    requires |s.queue| > 0
  {
    var h := s.queue[0];
    var s1 :=
      match StartFailure(h)
      case Some(e) =>
        s.(queue := s.queue[1..], settled := s.settled + [Settlement(h.ticket, Rejected(e))])
      case None =>
        s.(queue := s.queue[1..], executing := s.executing + [h], active := s.active + 1,
           started := s.started + [h.ticket]);
    var wait := if s1.active < s1.limit && |s1.queue| > 0 then [Paced(interval)] else [];
    s1.(trace := s.trace + [Dispatched(h.ticket)] + wait)
  }

  /** `processQueue`: dispatch from the head while a slot is free. */
  function Admit(s: State, interval: real): State
    decreases |s.queue|
  {
    if s.active < s.limit && |s.queue| > 0 then Admit(Dispatch(s, interval), interval) else s
  }

  /** The requests of `p` that reach a provider call, in order. */
  function Launched(p: seq<Request>): seq<Request> {
    if p == [] then []
    else (if StartFailure(p[0]).None? then [p[0]] else []) + Launched(p[1..])
  }

  /** The rejections of the requests of `p` that fail before starting. */
  function EarlyRejections(p: seq<Request>): seq<Settlement> {
    if p == [] then []
    else
      (match StartFailure(p[0])
       case Some(e) => [Settlement(p[0].ticket, Rejected(e))]
       case None => [])
      + EarlyRejections(p[1..])
  }

  lemma {:induction false} LaunchedAppend(p: seq<Request>, r: Request)
    ensures Launched(p + [r]) == Launched(p) + Launched([r])
    ensures EarlyRejections(p + [r]) == EarlyRejections(p) + EarlyRejections([r])
  {
    if p != [] {
      assert (p + [r])[1..] == p[1..] + [r];
      LaunchedAppend(p[1..], r);
    }
  }

  lemma LaunchedCons(h: Request, p: seq<Request>)
    ensures Launched([h] + p) == Launched([h]) + Launched(p)
    ensures EarlyRejections([h] + p) == EarlyRejections([h]) + EarlyRejections(p)
  {
    assert ([h] + p)[1..] == p;
    assert [h][1..] == [];
  }

  /** One dispatch moves the head to the executing set or to the
      settlements, and to the provider log only when it starts. */
  lemma DispatchMoves(s: State, interval: real)
    requires |s.queue| > 0
    ensures var d := Dispatch(s, interval); var h := s.queue[0];
      && d.queue == s.queue[1..]
      && d.executing == s.executing + Launched([h])
      && d.settled == s.settled + EarlyRejections([h])
      && d.started == s.started + Tickets(Launched([h]))
      && d.active == s.active + |Launched([h])|
      && d.limit == s.limit && d.issued == s.issued
  {
    var h := s.queue[0];
    assert [h][1..] == [];
  }

  /** The bookkeeping of one dispatch followed by the rest of the loop. */
  lemma StepShapes(h: Request, p: seq<Request>, ex: seq<Request>, st: seq<Settlement>, sn: seq<nat>)
    ensures ex + Launched([h]) + Launched(p) == ex + Launched([h] + p)
    ensures st + EarlyRejections([h]) + EarlyRejections(p) == st + EarlyRejections([h] + p)
    ensures sn + Tickets(Launched([h])) + Tickets(Launched(p)) == sn + Tickets(Launched([h] + p))
    ensures |Launched([h])| + |Launched(p)| == |Launched([h] + p)|
  {
    LaunchedCons(h, p);
    TicketsAppend(Launched([h]), Launched(p));
  }

  /** What `processQueue` does, stated without the loop: it takes a prefix
      of the queue in FIFO order; the prefix's requests that start go to
      the executing set and to the provider in that order, the others are
      rejected. */
  lemma {:induction false} AdmitSpec(s: State, interval: real)
    ensures var t := Admit(s, interval);
      var k := |s.queue| - |t.queue|;
      && 0 <= k <= |s.queue|
      && t.queue == s.queue[k..]
      && t.executing == s.executing + Launched(s.queue[..k])
      && t.settled == s.settled + EarlyRejections(s.queue[..k])
      && t.started == s.started + Tickets(Launched(s.queue[..k]))
      && t.active == s.active + |Launched(s.queue[..k])|
      && t.limit == s.limit && t.issued == s.issued
    decreases |s.queue|
  {
    if s.active < s.limit && |s.queue| > 0 {
      var d := Dispatch(s, interval);
      DispatchMoves(s, interval);
      AdmitSpec(d, interval);
      var t := Admit(d, interval);
      var k := |s.queue| - |t.queue|;
      var h := s.queue[0];
      assert s.queue[..k] == [h] + d.queue[..k - 1];
      assert d.queue[k - 1..] == s.queue[k..];
      StepShapes(h, d.queue[..k - 1], s.executing, s.settled, s.started);
    } else {
      assert s.queue[..0] == [];
      assert Launched([]) == [] && EarlyRejections([]) == [] && Tickets([]) == [];
    }
  }

  /** The tickets of the `Dispatched` steps of a trace, in order. */
  function Dispatches(trace: seq<Step>): seq<nat> {
    if trace == [] then []
    else
      Dispatches(trace[..|trace| - 1])
      + match trace[|trace| - 1] case Dispatched(t) => [t] case Paced(_) => []
  }

  lemma {:induction false} DispatchesAppend(a: seq<Step>, b: seq<Step>)
    ensures Dispatches(a + b) == Dispatches(a) + Dispatches(b)
    decreases |b|
  {
    if b == [] {
      assert a + b == a;
    } else {
      var last := b[|b| - 1];
      assert (a + b)[..|a + b| - 1] == a + b[..|b| - 1];
      DispatchesAppend(a, b[..|b| - 1]);
    }
  }

  /** One dispatch adds the head's ticket to the dispatches, and at most a
      pacing step besides. */
  lemma DispatchTrace(s: State, interval: real)
    requires |s.queue| > 0
    ensures Dispatches(Dispatch(s, interval).trace) == Dispatches(s.trace) + [s.queue[0].ticket]
  {
    var d := Dispatch(s, interval);
    var head := s.trace + [Dispatched(s.queue[0].ticket)];
    var wait := d.trace[|head|..];
    assert d.trace == head + wait;
    DispatchesAppend(head, wait);
    assert head[..|head| - 1] == s.trace;
    if wait != [] {
      assert wait == [Paced(interval)];
      assert wait[..0] == [];
    }
  }

  lemma OrderCons(after: seq<nat>, before: seq<nat>, q: seq<Request>, k: nat)
    requires k < |q|
    requires after == (before + [q[0].ticket]) + Tickets(q[1..][..k])
    ensures after == before + Tickets(q[..k + 1])
  {
    assert q[..k + 1] == [q[0]] + q[1..][..k];
    assert Tickets(q[..k + 1]) == [q[0].ticket] + Tickets(q[1..][..k]);
  }

  /** One turn of the admission loop: the head is dispatched, adding its
      ticket to the dispatches, and the loop goes on from there. */
  lemma AdmitStep(s: State, interval: real)
    requires s.active < s.limit && |s.queue| > 0
    ensures Admit(s, interval) == Admit(Dispatch(s, interval), interval)
    ensures Dispatch(s, interval).queue == s.queue[1..]
    ensures Dispatches(Dispatch(s, interval).trace) == Dispatches(s.trace) + [s.queue[0].ticket]
  {
    DispatchTrace(s, interval);
  }

  /** Admission takes requests from the head in queue order: the tickets
      it dispatches are those of the requests it removed, first to last,
      whatever pacing steps lie between them. */
  lemma {:induction false} AdmitDispatchOrder(s: State, interval: real)
    ensures var t := Admit(s, interval);
      var k := |s.queue| - |t.queue|;
      0 <= k <= |s.queue| && Dispatches(t.trace) == Dispatches(s.trace) + Tickets(s.queue[..k])
    decreases |s.queue|
  {
    if s.active < s.limit && |s.queue| > 0 {
      var d := Dispatch(s, interval);
      AdmitStep(s, interval);
      AdmitDispatchOrder(d, interval);
      var t := Admit(d, interval);
      OrderCons(Dispatches(t.trace), Dispatches(s.trace), s.queue, |d.queue| - |t.queue|);
    } else {
      assert s.queue[..0] == [];
    }
  }

  /** When `processQueue` returns, the queue is empty or no slot is free,
      and the counter has only risen while it was below the limit. */
  lemma {:induction false} AdmitExit(s: State, interval: real)
    ensures var t := Admit(s, interval);
      && (t.queue == [] || t.active >= t.limit)
      && t.limit == s.limit
      && t.active <= if s.active < s.limit then s.limit else s.active
    decreases |s.queue|
  {
    if s.active < s.limit && |s.queue| > 0 {
      DispatchMoves(s, interval);
      AdmitExit(Dispatch(s, interval), interval);
    }
  }

  /** Admission never pushes the counter past the limit: if it was within
      the limit before, it is after. */
  lemma AdmitRespectsLimit(s: State, interval: real)
    requires s.active <= s.limit
    ensures Admit(s, interval).active <= Admit(s, interval).limit
  {
    AdmitExit(s, interval);
  }

  /** A request whose signal is already aborted when its turn comes is
      rejected with an `AbortError` and never reaches the provider. */
  lemma AbortedNeverStarts(s: State, interval: real)
    requires s.active < s.limit && |s.queue| > 0 && s.queue[0].aborted
    ensures var t := Dispatch(s, interval);
      && t.settled == s.settled + [Settlement(s.queue[0].ticket, Rejected(AbortedBeforeStart))]
      && t.started == s.started && t.executing == s.executing && t.active == s.active
  {
  }

  // ---------------------------------------------------------------------
  // Submission with cancellation by key
  // ---------------------------------------------------------------------

  /** `queue.findIndex(q => q.cancellationKey === key)`. */
  function FindKey(q: seq<Request>, key: string): (i: int)
    ensures -1 <= i < |q|
    ensures i >= 0 ==> q[i].cancellationKey == Some(key)
    ensures forall j :: 0 <= j < |q| && (i < 0 || j < i) ==> q[j].cancellationKey != Some(key)
  {
    if q == [] then -1
    else if q[0].cancellationKey == Some(key) then 0
    else
      var i := FindKey(q[1..], key);
      if i < 0 then -1 else i + 1
  }

  /** The eviction step of `submitRequest`: with a truthy key, the first
      queued request with that key is spliced out and rejected. */
  function Evict(s: State, key: Option<string>): State {
    if key.Some? && key.value != "" then
      var i := FindKey(s.queue, key.value);
      if i >= 0 then
        s.(queue := s.queue[..i] + s.queue[i + 1..],
           settled := s.settled + [Settlement(s.queue[i].ticket, Rejected(ReplacedError(s.queue[i].id)))])
      else s
    else s
  }

  /** `submitRequest`: evict by key, append the new request (with a fresh
      identity) at the tail, run the admission loop. */
  function Submit(s: State, r: Request, interval: real): State {
    var e := Evict(s, r.cancellationKey);
    Admit(e.(queue := e.queue + [r.(ticket := s.issued)], issued := s.issued + 1), interval)
  }

  /** Removing the element at `i` from a queue. */
  function RemoveAt(q: seq<Request>, i: nat): seq<Request>
    requires i < |q|
  {
    q[..i] + q[i + 1..]
  }

  /** Eviction removes at most one queued request and rejects exactly that
      one with the "cancelled and replaced" error; requests already
      executing are not touched; afterwards no queued request carries the
      key. */
  lemma {:induction false} EvictSpec(s: State, key: Option<string>)
    requires KeysUnique(s.queue)
    ensures var e := Evict(s, key);
      && e.executing == s.executing && e.active == s.active && e.started == s.started
      && e.issued == s.issued && e.limit == s.limit
      && (|| (e.queue == s.queue && e.settled == s.settled)
          || exists i :: 0 <= i < |s.queue| && HasKey(s.queue[i]) && s.queue[i].cancellationKey == key
               && e.queue == RemoveAt(s.queue, i)
               && e.settled == s.settled + [Settlement(s.queue[i].ticket, Rejected(ReplacedError(s.queue[i].id)))])
      && (key.Some? && key.value != "" ==> forall j :: 0 <= j < |e.queue| ==> e.queue[j].cancellationKey != key)
  {
    if key.Some? && key.value != "" {
      var i := FindKey(s.queue, key.value);
      if i >= 0 {
        var e := Evict(s, key);
        forall j | 0 <= j < |e.queue| ensures e.queue[j].cancellationKey != key {
          if j < i {
          } else {
            assert e.queue[j] == s.queue[j + 1];
          }
        }
      }
    }
  }

  /** After a submission with a truthy key, and before admission, the new
      request is the only queued request with that key, and it is last. */
  lemma SubmitReplaces(s: State, r: Request)
    requires KeysUnique(s.queue) && HasKey(r)
    ensures var e := Evict(s, r.cancellationKey);
      var q := e.queue + [r.(ticket := s.issued)];
      && q[|q| - 1].cancellationKey == r.cancellationKey
      && forall j :: 0 <= j < |q| - 1 ==> q[j].cancellationKey != r.cancellationKey
  {
    EvictSpec(s, r.cancellationKey);
  }

  // ---------------------------------------------------------------------
  // Completion, concurrency changes, destruction
  // ---------------------------------------------------------------------

  /** The value a finished `performDirect*` call settles the promise with:
      the transport mode resolves with no value. */
  function Settle(r: Request, provider: Outcome): (o: Outcome)
    ensures o.Rejected? <==> provider.Rejected?
    ensures o.Rejected? ==> o == provider
    ensures o.Resolved? && r.mode == StreamToResponse ==> o.value.None?
    ensures o.Resolved? && r.mode != StreamToResponse ==> o == provider
  {
    match provider
    case Resolved(v) => if r.mode == StreamToResponse then Resolved(None) else Resolved(v)
    case Rejected(e) => Rejected(e)
  }

  /** The tail of `executeSingleRequest` once its provider call settles:
      resolve or reject, decrement the counter in `finally`, re-enter the
      admission loop. */
  function Complete(s: State, slot: nat, provider: Outcome, interval: real): State
    requires slot < |s.executing|
  {
    var r := s.executing[slot];
    Admit(s.(executing := RemoveAt(s.executing, slot), active := s.active - 1,
             settled := s.settled + [Settlement(r.ticket, Settle(r, provider))]), interval)
  }

  /** `setConcurrency`: store `max(1, limit)`; when that changes the limit
      and frees a slot while requests wait, admit at once. */
  function SetConcurrency(s: State, limit: int, interval: real): State {
    var v := if limit < 1 then 1 else limit;
    if s.limit != v then
      var t := s.(limit := v);
      if v > s.active && |s.queue| > 0 then Admit(t, interval) else t
    else s
  }

  lemma SetConcurrencySpec(s: State, limit: int, interval: real)
    ensures var t := SetConcurrency(s, limit, interval);
      && t.limit == (if limit < 1 then 1 else limit)
      && (t.limit == s.limit ==> t == s)
      && |t.queue| <= |s.queue|
      && (t.queue == [] || t.active >= t.limit || t.limit == s.limit)
  {
    var v := if limit < 1 then 1 else limit;
    if s.limit != v {
      AdmitSpec(s.(limit := v), interval);
      AdmitExit(s.(limit := v), interval);
    }
  }

  function Rejections(q: seq<Request>, e: Error): (r: seq<Settlement>)
    ensures |r| == |q| && forall i :: 0 <= i < |q| ==> r[i] == Settlement(q[i].ticket, Rejected(e))
  {
    seq(|q|, i requires 0 <= i < |q| => Settlement(q[i].ticket, Rejected(e)))
  }

  /** `destroy`: every queued request is rejected, in queue order, and the
      queue is emptied; executing requests are left alone. */
  function Destroy(s: State): (t: State)
    ensures t.queue == [] && t.executing == s.executing && t.active == s.active
    ensures t.settled == s.settled + Rejections(s.queue, Destroyed)
  {
    if |s.queue| > 0 then s.(settled := s.settled + Rejections(s.queue, Destroyed), queue := []) else s
  }

  // ---------------------------------------------------------------------
  // The invariant: every operation keeps Wf
  // ---------------------------------------------------------------------

  lemma TicketsAppend(a: seq<Request>, b: seq<Request>)
    ensures Tickets(a + b) == Tickets(a) + Tickets(b)
  {
  }

  lemma SettledTicketsAppend(a: seq<Settlement>, b: seq<Settlement>)
    ensures SettledTickets(a + b) == SettledTickets(a) + SettledTickets(b)
  {
  }

  lemma {:induction false} KeysUniqueRemove(q: seq<Request>, i: nat)
    requires i < |q| && KeysUnique(q)
    ensures KeysUnique(RemoveAt(q, i))
  {
    var p := RemoveAt(q, i);
    forall a, b | 0 <= a < b < |p| && HasKey(p[a])
      ensures p[a].cancellationKey != p[b].cancellationKey
    {
      var a' := if a < i then a else a + 1;
      var b' := if b < i then b else b + 1;
      assert p[a] == q[a'] && p[b] == q[b'];
    }
  }

  lemma {:induction false} RemoveAtTickets(q: seq<Request>, i: nat)
    requires i < |q|
    ensures multiset(Tickets(q)) == multiset(Tickets(RemoveAt(q, i))) + multiset{q[i].ticket}
  {
    assert q == q[..i] + [q[i]] + q[i + 1..];
    SplitTickets(q[..i], q[i], q[i + 1..]);
  }

  lemma SplitTickets(a: seq<Request>, x: Request, b: seq<Request>)
    ensures multiset(Tickets(a + [x] + b)) == multiset(Tickets(a + b)) + multiset{x.ticket}
  {
    TicketsAppend(a + [x], b);
    TicketsAppend(a, [x]);
    TicketsAppend(a, b);
  }

  /** The head goes to exactly one of the executing set and the
      settlements. */
  lemma OneDestination(h: Request)
    ensures multiset(Tickets(Launched([h]))) + multiset(SettledTickets(EarlyRejections([h])))
      == multiset{h.ticket}
  {
    assert [h][1..] == [];
  }

  lemma MoveHeadConserved(h: Request, q: seq<Request>, ex: seq<Request>, st: seq<Settlement>, n: nat)
    requires multiset(Tickets([h] + q)) + multiset(Tickets(ex)) + multiset(SettledTickets(st)) == multiset(Range(n))
    ensures multiset(Tickets(q)) + multiset(Tickets(ex + Launched([h])))
      + multiset(SettledTickets(st + EarlyRejections([h]))) == multiset(Range(n))
  {
    TicketsAppend([h], q);
    TicketsAppend(ex, Launched([h]));
    SettledTicketsAppend(st, EarlyRejections([h]));
    OneDestination(h);
  }

  lemma DispatchConserved(s: State, interval: real)
    requires Conserved(s) && |s.queue| > 0
    ensures Conserved(Dispatch(s, interval))
  {
    DispatchMoves(s, interval);
    assert s.queue == [s.queue[0]] + s.queue[1..];
    MoveHeadConserved(s.queue[0], s.queue[1..], s.executing, s.settled, s.issued);
  }

  lemma DispatchWf(s: State, interval: real)
    requires Wf(s) && |s.queue| > 0
    ensures Wf(Dispatch(s, interval))
  {
    DispatchMoves(s, interval);
    DispatchConserved(s, interval);
    assert RemoveAt(s.queue, 0) == s.queue[1..];
    KeysUniqueRemove(s.queue, 0);
  }

  lemma {:induction false} AdmitWf(s: State, interval: real)
    requires Wf(s)
    ensures Wf(Admit(s, interval))
    decreases |s.queue|
  {
    if s.active < s.limit && |s.queue| > 0 {
      DispatchWf(s, interval);
      AdmitWf(Dispatch(s, interval), interval);
    }
  }

  lemma EvictWf(s: State, key: Option<string>)
    requires Wf(s)
    ensures Wf(Evict(s, key))
  {
    if key.Some? && key.value != "" {
      var i := FindKey(s.queue, key.value);
      if i >= 0 {
        var e := Evict(s, key);
        var st := Settlement(s.queue[i].ticket, Rejected(ReplacedError(s.queue[i].id)));
        assert e.queue == RemoveAt(s.queue, i) && e.settled == s.settled + [st];
        RemoveAtTickets(s.queue, i);
        SettledTicketsAppend(s.settled, [st]);
        assert multiset(SettledTickets(e.settled)) == multiset(SettledTickets(s.settled)) + multiset{st.ticket};
        assert Conserved(e);
        KeysUniqueRemove(s.queue, i);
      }
    }
  }

  /** Appending the new request with the next identity keeps the
      invariant, provided no queued request shares its key. */
  lemma AppendWf(e: State, r: Request)
    requires Wf(e)
    requires HasKey(r) ==> forall j :: 0 <= j < |e.queue| ==> e.queue[j].cancellationKey != r.cancellationKey
    ensures Wf(e.(queue := e.queue + [r.(ticket := e.issued)], issued := e.issued + 1))
  {
    var r' := r.(ticket := e.issued);
    var a := e.(queue := e.queue + [r'], issued := e.issued + 1);
    TicketsAppend(e.queue, [r']);
    assert Range(e.issued + 1) == Range(e.issued) + [e.issued];
    forall x, y | 0 <= x < y < |a.queue| && HasKey(a.queue[x])
      ensures a.queue[x].cancellationKey != a.queue[y].cancellationKey
    {
      assert a.queue[x] == e.queue[x];
    }
  }

  lemma SubmitWf(s: State, r: Request, interval: real)
    requires Wf(s)
    ensures Wf(Submit(s, r, interval))
  {
    var e := Evict(s, r.cancellationKey);
    EvictSpec(s, r.cancellationKey);
    EvictWf(s, r.cancellationKey);
    AppendWf(e, r);
    AdmitWf(e.(queue := e.queue + [r.(ticket := e.issued)], issued := e.issued + 1), interval);
  }

  lemma CompleteWf(s: State, slot: nat, provider: Outcome, interval: real)
    requires Wf(s) && slot < |s.executing|
    ensures Wf(Complete(s, slot, provider, interval))
  {
    var r := s.executing[slot];
    RemoveAtTickets(s.executing, slot);
    SettledTicketsAppend(s.settled, [Settlement(r.ticket, Settle(r, provider))]);
    AdmitWf(s.(executing := RemoveAt(s.executing, slot), active := s.active - 1,
               settled := s.settled + [Settlement(r.ticket, Settle(r, provider))]), interval);
  }

  lemma SetConcurrencyWf(s: State, limit: int, interval: real)
    requires Wf(s)
    ensures Wf(SetConcurrency(s, limit, interval))
  {
    var v := if limit < 1 then 1 else limit;
    if s.limit != v {
      AdmitWf(s.(limit := v), interval);
    }
  }

  lemma DestroyWf(s: State)
    requires Wf(s)
    ensures Wf(Destroy(s))
  {
    SettledTicketsAppend(s.settled, Rejections(s.queue, Destroyed));
    assert SettledTickets(Rejections(s.queue, Destroyed)) == Tickets(s.queue);
  }

  // ---------------------------------------------------------------------
  // Steps as the class performs them, field by field
  // ---------------------------------------------------------------------

  /** A state built field by field as one admission step builds it is that
      step's state, and keeps the invariant. */
  lemma DispatchStep(pre: State, t: State, interval: real)
    requires Wf(pre) && |pre.queue| > 0 && pre.active < pre.limit
    requires t.queue == pre.queue[1..] && t.limit == pre.limit && t.issued == pre.issued
    requires match StartFailure(pre.queue[0])
      case Some(e) =>
        && t.settled == pre.settled + [Settlement(pre.queue[0].ticket, Rejected(e))]
        && t.active == pre.active && t.executing == pre.executing && t.started == pre.started
      case None =>
        && t.executing == pre.executing + [pre.queue[0]] && t.started == pre.started + [pre.queue[0].ticket]
        && t.active == pre.active + 1 && t.settled == pre.settled
    requires t.trace == pre.trace + [Dispatched(pre.queue[0].ticket)]
      + (if t.active < t.limit && |t.queue| > 0 then [Paced(interval)] else [])
    ensures t == Dispatch(pre, interval) && Wf(t)
    ensures Admit(t, interval) == Admit(pre, interval)
  {
    DispatchWf(pre, interval);
  }

  /** The state after the eviction and the append of `submitRequest`. */
  lemma SubmitStep(s: State, e: State, t: State, r: Request, interval: real)
    requires Wf(s) && e == Evict(s, r.cancellationKey)
    requires t == e.(queue := e.queue + [r.(ticket := s.issued)], issued := s.issued + 1)
    ensures Wf(t) && Admit(t, interval) == Submit(s, r, interval)
  {
    EvictSpec(s, r.cancellationKey);
    EvictWf(s, r.cancellationKey);
    AppendWf(e, r);
  }

  /** The state after the settlement and the `finally` decrement of a
      completed request. */
  lemma CompleteStep(s: State, t: State, slot: nat, provider: Outcome, interval: real)
    requires Wf(s) && slot < |s.executing|
    requires t == s.(executing := RemoveAt(s.executing, slot), active := s.active - 1,
      settled := s.settled + [Settlement(s.executing[slot].ticket, Settle(s.executing[slot], provider))])
    ensures Wf(t) && Admit(t, interval) == Complete(s, slot, provider, interval)
  {
    var r := s.executing[slot];
    RemoveAtTickets(s.executing, slot);
    SettledTicketsAppend(s.settled, [Settlement(r.ticket, Settle(r, provider))]);
  }

  // ---------------------------------------------------------------------
  // Pacing interval
  // ---------------------------------------------------------------------

  function Max(a: real, b: real): real { if a >= b then a else b }

  function Min(a: real, b: real): real { if a <= b then a else b }

  /** `Math.max(lo, Math.min(hi, x))`. */
  function Clamp(lo: real, hi: real, x: real): real {
    Max(lo, Min(hi, x))
  }

  /** The clamp lands in `[lo, hi]` when that range is not empty, and on
      `lo` otherwise; values inside the range are kept. */
  lemma ClampBounds(lo: real, hi: real, x: real)
    ensures lo <= hi ==> lo <= Clamp(lo, hi, x) <= hi
    ensures lo > hi ==> Clamp(lo, hi, x) == lo
    ensures lo <= x <= hi ==> Clamp(lo, hi, x) == x
    ensures Clamp(lo, hi, Clamp(lo, hi, x)) == Clamp(lo, hi, x)
  {
  }

  /** The off-peak test of `adjustIntervalForTimeOfDay`, on the hour
      shifted to UTC+8. */
  predicate OffPeak(utcHour: int, utcMinute: int) {
    var hourBj := (utcHour + 8) % 24;
    (hourBj == 0 && utcMinute >= 30) || (1 <= hourBj <= 7) || (hourBj == 8 && utcMinute <= 30)
  }

  /** Off-peak is the band from 00:30 to 08:30 inclusive in UTC+8, which is
      16:30 to 00:30 inclusive in UTC. */
  lemma OffPeakWindow(utcHour: int, utcMinute: int)
    requires 0 <= utcHour < 24 && 0 <= utcMinute < 60
    ensures OffPeak(utcHour, utcMinute)
        <==> 30 <= ((utcHour + 8) % 24) * 60 + utcMinute <= 8 * 60 + 30
    ensures OffPeak(utcHour, utcMinute)
        <==> (utcHour == 16 && utcMinute >= 30) || 17 <= utcHour <= 23 || (utcHour == 0 && utcMinute <= 30)
  {
    var hourBj := (utcHour + 8) % 24;
    assert hourBj == if utcHour < 16 then utcHour + 8 else utcHour - 16;
  }

  /** The interval `adjustIntervalForTimeOfDay` stores. */
  function TimeOfDayInterval(lo: real, peak: real, offPeak: real, hi: real, utcHour: int, utcMinute: int): real {
    Clamp(lo, hi, if OffPeak(utcHour, utcMinute) then offPeak else peak)
  }

  /** The interval `setActivityLevel` stores: ×0.66 when active, ×1.5 when
      idle, clamped. */
  function ActivityInterval(current: real, lo: real, hi: real, isActive: bool): real {
    Clamp(lo, hi, if isActive then current * 0.66 else current * 1.5)
  }

  /** Both writers of the interval leave it inside `[lo, hi]` when
      `lo <= hi`; the time of day selects the off-peak setting exactly in
      the off-peak band. */
  lemma IntervalInBounds(lo: real, peak: real, offPeak: real, hi: real, current: real, h: int, m: int, isActive: bool)
    requires lo <= hi
    ensures lo <= TimeOfDayInterval(lo, peak, offPeak, hi, h, m) <= hi
    ensures lo <= ActivityInterval(current, lo, hi, isActive) <= hi
    ensures lo <= offPeak <= hi && OffPeak(h, m) ==> TimeOfDayInterval(lo, peak, offPeak, hi, h, m) == offPeak
    ensures lo <= peak <= hi && !OffPeak(h, m) ==> TimeOfDayInterval(lo, peak, offPeak, hi, h, m) == peak
  {
    ClampBounds(lo, hi, if OffPeak(h, m) then offPeak else peak);
    ClampBounds(lo, hi, if isActive then current * 0.66 else current * 1.5);
  }

  // ---------------------------------------------------------------------
  // Status snapshot
  // ---------------------------------------------------------------------

  /** Index of the first message with role `user`, or -1. */
  function FirstUser(messages: seq<Message>): (i: int)
    ensures -1 <= i < |messages|
    ensures i >= 0 ==> messages[i].role == User
    ensures forall j :: 0 <= j < |messages| && (i < 0 || j < i) ==> messages[j].role != User
  {
    if messages == [] then -1
    else if messages[0].role == User then 0
    else
      var i := FirstUser(messages[1..]);
      if i < 0 then -1 else i + 1
  }

  /** `messages.find(m => m.role === 'user')?.content?.slice(0, 50) ?? 'N/A'`. */
  function Snippet(messages: seq<Message>): (r: string)
    ensures r == "N/A" <==> (forall j :: 0 <= j < |messages| ==> messages[j].role != User)
                            || messages[FirstUser(messages)].content[..if |messages[FirstUser(messages)].content| < 50 then |messages[FirstUser(messages)].content| else 50] == "N/A"
    ensures FirstUser(messages) < 0 ==> r == "N/A"
    ensures FirstUser(messages) >= 0 ==>
      var c := messages[FirstUser(messages)].content;
      |r| <= 50 && |r| <= |c| && r == c[..|r|] && (|r| < 50 ==> r == c)
  {
    var i := FirstUser(messages);
    if i < 0 then "N/A"
    else
      var c := messages[i].content;
      c[..if |c| < 50 then |c| else 50]
  }

  datatype Summary = Summary(id: string, mode: Mode, model: string, userMessageSnippet: string)

  datatype Status = Status(
    queueSize: nat,
    activeProcessors: int,
    concurrencyLimit: int,
    currentIntervalMs: real,
    minIntervalMs: real,
    peakHoursIntervalMs: real,
    offPeakHoursIntervalMs: real,
    maxIntervalMs: real,
    queued: seq<Summary>)

  /** The summary of one queued request; an empty model name reads as
      `'default'`. */
  function Summarize(r: Request): Summary {
    Summary(r.id, r.mode, if r.model == "" then "default" else r.model, Snippet(r.messages))
  }

  /** The summaries of the first twenty queued requests, in queue order. */
  function Summaries(q: seq<Request>): (r: seq<Summary>)
    ensures |r| == if |q| < 20 then |q| else 20
    ensures forall i :: 0 <= i < |r| ==> r[i] == Summarize(q[i])
  {
    var n := if |q| < 20 then |q| else 20;
    seq(n, i requires 0 <= i < n => Summarize(q[i]))
  }
}
