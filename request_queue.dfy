/** `AiRequestQueueService` as a class whose fields the methods update in
    place. Each method is proved to move the scheduler's state exactly as
    the corresponding function of module QueueModel says, and to keep the
    invariant `Valid()`: the counter equals the number of executing
    requests, the limit is at least 1, at most one queued request per
    non-empty cancellation key, every submitted request is in exactly one
    of queue / executing / settled, and the pacing interval sits inside its
    clamp bounds.

    The admission loop runs without interruption: its pacing waits are
    recorded in `trace` instead of suspending. Completion of an in-flight
    request is the event method `CompleteRequest`. */
module RequestQueue {
  import opened Wrappers
  import opened QueueModel

  class AiRequestQueueService {
    var queue: seq<Request>
    var executing: seq<Request>
    var activeProcessors: int
    var concurrencyLimit: int
    var currentIntervalMs: real
    var minIntervalMs: real
    var peakHoursIntervalMs: real
    var offPeakHoursIntervalMs: real
    var maxIntervalMs: real
    var timerRunning: bool
    var settled: seq<Settlement>
    var started: seq<nat>
    var trace: seq<Step>
    var issued: nat

    function Snapshot(): State
      reads this
    {
      State(queue, executing, activeProcessors, concurrencyLimit, settled, started, trace, issued)
    }

    ghost predicate Valid()
      reads this
    {
      && Wf(Snapshot())
      && currentIntervalMs == Clamp(minIntervalMs, maxIntervalMs, currentIntervalMs)
    }

    /** The constructor: the limit is at least 1, the interval is set from
        the time of day, and the periodic re-evaluation is started. */
    constructor (concurrency: int, minInterval: real, peak: real, offPeak: real, max: real,
                 utcHour: int, utcMinute: int)
      ensures Valid()
      ensures queue == [] && executing == [] && settled == [] && started == [] && trace == []
      ensures activeProcessors == 0 && issued == 0 && timerRunning
      ensures concurrencyLimit == if concurrency < 1 then 1 else concurrency
      ensures minIntervalMs == minInterval && peakHoursIntervalMs == peak
      ensures offPeakHoursIntervalMs == offPeak && maxIntervalMs == max
      ensures currentIntervalMs == TimeOfDayInterval(minInterval, peak, offPeak, max, utcHour, utcMinute)
    {
      queue := [];
      executing := [];
      activeProcessors := 0;
      concurrencyLimit := if concurrency < 1 then 1 else concurrency;
      currentIntervalMs := 1000.0;
      minIntervalMs := minInterval;
      peakHoursIntervalMs := peak;
      offPeakHoursIntervalMs := offPeak;
      maxIntervalMs := max;
      timerRunning := false;
      settled := [];
      started := [];
      trace := [];
      issued := 0;
      new;
      AdjustIntervalForTimeOfDay(utcHour, utcMinute);
      timerRunning := true;
    }

    /** `submitRequest`: a truthy cancellation key evicts and rejects the
        queued request holding it; the new request joins the tail; the
        admission loop runs. Returns the new request's identity. */
    method SubmitRequest(id: string, mode: Mode, model: string, messages: seq<Message>,
                         cancellationKey: Option<string>, aborted: bool, hasOnChunk: bool, hasResponse: bool)
      returns (ticket: nat)
      requires Valid()
      modifies this`queue, this`issued, this`activeProcessors, this`executing, this`settled, this`started, this`trace
      ensures Valid()
      ensures ticket == old(issued)
      ensures Snapshot() == Submit(old(Snapshot()),
        Request(0, id, mode, model, messages, cancellationKey, aborted, hasOnChunk, hasResponse), currentIntervalMs)
      ensures old(activeProcessors <= concurrencyLimit) ==> activeProcessors <= concurrencyLimit
    {
      ghost var s0 := Snapshot();
      var r := Request(0, id, mode, model, messages, cancellationKey, aborted, hasOnChunk, hasResponse);
      CancelQueued(cancellationKey);
      ghost var e := Snapshot();
      ticket := Enqueue(r);
      SubmitStep(s0, e, Snapshot(), r, currentIntervalMs);
      ProcessQueue();
    }

    /** The eviction at the start of `submitRequest`: with a truthy key,
        the first queued request holding it leaves the queue and is
        rejected as cancelled and replaced. */
    method CancelQueued(cancellationKey: Option<string>)
      modifies this`queue, this`settled
      ensures Snapshot() == Evict(old(Snapshot()), cancellationKey)
    {
      if cancellationKey.Some? && cancellationKey.value != "" {
        var idx := FindKey(queue, cancellationKey.value);
        if idx > -1 {
          var removed := queue[idx];
          queue := queue[..idx] + queue[idx + 1..];
          settled := settled + [Settlement(removed.ticket, Rejected(ReplacedError(removed.id)))];
        }
      }
    }

    /** The append at the end of `submitRequest`: the request, with the
        next identity, joins the tail of the queue. */
    method Enqueue(r: Request) returns (ticket: nat)
      modifies this`queue, this`issued
      ensures ticket == old(issued)
      ensures Snapshot() == old(Snapshot()).(queue := old(queue) + [r.(ticket := ticket)], issued := ticket + 1)
    {
      ticket := issued;
      queue := queue + [r.(ticket := ticket)];
      issued := issued + 1;
    }

    /** `processQueue`: while a slot is free and a request waits, run one
        dispatch step. */
    method ProcessQueue()
      requires Valid()
      modifies this`activeProcessors, this`queue, this`executing, this`settled, this`started, this`trace
      ensures Valid()
      ensures Snapshot() == Admit(old(Snapshot()), currentIntervalMs)
      ensures old(activeProcessors <= concurrencyLimit) ==> activeProcessors <= concurrencyLimit
    {
      while activeProcessors < concurrencyLimit && |queue| > 0
        invariant Valid()
        invariant Admit(Snapshot(), currentIntervalMs) == Admit(old(Snapshot()), currentIntervalMs)
        decreases |queue|
      {
        DispatchHead();
      }
      if old(activeProcessors <= concurrencyLimit) {
        AdmitRespectsLimit(old(Snapshot()), currentIntervalMs);
      }
    }

    /** One iteration of the loop of `processQueue`: take the head, count
        it, start it; record one pacing wait when another slot is still
        free and another request waits. */
    method DispatchHead()
      requires Valid() && activeProcessors < concurrencyLimit && |queue| > 0
      modifies this`activeProcessors, this`queue, this`executing, this`settled, this`started, this`trace
      ensures Valid() && |queue| < |old(queue)|
      ensures Snapshot() == Dispatch(old(Snapshot()), currentIntervalMs)
      ensures Admit(Snapshot(), currentIntervalMs) == Admit(old(Snapshot()), currentIntervalMs)
    {
      ghost var pre := Snapshot();
      activeProcessors := activeProcessors + 1;
      var task := queue[0];
      queue := queue[1..];
      trace := trace + [Dispatched(task.ticket)];
      ExecuteSingleRequest(task);
      if activeProcessors < concurrencyLimit && |queue| > 0 {
        trace := trace + [Paced(currentIntervalMs)];
      }
      DispatchStep(pre, Snapshot(), currentIntervalMs);
    }

    /** The part of `executeSingleRequest` that runs before its first
        `await`: a request whose signal has already fired, or a streaming
        request without its callback or transport, is rejected at once and
        its slot given back in `finally`; any other request is handed to
        the provider and stays executing until `CompleteRequest`. */
    method ExecuteSingleRequest(request: Request)
      modifies this`activeProcessors, this`executing, this`settled, this`started
      ensures match StartFailure(request)
        case Some(e) =>
          && settled == old(settled) + [Settlement(request.ticket, Rejected(e))]
          && activeProcessors == old(activeProcessors) - 1
          && executing == old(executing) && started == old(started)
        case None =>
          && executing == old(executing) + [request] && started == old(started) + [request.ticket]
          && activeProcessors == old(activeProcessors) && settled == old(settled)
    {
      var failure: Option<Error> := None;
      if request.aborted {
        failure := Some(AbortedBeforeStart);
      } else if request.mode == Stream && !request.hasOnChunk {
        failure := Some(MissingOnChunk);
      } else if request.mode == StreamToResponse && !request.hasResponse {
        failure := Some(MissingResponse);
      }
      if failure.Some? {
        settled := settled + [Settlement(request.ticket, Rejected(failure.value))];
        activeProcessors := activeProcessors - 1;
      } else {
        started := started + [request.ticket];
        executing := executing + [request];
      }
    }

    /** The rest of `executeSingleRequest`, when the provider call of the
        executing request in position `slot` settles with `provider`:
        resolve (with no value in the transport mode) or reject, then the
        `finally` block: decrement the counter and run the admission loop. */
    method CompleteRequest(slot: nat, provider: Outcome)
      requires Valid() && slot < |executing|
      modifies this`activeProcessors, this`queue, this`executing, this`settled, this`started, this`trace
      ensures Valid()
      ensures Snapshot() == Complete(old(Snapshot()), slot, provider, currentIntervalMs)
      ensures old(activeProcessors <= concurrencyLimit) ==> activeProcessors <= concurrencyLimit
    {
      ghost var s0 := Snapshot();
      var request := executing[slot];
      match provider {
        case Resolved(result) =>
          var value := if request.mode == StreamToResponse then None else result;
          settled := settled + [Settlement(request.ticket, Resolved(value))];
        case Rejected(e) =>
          settled := settled + [Settlement(request.ticket, Rejected(e))];
      }
      executing := executing[..slot] + executing[slot + 1..];
      activeProcessors := activeProcessors - 1;
      CompleteStep(s0, Snapshot(), slot, provider, currentIntervalMs);
      ProcessQueue();
    }

    /** The caller's abort signal fires for a request: a queued request
        with that identity will be rejected when its turn comes. */
    method Abort(ticket: nat)
      requires Valid()
      modifies this`queue
      ensures Valid()
      ensures |queue| == |old(queue)|
      ensures forall i :: 0 <= i < |queue| ==>
        queue[i] == if old(queue)[i].ticket == ticket then old(queue)[i].(aborted := true) else old(queue)[i]
    {
      var q := queue;
      queue := seq(|q|, i requires 0 <= i < |q| => if q[i].ticket == ticket then q[i].(aborted := true) else q[i]);
      assert Tickets(queue) == Tickets(q);
    }

    /** `adjustIntervalForTimeOfDay`, with the clock read as the current
        UTC hour and minute. */
    method AdjustIntervalForTimeOfDay(utcHour: int, utcMinute: int)
      modifies this`currentIntervalMs
      ensures currentIntervalMs
        == TimeOfDayInterval(minIntervalMs, peakHoursIntervalMs, offPeakHoursIntervalMs, maxIntervalMs, utcHour, utcMinute)
      ensures currentIntervalMs == Clamp(minIntervalMs, maxIntervalMs, currentIntervalMs)
    {
      var hourBj := (utcHour + 8) % 24;
      var target := peakHoursIntervalMs;
      var offPeak := (hourBj == 0 && utcMinute >= 30) || (hourBj >= 1 && hourBj <= 7) || (hourBj == 8 && utcMinute <= 30);
      if offPeak {
        target := offPeakHoursIntervalMs;
      }
      currentIntervalMs := Max(minIntervalMs, Min(maxIntervalMs, target));
      ClampBounds(minIntervalMs, maxIntervalMs, target);
    }

    /** The 15-minute timer: re-evaluates the interval until `Destroy`. */
    method TimerTick(utcHour: int, utcMinute: int)
      requires Valid()
      modifies this`currentIntervalMs
      ensures Valid()
      ensures currentIntervalMs == if old(timerRunning) then
        TimeOfDayInterval(minIntervalMs, peakHoursIntervalMs, offPeakHoursIntervalMs, maxIntervalMs, utcHour, utcMinute)
        else old(currentIntervalMs)
    {
      if timerRunning {
        AdjustIntervalForTimeOfDay(utcHour, utcMinute);
      }
    }

    /** `setActivityLevel`: scale the current interval by 0.66 (active) or
        1.5 (idle) and clamp it. */
    method SetActivityLevel(isActive: bool)
      requires Valid()
      modifies this`currentIntervalMs
      ensures Valid()
      ensures currentIntervalMs == ActivityInterval(old(currentIntervalMs), minIntervalMs, maxIntervalMs, isActive)
    {
      var base := if isActive then currentIntervalMs * 0.66 else currentIntervalMs * 1.5;
      currentIntervalMs := Max(minIntervalMs, Min(maxIntervalMs, base));
      ClampBounds(minIntervalMs, maxIntervalMs, base);
    }

    /** `setConcurrency`. */
    method SetConcurrency(limit: int)
      requires Valid()
      modifies this`concurrencyLimit, this`activeProcessors, this`queue, this`executing, this`settled, this`started,
        this`trace
      ensures Valid()
      ensures Snapshot() == QueueModel.SetConcurrency(old(Snapshot()), limit, currentIntervalMs)
    {
      ghost var s0 := Snapshot();
      var v := if limit < 1 then 1 else limit;
      if concurrencyLimit != v {
        concurrencyLimit := v;
        if v > activeProcessors && |queue| > 0 {
          ProcessQueue();
        }
      }
      SetConcurrencyWf(s0, limit, currentIntervalMs);
    }

    /** `updateIntervalSettings`: each given setting replaces the stored
        one, the minimum no lower than 10 ms; the interval is then
        recomputed from the time of day. */
    method UpdateIntervalSettings(minMs: Option<real>, peakMs: Option<real>, offPeakMs: Option<real>, maxMs: Option<real>,
                                  utcHour: int, utcMinute: int)
      requires Valid()
      modifies this`minIntervalMs, this`peakHoursIntervalMs, this`offPeakHoursIntervalMs, this`maxIntervalMs,
        this`currentIntervalMs
      ensures Valid()
      ensures minIntervalMs == if minMs.Some? then Max(10.0, minMs.value) else old(minIntervalMs)
      ensures minMs.Some? ==> minIntervalMs >= 10.0
      ensures peakHoursIntervalMs == peakMs.GetOr(old(peakHoursIntervalMs))
      ensures offPeakHoursIntervalMs == offPeakMs.GetOr(old(offPeakHoursIntervalMs))
      ensures maxIntervalMs == maxMs.GetOr(old(maxIntervalMs))
      ensures currentIntervalMs
        == TimeOfDayInterval(minIntervalMs, peakHoursIntervalMs, offPeakHoursIntervalMs, maxIntervalMs, utcHour, utcMinute)
    {
      if minMs.Some? {
        minIntervalMs := Max(10.0, minMs.value);
      }
      if peakMs.Some? {
        peakHoursIntervalMs := peakMs.value;
      }
      if offPeakMs.Some? {
        offPeakHoursIntervalMs := offPeakMs.value;
      }
      if maxMs.Some? {
        maxIntervalMs := maxMs.value;
      }
      AdjustIntervalForTimeOfDay(utcHour, utcMinute);
    }

    /** `getQueueStatus`: a read-only snapshot with the summaries of the
        first twenty queued requests. */
    function GetQueueStatus(): (r: Status)
      reads this
      ensures r.queueSize == |queue| && r.activeProcessors == activeProcessors
      ensures r.concurrencyLimit == concurrencyLimit && r.currentIntervalMs == currentIntervalMs
      ensures |r.queued| == (if |queue| < 20 then |queue| else 20)
      ensures r.minIntervalMs == minIntervalMs && r.peakHoursIntervalMs == peakHoursIntervalMs
      ensures r.offPeakHoursIntervalMs == offPeakHoursIntervalMs && r.maxIntervalMs == maxIntervalMs
      ensures forall i :: 0 <= i < |r.queued| ==>
        r.queued[i].id == queue[i].id && r.queued[i].mode == queue[i].mode
        && r.queued[i].model == (if queue[i].model == "" then "default" else queue[i].model)
        && r.queued[i].userMessageSnippet == Snippet(queue[i].messages)
    {
      Status(|queue|, activeProcessors, concurrencyLimit, currentIntervalMs,
             minIntervalMs, peakHoursIntervalMs, offPeakHoursIntervalMs, maxIntervalMs, Summaries(queue))
    }

    /** `destroy`: stop the timer, reject every queued request in order,
        empty the queue. Executing requests are not touched. */
    method Destroy()
      requires Valid()
      modifies this`timerRunning, this`queue, this`settled
      ensures Valid()
      ensures !timerRunning
      ensures Snapshot() == QueueModel.Destroy(old(Snapshot()))
    {
      ghost var s0 := Snapshot();
      timerRunning := false;
      if |queue| > 0 {
        var q := queue;
        var rejected := settled;
        for i := 0 to |q|
          invariant rejected == s0.settled + Rejections(q[..i], Destroyed)
        {
          assert Rejections(q[..i + 1], Destroyed) == Rejections(q[..i], Destroyed) + [Settlement(q[i].ticket, Rejected(Destroyed))];
          rejected := rejected + [Settlement(q[i].ticket, Rejected(Destroyed))];
        }
        assert q[..|q|] == q;
        settled := rejected;
        queue := [];
      }
      DestroyWf(s0);
    }
  }
}
