/** `execute`: drains the queue in slices of at most `MAX_CALLS`, sends each
    slice as one composite POST, and collects one value per answered call.

    The drain follows Ruby's `batch_calls.each_slice(MAX_CALLS)` over an array
    that the loop itself appends to. `Array#each` re-reads the length on every
    step, so calls requeued while a full slice is processed are visited later;
    the trailing partial slice is only yielded after `each` has finished, so
    calls it requeues are appended to the queue but not sent by this
    `execute`. */
module Execute {
  import opened Outcomes
  import opened Values
  import opened Wire
  import opened Operations
  import opened Collaborators
  import opened Requests
  import opened Demux
  import opened Budget

  /** One composite POST as seen by the engine: the chunk, the request built
      for it, the reply (`None` for an empty body) and what each slot did. */
  datatype Exchange = Exchange(
    chunk: seq<BatchOperation>,
    request: BatchRequest,
    reply: Option<Reply>,
    outcomes: seq<SlotOutcome>)

  /** The queue, the `requeued` counters, `batch_result`, and the exchanges so far. */
  datatype DrainState = DrainState(
    queue: seq<BatchOperation>,
    attempts: map<nat, nat>,
    results: seq<Value>,
    log: seq<Exchange>)

  /** The calls handed to the transport, chunk after chunk. */
  function Sent(log: seq<Exchange>): (sent: seq<BatchOperation>)
    decreases |log|
  {
    if |log| == 0 then [] else Sent(log[..|log| - 1]) + log[|log| - 1].chunk
  }

  /** The calls sent back to the queue, exchange after exchange. */
  function RequeuedBy(log: seq<Exchange>): (requeued: seq<BatchOperation>)
    decreases |log|
  {
    if |log| == 0 then []
    else RequeuedBy(log[..|log| - 1]) + Requeues(log[|log| - 1].chunk, log[|log| - 1].outcomes)
  }

  /** The values collected, exchange after exchange. */
  function Collected(log: seq<Exchange>): (values: seq<Value>)
    decreases |log|
  {
    if |log| == 0 then [] else Collected(log[..|log| - 1]) + Emits(log[|log| - 1].outcomes)
  }

  /** Exchange number `n` is what the engine does with the transport's
      reply to the request it built, given the calls `prior` already requeued
      in this `execute`: a present slot contributes exactly its answer; an
      empty slot requeues its call exactly while the call has been requeued
      fewer than twice, and otherwise contributes the 404 error passed through
      the call's block; a `nil` reply ends the exchange with no outcomes. */
  ghost predicate Answered(env: Env, api: GraphBatchApi, httpOptions: map<string, string>, n: nat,
                           prior: seq<BatchOperation>, ex: Exchange)
  {
    && ex.request == BuildRequest(env, api, ex.chunk, httpOptions)
    && ex.reply == Post(env, n, ex.request)
    && (ex.reply.None? ==> ex.outcomes == [])
    && (ex.reply.Some? ==>
          && |ex.reply.value| <= |ex.chunk|
          && |ex.outcomes| == |ex.reply.value|
          && (forall j :: 0 <= j < |ex.reply.value| && ex.reply.value[j].Some? ==>
                ex.outcomes[j] == Emit(Answer(env, api, ex.chunk[j], ex.reply.value[j].value)))
          && (forall j :: 0 <= j < |ex.reply.value| && ex.reply.value[j].None? ==>
                && (ex.outcomes[j].Requeue? <==>
                      CountId(prior + Requeues(ex.chunk[..j], ex.outcomes[..j]), ex.chunk[j].id) < MAX_ATTEMPTS - 1)
                && (ex.outcomes[j].Emit? ==> ex.outcomes[j].value == Finalize(ex.chunk[j], Error(NoResponseError)))))
  }

  /** Sends one chunk and folds its reply into the drain state. */
  function Flush(env: Env, api: GraphBatchApi, httpOptions: map<string, string>, st: DrainState, chunk: seq<BatchOperation>)
    : (r: DrainState)
    requires Aligned(env)
    ensures |r.log| == |st.log| + 1 && r.log == st.log + [r.log[|st.log|]]
    ensures var ex := r.log[|st.log|];
      && ex.chunk == chunk
      && ex.request == BuildRequest(env, api, chunk, httpOptions)
      && ex.reply == Post(env, |st.log|, ex.request)
      && r.queue == st.queue + Requeues(chunk, ex.outcomes)
      && r.results == st.results + Emits(ex.outcomes)
    ensures r.log[|st.log|].reply.None? ==> r.log[|st.log|].outcomes == [] && r.attempts == st.attempts
    ensures r.log[|st.log|].reply.Some? ==>
      (r.log[|st.log|].outcomes, r.attempts) == DemuxSlots(env, api, chunk, r.log[|st.log|].reply.value, st.attempts)
  {
    var request := BuildRequest(env, api, chunk, httpOptions);
    var reply := Post(env, |st.log|, request);
    match reply
    case None => st.(log := st.log + [Exchange(chunk, request, reply, [])])
    case Some(slots) =>
      var (outcomes, attempts) := DemuxSlots(env, api, chunk, slots, st.attempts);
      DrainState(
        st.queue + Requeues(chunk, outcomes),
        attempts,
        st.results + Emits(outcomes),
        st.log + [Exchange(chunk, request, reply, outcomes)])
  }

  /** The visiting position: the initial queue `q0` is a prefix of the queue,
      `i` entries have been visited, the last `pending` of them are not sent
      yet, and everything before them has been sent in order. */
  ghost predicate DrainShape(q0: seq<BatchOperation>, st: DrainState, i: nat, pending: seq<BatchOperation>) {
    && |q0| <= |st.queue| && st.queue[..|q0|] == q0
    && |pending| <= i <= |st.queue|
    && pending == st.queue[i - |pending|..i]
    && Sent(st.log) == st.queue[..i - |pending|]
  }

  /** The queue has grown by exactly the requeued calls and the results are
      exactly the collected values. */
  ghost predicate DrainBooks(q0: seq<BatchOperation>, st: DrainState) {
    && |q0| <= |st.queue|
    && st.queue[|q0|..] == RequeuedBy(st.log)
    && st.results == Collected(st.log)
  }

  /** Every exchange of the log is answered as `Answered` describes, each
      given the calls requeued by the exchanges before it. */
  ghost predicate AllAnswered(env: Env, api: GraphBatchApi, httpOptions: map<string, string>, log: seq<Exchange>)
    decreases |log|
  {
    |log| == 0 ||
    (&& AllAnswered(env, api, httpOptions, log[..|log| - 1])
     && Answered(env, api, httpOptions, |log| - 1, RequeuedBy(log[..|log| - 1]), log[|log| - 1]))
  }

  /** Exchange `n` of an answered log is answered. */
  lemma {:induction false} AnsweredAt(env: Env, api: GraphBatchApi, httpOptions: map<string, string>, log: seq<Exchange>, n: nat)
    requires AllAnswered(env, api, httpOptions, log)
    requires n < |log|
    ensures Answered(env, api, httpOptions, n, RequeuedBy(log[..n]), log[n])
    decreases |log|
  {
    if n < |log| - 1 {
      var front := log[..|log| - 1];
      AnsweredAt(env, api, httpOptions, front, n);
      assert front[..n] == log[..n];
    }
  }

  /** The `requeued` counters are one plus the number of requeues, which is at most two per call. */
  ghost predicate DrainBudget(q0: seq<BatchOperation>, st: DrainState) {
    && |q0| <= |st.queue|
    && (forall id :: Attempt(st.attempts, id) == 1 + CountId(st.queue[|q0|..], id))
    && (forall id :: CountId(st.queue[|q0|..], id) <= MAX_ATTEMPTS - 1)
  }

  /** Every entry past the initial queue is a copy of an initial entry. */
  ghost predicate Copies(q0: seq<BatchOperation>, queue: seq<BatchOperation>) {
    forall j :: |q0| <= j < |queue| ==> IsCopy(q0, queue[j])
  }

  /** `op` is one of the entries of `q0`. */
  ghost predicate IsCopy(q0: seq<BatchOperation>, op: BatchOperation) {
    exists t :: 0 <= t < |q0| && op == q0[t]
  }

  /** What holds at every step of the drain. */
  ghost predicate DrainInv(env: Env, api: GraphBatchApi, httpOptions: map<string, string>,
                           q0: seq<BatchOperation>, st: DrainState, i: nat, pending: seq<BatchOperation>)
  {
    && DrainShape(q0, st, i, pending)
    && DrainBooks(q0, st)
    && AllAnswered(env, api, httpOptions, st.log)
    && DrainBudget(q0, st)
    && Copies(q0, st.queue)
    && Causal(q0, st.log)
  }

  /** Every chunk is drawn from calls that exist before it is sent: the calls
      sent up to and including the last exchange are at most the enqueued
      calls plus those requeued by the exchanges before it, and likewise for
      every shorter log. A chunk can never carry calls that its own reply
      requeues. */
  ghost predicate Causal(q0: seq<BatchOperation>, log: seq<Exchange>)
    decreases |log|
  {
    |log| == 0 ||
    (&& Causal(q0, log[..|log| - 1])
     && |Sent(log)| <= |q0| + |RequeuedBy(log[..|log| - 1])|)
  }

  /** `Causal` read at exchange `n`. */
  lemma {:induction false} CausalAt(q0: seq<BatchOperation>, log: seq<Exchange>, n: nat)
    requires Causal(q0, log) && n < |log|
    ensures |Sent(log[..n + 1])| <= |q0| + |RequeuedBy(log[..n])|
    decreases |log|
  {
    if n + 1 < |log| {
      var front := log[..|log| - 1];
      CausalAt(q0, front, n);
      assert front[..n + 1] == log[..n + 1] && front[..n] == log[..n];
    } else {
      assert log[..n + 1] == log;
    }
  }

  /** `Causal` read exchange by exchange. */
  lemma CausalEvery(q0: seq<BatchOperation>, log: seq<Exchange>)
    requires Causal(q0, log)
    ensures forall n :: 0 <= n < |log| ==> |Sent(log[..n + 1])| <= |q0| + |RequeuedBy(log[..n])|
  {
    forall n | 0 <= n < |log|
      ensures |Sent(log[..n + 1])| <= |q0| + |RequeuedBy(log[..n])|
    {
      CausalAt(q0, log, n);
    }
  }

  lemma DrainStart(env: Env, api: GraphBatchApi, httpOptions: map<string, string>, q0: seq<BatchOperation>)
    ensures DrainInv(env, api, httpOptions, q0, DrainState(q0, map[], [], []), 0, [])
  {
    var st := DrainState(q0, map[], [], []);
    StartBooks(q0);
    assert AllAnswered(env, api, httpOptions, st.log);
  }

  /** Before anything is sent, nothing has been requeued or collected. */
  lemma StartBooks(q0: seq<BatchOperation>)
    ensures var st := DrainState(q0, map[], [], []);
      DrainShape(q0, st, 0, []) && DrainBooks(q0, st) && DrainBudget(q0, st) && Copies(q0, st.queue)
  {
  }

  /** Visiting one more entry only moves it into the pending slice. */
  lemma DrainVisit(q0: seq<BatchOperation>, st: DrainState, i: nat, pending: seq<BatchOperation>)
    requires DrainShape(q0, st, i, pending)
    requires i < |st.queue|
    ensures DrainShape(q0, st, i + 1, pending + [st.queue[i]])
  {
    assert pending + [st.queue[i]] == st.queue[i - |pending|..i + 1];
  }

  lemma FlushShape(env: Env, api: GraphBatchApi, httpOptions: map<string, string>,
                   q0: seq<BatchOperation>, st: DrainState, i: nat, pending: seq<BatchOperation>)
    requires Aligned(env)
    requires DrainShape(q0, st, i, pending)
    ensures DrainShape(q0, Flush(env, api, httpOptions, st, pending), i, [])
  {
  }

  lemma FlushBooks(env: Env, api: GraphBatchApi, httpOptions: map<string, string>,
                   q0: seq<BatchOperation>, st: DrainState, pending: seq<BatchOperation>)
    requires Aligned(env)
    requires DrainBooks(q0, st)
    ensures DrainBooks(q0, Flush(env, api, httpOptions, st, pending))
  {
  }

  lemma FlushBudget(env: Env, api: GraphBatchApi, httpOptions: map<string, string>,
                    q0: seq<BatchOperation>, st: DrainState, pending: seq<BatchOperation>)
    requires Aligned(env)
    requires DrainBudget(q0, st)
    ensures DrainBudget(q0, Flush(env, api, httpOptions, st, pending))
  {
    var r := Flush(env, api, httpOptions, st, pending);
    var ex := r.log[|st.log|];
    var requeued := Requeues(pending, ex.outcomes);
    assert r.queue[|q0|..] == st.queue[|q0|..] + requeued;
    if ex.reply.Some? {
      DemuxAttempts(env, api, pending, ex.reply.value, st.attempts);
    }
    forall id
      ensures Attempt(r.attempts, id) == 1 + CountId(r.queue[|q0|..], id)
      ensures CountId(r.queue[|q0|..], id) <= MAX_ATTEMPTS - 1
    {
      CountIdAppend(st.queue[|q0|..], requeued, id);
      assert Attempt(r.attempts, id) <= MAX_ATTEMPTS;
    }
  }

  /** Appending entries already in the queue keeps every entry past `q0` a copy. */
  lemma CopiesAppend(q0: seq<BatchOperation>, queue: seq<BatchOperation>, extra: seq<BatchOperation>)
    requires |q0| <= |queue| && queue[..|q0|] == q0
    requires Copies(q0, queue)
    requires forall m :: 0 <= m < |extra| ==> extra[m] in queue
    ensures Copies(q0, queue + extra)
  {
  }

  lemma FlushCopies(env: Env, api: GraphBatchApi, httpOptions: map<string, string>,
                    q0: seq<BatchOperation>, st: DrainState, i: nat, pending: seq<BatchOperation>)
    requires Aligned(env)
    requires DrainShape(q0, st, i, pending)
    requires Copies(q0, st.queue)
    ensures Copies(q0, Flush(env, api, httpOptions, st, pending).queue)
  {
    var r := Flush(env, api, httpOptions, st, pending);
    var requeued := Requeues(pending, r.log[|st.log|].outcomes);
    RequeuesFromChunk(pending, r.log[|st.log|].outcomes);
    forall m | 0 <= m < |requeued|
      ensures requeued[m] in st.queue
    {
      var k :| 0 <= k < |pending| && requeued[m] == pending[k];
      assert pending[k] == st.queue[i - |pending| + k];
    }
    CopiesAppend(q0, st.queue, requeued);
  }

  lemma FlushAnswered(env: Env, api: GraphBatchApi, httpOptions: map<string, string>,
                      q0: seq<BatchOperation>, st: DrainState, pending: seq<BatchOperation>)
    requires Aligned(env)
    requires DrainBooks(q0, st)
    requires DrainBudget(q0, st)
    requires AllAnswered(env, api, httpOptions, st.log)
    ensures AllAnswered(env, api, httpOptions, Flush(env, api, httpOptions, st, pending).log)
  {
    var r := Flush(env, api, httpOptions, st, pending);
    var n := |st.log|;
    var ex := r.log[n];
    assert r.log[..n] == st.log;
    if ex.reply.Some? {
      var slots := ex.reply.value;
      var outcomes := ex.outcomes;
      var prior := RequeuedBy(st.log);
      DemuxOutcomes(env, api, pending, slots, st.attempts);
      DemuxRequeueRule(env, api, pending, slots, st.attempts);
      forall j | 0 <= j < |slots| && slots[j].None?
        ensures outcomes[j].Requeue? <==>
          CountId(prior + Requeues(pending[..j], outcomes[..j]), pending[j].id) < MAX_ATTEMPTS - 1
      {
        CountIdAppend(prior, Requeues(pending[..j], outcomes[..j]), pending[j].id);
      }
    }
    assert Answered(env, api, httpOptions, n, RequeuedBy(r.log[..n]), ex);
  }

  /** Sending the pending chunk keeps the drain invariant, with nothing left pending. */
  lemma FlushStep(env: Env, api: GraphBatchApi, httpOptions: map<string, string>,
                  q0: seq<BatchOperation>, st: DrainState, i: nat, pending: seq<BatchOperation>)
    requires Aligned(env)
    requires DrainInv(env, api, httpOptions, q0, st, i, pending)
    ensures DrainInv(env, api, httpOptions, q0, Flush(env, api, httpOptions, st, pending), i, [])
  {
    FlushShape(env, api, httpOptions, q0, st, i, pending);
    FlushBooks(env, api, httpOptions, q0, st, pending);
    FlushBudget(env, api, httpOptions, q0, st, pending);
    FlushCopies(env, api, httpOptions, q0, st, i, pending);
    FlushAnswered(env, api, httpOptions, q0, st, pending);
    FlushCausal(env, api, httpOptions, q0, st, i, pending);
  }

  /** The new chunk holds only calls already in the queue when it is sent. */
  lemma FlushCausal(env: Env, api: GraphBatchApi, httpOptions: map<string, string>,
                    q0: seq<BatchOperation>, st: DrainState, i: nat, pending: seq<BatchOperation>)
    requires Aligned(env)
    requires DrainShape(q0, st, i, pending) && DrainBooks(q0, st) && Causal(q0, st.log)
    ensures Causal(q0, Flush(env, api, httpOptions, st, pending).log)
  {
    var log := Flush(env, api, httpOptions, st, pending).log;
    assert log[..|log| - 1] == st.log;
  }

  /** Sends the pending chunk: one transport call, its reply folded into the state. */
  method SendChunk(env: Env, api: GraphBatchApi, httpOptions: map<string, string>,
                   ghost q0: seq<BatchOperation>, st: DrainState, ghost i: nat, pending: seq<BatchOperation>)
    returns (next: DrainState)
    requires Aligned(env)
    requires DrainInv(env, api, httpOptions, q0, st, i, pending)
    ensures DrainInv(env, api, httpOptions, q0, next, i, [])
    ensures |next.log| == |st.log| + 1 && next.log == st.log + [next.log[|st.log|]]
    ensures next.log[|st.log|].chunk == pending
    ensures next.queue == st.queue + Requeues(pending, next.log[|st.log|].outcomes)
    ensures next.log[|st.log|].reply.None? ==> next.queue == st.queue
  {
    FlushStep(env, api, httpOptions, q0, st, i, pending);
    next := Flush(env, api, httpOptions, st, pending);
    assert Requeues(pending, []) == [];
  }

  /** Under the drain invariant the queue has grown by at most two entries per
      distinct call of the initial queue. */
  lemma QueueBound(env: Env, api: GraphBatchApi, httpOptions: map<string, string>,
                   q0: seq<BatchOperation>, st: DrainState, i: nat, pending: seq<BatchOperation>, calls: set<nat>)
    requires DrainInv(env, api, httpOptions, q0, st, i, pending)
    requires calls == set t | 0 <= t < |q0| :: q0[t].id
    ensures |st.queue| <= |q0| + 2 * |calls|
  {
    var grown := st.queue[|q0|..];
    forall j | 0 <= j < |grown|
      ensures grown[j].id in calls
    {
      assert IsCopy(q0, st.queue[|q0| + j]);
      var t :| 0 <= t < |q0| && st.queue[|q0| + j] == q0[t];
    }
    AtMostTwiceEach(grown, calls);
  }

  /** The slice length `each_slice(MAX_CALLS)` actually uses. MRI caps the
      requested length at the receiver's `size` on entry
      (`limit_by_enum_size` in `enum.c`), so a queue of fewer than
      `MAX_CALLS` calls is sliced by its own initial length. */
  function SliceSize(q0: seq<BatchOperation>): (size: nat)
    ensures size <= MAX_CALLS && size <= |q0|
    ensures |q0| > 0 ==> size > 0
    ensures size == MAX_CALLS || size == |q0|
  {
    if |q0| < MAX_CALLS then |q0| else MAX_CALLS
  }

  /** Every chunk carries between one and `size` calls, and every chunk but
      the last is full and was answered. */
  ghost predicate Chunked(log: seq<Exchange>, size: nat) {
    && (forall n :: 0 <= n < |log| ==> 1 <= |log[n].chunk| <= size)
    && (forall n :: 0 <= n < |log| - 1 ==> |log[n].chunk| == size && log[n].reply.Some?)
  }

  /** The chunks sent inside the visiting loop are all full and answered. */
  ghost predicate FullAndAnswered(log: seq<Exchange>, size: nat) {
    forall n :: 0 <= n < |log| ==> |log[n].chunk| == size && log[n].reply.Some?
  }

  /** Appending one more chunk of at most `size` calls to a log of full,
      answered chunks gives a chunked log. */
  lemma ChunkedAfter(log: seq<Exchange>, ex: Exchange, size: nat)
    requires FullAndAnswered(log, size)
    requires 1 <= |ex.chunk| <= size
    ensures Chunked(log + [ex], size)
  {
  }

  /** The facts `execute` reports when the visiting loop ends with nothing
      pending: the last chunk sent was full, and it covered the whole queue. */
  lemma DrainFinishedFull(q0: seq<BatchOperation>, st: DrainState, i: nat)
    requires |q0| > 0
    requires DrainShape(q0, st, i, []) && i == |st.queue|
    requires FullAndAnswered(st.log, SliceSize(q0))
    ensures |st.log| > 0
    ensures Chunked(st.log, SliceSize(q0))
    ensures forall n :: 0 <= n < |st.log| ==> st.log[n].reply.Some?
    ensures |q0| <= |Sent(st.log)|
    ensures var last := st.log[|st.log| - 1];
      st.queue == Sent(st.log) + (if |last.chunk| < SliceSize(q0) then Requeues(last.chunk, last.outcomes) else [])
  {
  }

  /** The facts `execute` reports when the last, partial chunk `pending` has
      been sent and answered, taking the state from `st` to `fin`. */
  lemma DrainFinishedPartial(q0: seq<BatchOperation>, st: DrainState, i: nat, pending: seq<BatchOperation>, fin: DrainState)
    requires |q0| > 0
    requires |q0| <= i == |st.queue|
    requires 0 < |pending| < SliceSize(q0)
    requires FullAndAnswered(st.log, SliceSize(q0))
    requires |fin.log| == |st.log| + 1 && fin.log == st.log + [fin.log[|st.log|]]
    requires fin.log[|st.log|].chunk == pending && fin.log[|st.log|].reply.Some?
    requires fin.queue == st.queue + Requeues(pending, fin.log[|st.log|].outcomes)
    requires Sent(fin.log) == fin.queue[..i]
    ensures |fin.log| > 0
    ensures Chunked(fin.log, SliceSize(q0))
    ensures forall n :: 0 <= n < |fin.log| ==> fin.log[n].reply.Some?
    ensures |q0| <= |Sent(fin.log)|
    ensures var last := fin.log[|fin.log| - 1];
      fin.queue == Sent(fin.log) + (if |last.chunk| < SliceSize(q0) then Requeues(last.chunk, last.outcomes) else [])
  {
    ChunkedAfter(st.log, fin.log[|st.log|], SliceSize(q0));
  }

  /** What every finished `execute` reports about the queue, the chunks sent
      and the exchanges, whether it returned or raised. */
  lemma Reported(env: Env, api: GraphBatchApi, httpOptions: map<string, string>,
                 fin: DrainState, i: nat, api': GraphBatchApi, log: seq<Exchange>)
    requires DrainInv(env, api, httpOptions, api.batchCalls, fin, i, [])
    requires api' == api.(batchCalls := fin.queue) && log == fin.log
    ensures api' == api.(batchCalls := api'.batchCalls)
    ensures |api.batchCalls| <= |api'.batchCalls| && api'.batchCalls[..|api.batchCalls|] == api.batchCalls
    ensures api'.batchCalls[|api.batchCalls|..] == RequeuedBy(log)
    ensures forall id :: CountId(api'.batchCalls[|api.batchCalls|..], id) <= MAX_ATTEMPTS - 1
    ensures Valid(api) ==> Valid(api')
    ensures |Sent(log)| <= |api'.batchCalls| && Sent(log) == api'.batchCalls[..|Sent(log)|]
    ensures AllAnswered(env, api, httpOptions, log)
    ensures Causal(api.batchCalls, log)
  {
    if Valid(api) {
      ValidAfterGrowth(api, fin.queue);
    }
  }

  /** Requeued entries are copies of queued calls, so identity stays consistent. */
  lemma ValidAfterGrowth(api: GraphBatchApi, queue: seq<BatchOperation>)
    requires Valid(api)
    requires |api.batchCalls| <= |queue| && queue[..|api.batchCalls|] == api.batchCalls
    requires Copies(api.batchCalls, queue)
    ensures Valid(api.(batchCalls := queue))
  {
  }

  /** What holds while the underlying `each` is still visiting: the drain
      invariant, fewer than a slice pending, every chunk so far full and
      answered, and the queue within its growth bound. `calls` is the set of
      identities of the initial queue. */
  ghost predicate Visiting(env: Env, api: GraphBatchApi, httpOptions: map<string, string>, calls: set<nat>,
                           st: DrainState, i: nat, pending: seq<BatchOperation>)
  {
    && DrainInv(env, api, httpOptions, api.batchCalls, st, i, pending)
    && |pending| < SliceSize(api.batchCalls)
    && FullAndAnswered(st.log, SliceSize(api.batchCalls))
    && |st.queue| <= |api.batchCalls| + 2 * |calls|
  }

  /** What holds once a full slice sent inside `each` got an empty body: the
      drain invariant with nothing pending, and a chunked log whose last,
      unanswered chunk holds exactly `SliceSize` calls. */
  ghost predicate StoppedFull(env: Env, api: GraphBatchApi, httpOptions: map<string, string>, st: DrainState, i: nat) {
    && DrainInv(env, api, httpOptions, api.batchCalls, st, i, [])
    && |st.log| > 0 && st.log[|st.log| - 1].reply.None?
    && |st.log[|st.log| - 1].chunk| == SliceSize(api.batchCalls)
    && Chunked(st.log, SliceSize(api.batchCalls))
  }

  /** Sends a full slice from inside the visiting loop. */
  method SendFull(env: Env, api: GraphBatchApi, httpOptions: map<string, string>, ghost calls: set<nat>,
                  st: DrainState, ghost i: nat, pending: seq<BatchOperation>)
    returns (next: DrainState, failed: bool)
    requires Aligned(env)
    requires calls == set t | 0 <= t < |api.batchCalls| :: api.batchCalls[t].id
    requires DrainInv(env, api, httpOptions, api.batchCalls, st, i, pending)
    requires |pending| == SliceSize(api.batchCalls) > 0 && FullAndAnswered(st.log, SliceSize(api.batchCalls))
    ensures failed ==> StoppedFull(env, api, httpOptions, next, i)
    ensures !failed ==> Visiting(env, api, httpOptions, calls, next, i, [])
  {
    next := SendChunk(env, api, httpOptions, api.batchCalls, st, i, pending);
    failed := next.log[|st.log|].reply.None?;
    if failed {
      ChunkedAfter(st.log, next.log[|st.log|], SliceSize(api.batchCalls));
    } else {
      QueueBound(env, api, httpOptions, api.batchCalls, next, i, [], calls);
    }
  }

  /** One step of `each_slice`: visit entry `i`, and send the pending slice
      once it is full. `failed` reports an empty composite body. */
  method VisitStep(env: Env, api: GraphBatchApi, httpOptions: map<string, string>, ghost calls: set<nat>,
                   st: DrainState, i: nat, pending: seq<BatchOperation>)
    returns (st': DrainState, i': nat, pending': seq<BatchOperation>, failed: bool)
    requires Aligned(env)
    requires calls == set t | 0 <= t < |api.batchCalls| :: api.batchCalls[t].id
    requires Visiting(env, api, httpOptions, calls, st, i, pending) && i < |st.queue|
    ensures i' == i + 1
    ensures failed ==> pending' == [] && StoppedFull(env, api, httpOptions, st', i')
    ensures !failed ==> Visiting(env, api, httpOptions, calls, st', i', pending')
  {
    DrainVisit(api.batchCalls, st, i, pending);
    st', i', pending', failed := st, i + 1, pending + [st.queue[i]], false;
    if |pending'| == SliceSize(api.batchCalls) {
      st', failed := SendFull(env, api, httpOptions, calls, st, i', pending');
      pending' := [];
    }
  }

  /** `batch_calls.each_slice(MAX_CALLS)` up to the end of the underlying
      `each`: visits the queue, which grows as it goes, and sends every full
      slice of `SliceSize` calls. Stops early when a reply is empty
      (`failed`); otherwise ends with every entry visited and fewer than
      `SliceSize` calls still pending. Only reached with a non-empty queue. */
  method VisitQueue(env: Env, api: GraphBatchApi, httpOptions: map<string, string>)
    returns (st: DrainState, i: nat, pending: seq<BatchOperation>, failed: bool)
    requires Aligned(env)
    requires |api.batchCalls| > 0
    ensures DrainInv(env, api, httpOptions, api.batchCalls, st, i, pending)
    ensures failed ==> pending == [] && |st.log| > 0 && st.log[|st.log| - 1].reply.None? &&
                       Chunked(st.log, SliceSize(api.batchCalls))
    ensures failed ==> |st.log[|st.log| - 1].chunk| == SliceSize(api.batchCalls)
    ensures !failed ==> i == |st.queue| && |pending| < SliceSize(api.batchCalls) &&
                        FullAndAnswered(st.log, SliceSize(api.batchCalls))
  {
    var q0 := api.batchCalls;
    ghost var calls := set t | 0 <= t < |q0| :: q0[t].id;
    st := DrainState(q0, map[], [], []);
    i := 0;
    pending := [];
    DrainStart(env, api, httpOptions, q0);
    while i < |st.queue|
      invariant Visiting(env, api, httpOptions, calls, st, i, pending)
      decreases |q0| + 2 * |calls| - i
    {
      var stop;
      st, i, pending, stop := VisitStep(env, api, httpOptions, calls, st, i, pending);
      if stop {
        return st, i, pending, true;
      }
    }
    failed := false;
  }

  /** After the underlying `each` has finished: yields the trailing partial
      slice, if any. `failed` reports an empty composite body; otherwise the
      drain is complete, and the only queued calls not sent are those the
      trailing slice requeued. */
  method SendTail(env: Env, api: GraphBatchApi, httpOptions: map<string, string>,
                  st: DrainState, i: nat, pending: seq<BatchOperation>)
    returns (fin: DrainState, failed: bool)
    requires Aligned(env)
    requires |api.batchCalls| > 0
    requires DrainInv(env, api, httpOptions, api.batchCalls, st, i, pending)
    requires i == |st.queue| && |pending| < SliceSize(api.batchCalls)
    requires FullAndAnswered(st.log, SliceSize(api.batchCalls))
    ensures DrainInv(env, api, httpOptions, api.batchCalls, fin, i, [])
    ensures |fin.log| > 0 && Chunked(fin.log, SliceSize(api.batchCalls))
    ensures failed <==> fin.log[|fin.log| - 1].reply.None?
    ensures failed ==> |fin.log[|fin.log| - 1].chunk| < SliceSize(api.batchCalls) && Sent(fin.log) == fin.queue
    ensures !failed ==> forall n :: 0 <= n < |fin.log| ==> fin.log[n].reply.Some?
    ensures !failed ==> |api.batchCalls| <= |Sent(fin.log)|
    ensures !failed ==> var last := fin.log[|fin.log| - 1];
      fin.queue == Sent(fin.log) +
        (if |last.chunk| < SliceSize(api.batchCalls) then Requeues(last.chunk, last.outcomes) else [])
  {
    fin, failed := st, false;
    if |pending| > 0 {
      fin := SendChunk(env, api, httpOptions, api.batchCalls, st, i, pending);
      failed := fin.log[|fin.log| - 1].reply.None?;
      if failed {
        ChunkedAfter(st.log, fin.log[|st.log|], SliceSize(api.batchCalls));
        assert fin.queue[..i] == fin.queue;
      } else {
        DrainFinishedPartial(api.batchCalls, st, i, pending, fin);
      }
    } else {
      DrainFinishedFull(api.batchCalls, st, i);
    }
  }

  /** Sending a one-call chunk whose reply is `[null]`: the call is requeued
      while its counter is below three, and otherwise gets the 404 error. */
  lemma NullSlotFlush(env: Env, api: GraphBatchApi, httpOptions: map<string, string>, st: DrainState, op: BatchOperation)
    requires Aligned(env)
    requires Post(env, |st.log|, BuildRequest(env, api, [op], httpOptions)) == Some([None])
    ensures var r := Flush(env, api, httpOptions, st, [op]);
      && |r.log| == |st.log| + 1
      && (Attempt(st.attempts, op.id) < MAX_ATTEMPTS ==>
            r.queue == st.queue + [op] && r.results == st.results
            && Attempt(r.attempts, op.id) == Attempt(st.attempts, op.id) + 1)
      && (Attempt(st.attempts, op.id) >= MAX_ATTEMPTS ==>
            r.queue == st.queue && r.results == st.results + [Finalize(op, Error(NoResponseError))])
  {
    var r := Flush(env, api, httpOptions, st, [op]);
    assert r.log[|st.log|].reply == Some([None]);
    if Attempt(st.attempts, op.id) < MAX_ATTEMPTS {
      assert r.log[|st.log|].outcomes == [Requeue];
      assert Requeues([op], [Requeue]) == [op] && Emits([Requeue]) == [];
    } else {
      var last := Emit(Finalize(op, Error(NoResponseError)));
      assert r.log[|st.log|].outcomes == [last];
      assert Requeues([op], [last]) == [] && Emits([last]) == [last.value];
    }
  }

  /** With one-call chunks, the calls sent are the chunks' single calls, in order. */
  lemma {:induction false} SentSingles(log: seq<Exchange>)
    requires forall n :: 0 <= n < |log| ==> |log[n].chunk| == 1
    ensures |Sent(log)| == |log|
    ensures forall n :: 0 <= n < |log| ==> log[n].chunk == [Sent(log)[n]]
    decreases |log|
  {
    if |log| > 0 {
      var front := log[..|log| - 1];
      SentSingles(front);
      assert forall n :: 0 <= n < |front| ==> front[n] == log[n];
    }
  }

  /** The calls requeued by the first `k` exchanges are a prefix of those
      requeued by the whole log. */
  lemma {:induction false} RequeuedByPrefix(log: seq<Exchange>, k: nat)
    requires k <= |log|
    ensures RequeuedBy(log[..k]) <= RequeuedBy(log)
    decreases |log|
  {
    if k < |log| {
      var front := log[..|log| - 1];
      RequeuedByPrefix(front, k);
      assert front[..k] == log[..k];
    } else {
      assert log[..k] == log;
    }
  }

  /** What a one-call chunk answered `[null]` does, given the calls `prior`
      already requeued: a requeue while `prior` holds the call fewer than
      twice, the 404 error passed through its block otherwise. */
  function NullOutcome(op: BatchOperation, prior: seq<BatchOperation>): (outcomes: seq<SlotOutcome>)
  {
    if CountId(prior, op.id) < MAX_ATTEMPTS - 1 then [Requeue]
    else [Emit(Finalize(op, Error(NoResponseError)))]
  }

  /** The one slot of a one-call exchange answered `[null]`. */
  lemma NullSlotOutcome(env: Env, api: GraphBatchApi, httpOptions: map<string, string>, n: nat,
                        prior: seq<BatchOperation>, ex: Exchange, op: BatchOperation)
    requires Answered(env, api, httpOptions, n, prior, ex)
    requires ex.chunk == [op] && ex.reply == Some([None])
    ensures ex.outcomes == NullOutcome(op, prior)
  {
    var o := ex.outcomes[0];
    assert ex.outcomes == [o];
    assert ex.reply.value[0].None?;
    assert o.Requeue? <==> CountId(prior + Requeues(ex.chunk[..0], ex.outcomes[..0]), op.id) < MAX_ATTEMPTS - 1;
    assert prior + Requeues(ex.chunk[..0], ex.outcomes[..0]) == prior;
  }

  /** Every one of the first three exchanges that sends just `op` is
      answered `[null]` and does what `NullOutcome` says. */
  lemma NullAnswers(env: Env, api: GraphBatchApi, httpOptions: map<string, string>, op: BatchOperation, log: seq<Exchange>)
    requires forall n: nat :: n < 3 ==> Post(env, n, BuildRequest(env, api, [op], httpOptions)) == Some([None])
    requires AllAnswered(env, api, httpOptions, log)
    ensures forall n :: 0 <= n < |log| && n < 3 && log[n].chunk == [op] ==>
      log[n].reply.Some? && log[n].outcomes == NullOutcome(op, RequeuedBy(log[..n]))
  {
    forall n | 0 <= n < |log| && n < 3 && log[n].chunk == [op]
      ensures log[n].reply.Some? && log[n].outcomes == NullOutcome(op, RequeuedBy(log[..n]))
    {
      AnsweredAt(env, api, httpOptions, log, n);
      assert log[n].reply == Some([None]);
      NullSlotOutcome(env, api, httpOptions, n, RequeuedBy(log[..n]), log[n], op);
    }
  }

  /** The books after a one-call exchange that did what `NullOutcome` says. */
  lemma NullExchange(op: BatchOperation, log: seq<Exchange>, n: nat)
    requires n < |log| && log[n].chunk == [op]
    requires log[n].outcomes == NullOutcome(op, RequeuedBy(log[..n]))
    ensures var prior := RequeuedBy(log[..n]);
      && RequeuedBy(log[..n + 1]) == prior + (if CountId(prior, op.id) < MAX_ATTEMPTS - 1 then [op] else [])
      && Collected(log[..n + 1]) == Collected(log[..n])
           + (if CountId(prior, op.id) < MAX_ATTEMPTS - 1 then [] else [Finalize(op, Error(NoResponseError))])
  {
    LogStep(log, n);
    OneSlotBooks(op, log[n].outcomes[0]);
  }

  /** The books after exchange `n` are those before it plus its own. */
  lemma LogStep(log: seq<Exchange>, n: nat)
    requires n < |log|
    ensures RequeuedBy(log[..n + 1]) == RequeuedBy(log[..n]) + Requeues(log[n].chunk, log[n].outcomes)
    ensures Collected(log[..n + 1]) == Collected(log[..n]) + Emits(log[n].outcomes)
  {
    SliceOfSlice(log, n, n + 1);
  }

  /** A prefix of a prefix is the shorter prefix. */
  lemma SliceOfSlice<T>(s: seq<T>, a: nat, b: nat)
    requires a <= b <= |s|
    ensures s[..b][..a] == s[..a]
  {
  }

  /** When the queue is one call followed by the requeued calls, the calls
      requeued by the first `k` exchanges stand in the queue right after it. */
  lemma QueuedAt(queue: seq<BatchOperation>, log: seq<Exchange>, k: nat, j: nat)
    requires |queue| >= 1 && queue[1..] == RequeuedBy(log)
    requires k <= |log| && j < |RequeuedBy(log[..k])|
    ensures 1 + j < |queue| && queue[1 + j] == RequeuedBy(log[..k])[j]
  {
    RequeuedByPrefix(log, k);
    assert queue[1..][j] == queue[1 + j];
  }

  /** What a one-call chunk adds to the books. */
  lemma OneSlotBooks(op: BatchOperation, o: SlotOutcome)
    ensures Requeues([op], [o]) == if o.Requeue? then [op] else []
    ensures Emits([o]) == if o.Emit? then [o.value] else []
  {
    assert [op][1..] == [] && [o][1..] == [];
  }

  /** A run whose queue is the one call `op` followed by the requeued calls,
      sent one call at a time in queue order, where every one of the first
      three exchanges that sends just `op` does what `NullOutcome` says. */
  ghost predicate OneByOne(op: BatchOperation, queue: seq<BatchOperation>, log: seq<Exchange>) {
    && (forall n :: 0 <= n < |log| && n < 3 && log[n].chunk == [op] ==>
          log[n].reply.Some? && log[n].outcomes == NullOutcome(op, RequeuedBy(log[..n])))
    && |queue| >= 1 && queue[0] == op && queue[1..] == RequeuedBy(log)
    && (forall n :: 0 <= n < |log| ==> n < |queue| && log[n].chunk == [queue[n]])
  }

  /** The first exchange sends `op` and requeues it. */
  lemma NullFirst(op: BatchOperation, queue: seq<BatchOperation>, log: seq<Exchange>)
    requires OneByOne(op, queue, log) && |log| >= 1
    ensures log[0].chunk == [op] && log[0].reply.Some?
    ensures RequeuedBy(log[..1]) == [op] && Collected(log[..1]) == []
  {
    assert log[..0] == [];
    NullExchange(op, log, 0);
  }

  /** The second exchange sends the requeued copy and requeues it again. */
  lemma NullSecond(op: BatchOperation, queue: seq<BatchOperation>, log: seq<Exchange>)
    requires OneByOne(op, queue, log) && |log| >= 2
    requires RequeuedBy(log[..1]) == [op] && Collected(log[..1]) == []
    ensures log[1].chunk == [op] && log[1].reply.Some?
    ensures RequeuedBy(log[..2]) == [op, op] && Collected(log[..2]) == []
  {
    QueuedAt(queue, log, 1, 0);
    assert CountId([op], op.id) == 1 by { assert [op][1..] == []; }
    NullExchange(op, log, 1);
    Copies3(op);
  }

  /** The third exchange sends the second copy, which has used up its
      attempts, and collects the 404 error. */
  lemma NullThird(op: BatchOperation, queue: seq<BatchOperation>, log: seq<Exchange>)
    requires OneByOne(op, queue, log) && |log| >= 3
    requires RequeuedBy(log[..2]) == [op, op] && Collected(log[..2]) == []
    ensures log[2].chunk == [op] && log[2].reply.Some?
    ensures RequeuedBy(log[..3]) == [op, op] && Collected(log[..3]) == [Finalize(op, Error(NoResponseError))]
  {
    QueuedAt(queue, log, 2, 1);
    assert CountId([op, op], op.id) == 2 by { assert [op, op][1..] == [op]; }
    NullExchange(op, log, 2);
  }

  /** A successful run of `OneByOne` shape sent in one-call chunks has sent
      the whole queue, so it cannot stop after one or two exchanges: each of
      those requeued a copy that would still be waiting. */
  lemma NullRunLong(op: BatchOperation, out: Result<seq<Value>, ApiError>,
                    queue: seq<BatchOperation>, log: seq<Exchange>)
    requires OneByOne(op, queue, log) && |log| >= 1
    requires forall n :: 0 <= n < |log| ==> |log[n].chunk| == 1
    requires |Sent(log)| == |log| <= |queue| && Sent(log) == queue[..|Sent(log)|]
    requires out.Failure? ==> log[|log| - 1].reply.None?
    requires out.Success? ==> queue == Sent(log)
    ensures |log| >= 3
    ensures log[0].chunk == [op] && log[1].chunk == [op]
    ensures RequeuedBy(log[..2]) == [op, op] && Collected(log[..2]) == []
  {
    NullFirst(op, queue, log);
    if |log| == 1 {
      SliceAll(log);
      assert false;
    }
    NullSecond(op, queue, log);
    if |log| == 2 {
      SliceAll(log);
      assert false;
    }
  }

  /** A log that obeys `Causal` for one initial call, sent one call at a
      time, with only two calls requeued by its first three exchanges, has
      no fourth exchange: the calls available number three. */
  lemma NullRunShort(op: BatchOperation, log: seq<Exchange>)
    requires |log| >= 3
    requires forall n :: 0 <= n < |log| ==> |log[n].chunk| == 1
    requires Causal([op], log)
    requires RequeuedBy(log[..3]) == [op, op]
    ensures |log| == 3
  {
    if |log| > 3 {
      CausalAt([op], log, 3);
      SentSingles(log[..4]);
      assert false;
    }
  }

  /** A run of `OneByOne` shape, sent in one-call chunks, is exactly three
      exchanges long once `execute` has returned: the first two requeue the
      call, the third collects its 404 error, and the call stands in the
      queue three times. */
  lemma {:induction false} NullRun(op: BatchOperation, out: Result<seq<Value>, ApiError>,
                                   queue: seq<BatchOperation>, log: seq<Exchange>)
    requires forall n :: 0 <= n < |log| && n < 3 && log[n].chunk == [op] ==>
      log[n].reply.Some? && log[n].outcomes == NullOutcome(op, RequeuedBy(log[..n]))
    requires |log| > 0
    requires |queue| >= 1 && queue[..1] == [op] && queue[1..] == RequeuedBy(log)
    requires Chunked(log, 1)
    requires |Sent(log)| <= |queue| && Sent(log) == queue[..|Sent(log)|]
    requires Causal([op], log)
    requires out.Failure? ==> log[|log| - 1].reply.None?
    requires out.Success? ==> out.value == Collected(log)
    requires out.Success? ==> queue == Sent(log) + (if |log[|log| - 1].chunk| < 1 then [op] else [])
    ensures |log| == 3 && forall n :: 0 <= n < 3 ==> log[n].chunk == [op]
    ensures queue == [op, op, op]
    ensures out == Success([Finalize(op, Error(NoResponseError))])
  {
    assert && |log| == 3 && log[0].chunk == [op] && log[1].chunk == [op] && log[2].chunk == [op]
           && log[2].reply.Some? && RequeuedBy(log[..3]) == [op, op]
           && Collected(log[..3]) == [Finalize(op, Error(NoResponseError))] by {
      SentSingles(log);
      assert queue[0] == queue[..1][0];
      assert OneByOne(op, queue, log);
      NullRunLong(op, out, queue, log);
      NullThird(op, queue, log);
      NullRunShort(op, log);
    }
    SliceAll(log);
    Copies3(op);
    SplitFirst(queue);
  }

  /** The whole of a sequence as a slice. */
  lemma SliceAll<T>(s: seq<T>)
    ensures s[..|s|] == s
  {
  }

  /** Two and three copies of one call, built up one at a time. */
  lemma Copies3(op: BatchOperation)
    ensures [op] + [op] == [op, op] && [op] + [op, op] == [op, op, op]
  {
  }

  /** A non-empty sequence is its first element followed by the rest. */
  lemma SplitFirst(s: seq<BatchOperation>)
    requires |s| >= 1
    ensures s == s[..1] + s[1..]
  {
  }

  /** `execute` on a single queued call whose slot keeps coming back `null`:
      the slice length is one, so each requeue is visited and sent again. */
  method SingleNullCallSentThrice(env: Env, api: GraphBatchApi, httpOptions: map<string, string>, op: BatchOperation)
    returns (out: Result<seq<Value>, ApiError>, api': GraphBatchApi, log: seq<Exchange>)
    requires Aligned(env)
    requires api.batchCalls == [op]
    requires forall n: nat :: n < 3 ==> Post(env, n, BuildRequest(env, api, [op], httpOptions)) == Some([None])
    ensures |log| == 3 && forall n :: 0 <= n < 3 ==> log[n].chunk == [op]
    ensures api'.batchCalls == [op, op, op]
    ensures out == Success([Finalize(op, Error(NoResponseError))])
  {
    out, api', log := Execute(api, env, httpOptions);
    assert SliceSize(api.batchCalls) == 1;
    NullAnswers(env, api, httpOptions, op, log);
    NullRun(op, out, api'.batchCalls, log);
  }

  /** Runs the queued calls.
      - An empty queue yields `[]` and no request.
      - Every request carries between one and `SliceSize` calls (at most
        `MAX_CALLS`, and at most the initial queue length); all but the last
        carry exactly `SliceSize`; together they are the front of the queue,
        in queue order.
      - The queue only grows, by exactly the requeued calls in requeue order,
        each call at most twice.
      - No request carries a call before it is queued: the calls sent up to
        and including any request number at most the original calls plus
        those requeued by the requests before it.
      - An empty composite body raises `BadFacebookResponse` and no result
        list is returned; a partial chunk gets it only when it held the
        whole rest of the queue.
      - On success the results are the slot outcomes, slot by slot and chunk
        by chunk, every original call has been sent, and the only calls not
        sent are those requeued by a final, partial chunk. */
  method Execute(api: GraphBatchApi, env: Env, httpOptions: map<string, string>)
    returns (out: Result<seq<Value>, ApiError>, api': GraphBatchApi, log: seq<Exchange>)
    requires Aligned(env)
    ensures |api.batchCalls| == 0 ==> out == Success([]) && log == [] && api' == api
    ensures |api.batchCalls| > 0 ==> |log| > 0
    ensures api' == api.(batchCalls := api'.batchCalls)
    ensures |api.batchCalls| <= |api'.batchCalls| && api'.batchCalls[..|api.batchCalls|] == api.batchCalls
    ensures api'.batchCalls[|api.batchCalls|..] == RequeuedBy(log)
    ensures forall id :: CountId(api'.batchCalls[|api.batchCalls|..], id) <= MAX_ATTEMPTS - 1
    ensures Valid(api) ==> Valid(api')
    ensures SliceSize(api.batchCalls) <= MAX_CALLS && Chunked(log, SliceSize(api.batchCalls))
    ensures |Sent(log)| <= |api'.batchCalls| && Sent(log) == api'.batchCalls[..|Sent(log)|]
    ensures AllAnswered(env, api, httpOptions, log)
    ensures Causal(api.batchCalls, log)
    ensures out.Failure? ==> out.error == EmptyBodyError && log[|log| - 1].reply.None?
    ensures out.Failure? && |log[|log| - 1].chunk| < SliceSize(api.batchCalls) ==> Sent(log) == api'.batchCalls
    ensures out.Success? ==> out.value == Collected(log)
    ensures out.Success? ==> forall n :: 0 <= n < |log| ==> log[n].reply.Some?
    ensures out.Success? ==> |api.batchCalls| <= |Sent(log)|
    ensures out.Success? && |log| > 0 ==>
      api'.batchCalls == Sent(log) + (if |log[|log| - 1].chunk| < SliceSize(api.batchCalls)
                                      then Requeues(log[|log| - 1].chunk, log[|log| - 1].outcomes) else [])
  {
    if |api.batchCalls| == 0 {
      return Success([]), api, [];
    }
    var st, i, pending, failed := VisitQueue(env, api, httpOptions);
    var fin := st;
    if !failed {
      fin, failed := SendTail(env, api, httpOptions, st, i, pending);
    }
    Reported(env, api, httpOptions, fin, i, api.(batchCalls := fin.queue), fin.log);
    api', log := api.(batchCalls := fin.queue), fin.log;
    out := if failed then Failure(EmptyBodyError) else Success(fin.results);
  }
}
