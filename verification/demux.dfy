/** Demultiplexing one composite reply back onto the calls of its chunk:
    header folding, error/status/headers/body classification, pagination and
    post-processing, and the retry decision for an empty slot. */
module Demux {
  import opened Outcomes
  import opened Values
  import opened Wire
  import opened Operations
  import opened Collaborators

  /** The attempt counter of a call never exceeds this within one `execute`:
      a call is requeued while its counter is below it. */
  const MAX_ATTEMPTS: nat := 3

  /** Some header of the list carries `name`. */
  predicate Lists(headers: seq<Header>, name: string) {
    exists j :: 0 <= j < |headers| && headers[j].name == name
  }

  /** Header `j` is the last one of the list with its name. */
  predicate LastOfName(headers: seq<Header>, j: int)
    requires 0 <= j < |headers|
  {
    forall later :: j < later < |headers| ==> headers[later].name != headers[j].name
  }

  /** One step of the fold keeps the key set: the keys after storing the last
      header are exactly the names of the whole list. */
  lemma FoldStepKeys(headers: seq<Header>, m0: map<string, string>)
    requires |headers| > 0
    requires forall name :: name in m0 <==> Lists(headers[..|headers| - 1], name)
    ensures var last := headers[|headers| - 1];
      forall name :: name in m0[last.name := last.value] <==> Lists(headers, name)
  {
  }

  /** One step of the fold keeps "the last header of a name wins". */
  lemma FoldStepLastWins(headers: seq<Header>, m0: map<string, string>)
    requires |headers| > 0
    requires var front := headers[..|headers| - 1];
      forall j :: 0 <= j < |front| && LastOfName(front, j) ==> front[j].name in m0 && m0[front[j].name] == front[j].value
    ensures var last := headers[|headers| - 1];
      forall j :: 0 <= j < |headers| && LastOfName(headers, j) ==>
        headers[j].name in m0[last.name := last.value] && m0[last.name := last.value][headers[j].name] == headers[j].value
  {
    var last := headers[|headers| - 1];
    var front := headers[..|headers| - 1];
    forall j | 0 <= j < |front| && LastOfName(headers, j)
      ensures headers[j].name in m0[last.name := last.value] && m0[last.name := last.value][headers[j].name] == headers[j].value
    {
      assert headers[|headers| - 1].name != headers[j].name;
      assert front[j] == headers[j];
      forall later | j < later < |front|
        ensures front[later].name != front[j].name
      {
        assert front[later] == headers[later];
      }
      assert LastOfName(front, j);
    }
  }

  /** Folds a slot's header list into a hash, left to right, so that a later
      header overwrites an earlier one of the same name. */
  function FoldHeaderList(headers: seq<Header>): (m: map<string, string>)
    ensures forall name :: name in m <==> Lists(headers, name)
    ensures forall j :: 0 <= j < |headers| && LastOfName(headers, j) ==>
      headers[j].name in m && m[headers[j].name] == headers[j].value
    decreases |headers|
  {
    if |headers| == 0 then map[]
    else
      var last := headers[|headers| - 1];
      var m0 := FoldHeaderList(headers[..|headers| - 1]);
      FoldStepKeys(headers, m0);
      FoldStepLastWins(headers, m0);
      m0[last.name := last.value]
  }

  /** A slot without a `headers` key yields the empty hash. */
  function ParseHeaders(headers: Option<seq<Header>>): (m: map<string, string>)
    ensures headers.None? ==> m == map[]
    ensures headers.Some? ==> m == FoldHeaderList(headers.value)
  {
    match headers
    case None => map[]
    case Some(list) => FoldHeaderList(list)
  }

  /** The header hash as the Ruby value handed back for `:headers`. */
  function HeaderHash(m: map<string, string>): (v: Value)
    ensures v.Hash? && v.entries.Keys == m.Keys
    ensures forall name :: name in m ==> v.entries[name] == Str(m[name])
  {
    Hash(map name | name in m :: Str(m[name]))
  }

  /** The raw result of a present slot: the classified error when the error
      classifier finds one, whatever component was asked for; otherwise the
      status code, the header hash or the decoded body, as `http_component`
      selects. */
  function RawResult(env: Env, op: BatchOperation, slot: Slot): (v: Value)
    ensures var error := env.checkResponse(slot.code, slot.body, ParseHeaders(slot.headers));
      && (error.Some? ==> v == Error(error.value))
      && (error.None? && op.httpOptions.httpComponent == Some(StatusComponent) ==> v == Int(slot.code))
      && (error.None? && op.httpOptions.httpComponent == Some(HeadersComponent) ==>
            && v.Hash? && v.entries.Keys == ParseHeaders(slot.headers).Keys
            && forall name :: name in ParseHeaders(slot.headers) ==>
                 v.entries[name] == Str(ParseHeaders(slot.headers)[name]))
      && (error.None? && op.httpOptions.httpComponent !in {Some(StatusComponent), Some(HeadersComponent)} ==>
            v == env.parseBody(slot.body))
  {
    var headers := ParseHeaders(slot.headers);
    match env.checkResponse(slot.code, slot.body, headers)
    case Some(error) => Error(error)
    case None =>
      match op.httpOptions.httpComponent
      case Some(StatusComponent) => Int(slot.code)
      case Some(HeadersComponent) => HeaderHash(headers)
      case _ => env.parseBody(slot.body)
  }

  /** The raw result reads the call only through its `http_component`
      option: two calls that ask for the same component get the same raw
      result from the same slot. */
  lemma RawResultReadsComponentOnly(env: Env, op1: BatchOperation, op2: BatchOperation, slot: Slot)
    requires op1.httpOptions.httpComponent == op2.httpOptions.httpComponent
    ensures RawResult(env, op1, slot) == RawResult(env, op2, slot)
  {
  }

  /** Applies the call's post-processing block, when it has one. */
  function Finalize(op: BatchOperation, v: Value): (r: Value) {
    match op.postProcessing
    case Some(f) => f(v)
    case None => v
  }

  /** The single value a present slot contributes to the results. */
  function Answer(env: Env, api: GraphBatchApi, op: BatchOperation, slot: Slot): (r: Value) {
    Finalize(op, env.evaluate(RawResult(env, op, slot), api.originalApi))
  }

  /** The attempt counter: `Hash.new { |h, k| h[k] = 1 }` keyed by identity. */
  function Attempt(attempts: map<nat, nat>, id: nat): (count: nat) {
    if id in attempts then attempts[id] else 1
  }

  /** What one slot does: contributes a value, or sends its call to the back
      of the queue. */
  datatype SlotOutcome = Emit(value: Value) | Requeue

  /** One slot, given the attempt counters so far. */
  function SlotStep(env: Env, api: GraphBatchApi, attempts: map<nat, nat>, op: BatchOperation, slot: Option<Slot>)
    : (r: (SlotOutcome, map<nat, nat>))
  {
    match slot
    case Some(s) => (Emit(Answer(env, api, op, s)), attempts)
    case None =>
      var count := Attempt(attempts, op.id);
      if count < MAX_ATTEMPTS then (Requeue, attempts[op.id := count + 1])
      else (Emit(Finalize(op, Error(NoResponseError))), attempts)
  }

  /** The rule for one slot. A present slot contributes its answer and leaves
      the counters alone. An empty slot requeues its call exactly while the
      call's counter is below three, and then raises only that counter;
      otherwise it contributes the 404 error passed through the call's block.
      No other call's counter changes. */
  lemma SlotStepRule(env: Env, api: GraphBatchApi, attempts: map<nat, nat>, op: BatchOperation, slot: Option<Slot>)
    ensures var r := SlotStep(env, api, attempts, op, slot);
      && (slot.Some? ==> r == (Emit(Answer(env, api, op, slot.value)), attempts))
      && (slot.None? ==> (r.0.Requeue? <==> Attempt(attempts, op.id) < MAX_ATTEMPTS))
      && (slot.None? && r.0.Requeue? ==> Attempt(r.1, op.id) == Attempt(attempts, op.id) + 1)
      && (slot.None? && r.0.Emit? ==> r == (Emit(Finalize(op, Error(NoResponseError))), attempts))
      && (forall id :: id != op.id ==> Attempt(r.1, id) == Attempt(attempts, id))
  {
  }

  /** `response.each_with_index`: walks the reply, not the chunk, so a short
      reply leaves the trailing calls of the chunk without any outcome. */
  function DemuxSlots(env: Env, api: GraphBatchApi, chunk: seq<BatchOperation>, reply: Reply, attempts: map<nat, nat>)
    : (r: (seq<SlotOutcome>, map<nat, nat>))
    requires |reply| <= |chunk|
    ensures |r.0| == |reply|
    decreases |reply|
  {
    if |reply| == 0 then ([], attempts)
    else
      var (outcome, next) := SlotStep(env, api, attempts, chunk[0], reply[0]);
      var (rest, final) := DemuxSlots(env, api, chunk[1..], reply[1..], next);
      ([outcome] + rest, final)
  }

  /** The calls sent back to the queue, in slot order. */
  function Requeues(chunk: seq<BatchOperation>, outcomes: seq<SlotOutcome>): (r: seq<BatchOperation>)
    decreases |outcomes|
  {
    if |outcomes| == 0 || |chunk| == 0 then []
    else (if outcomes[0].Requeue? then [chunk[0]] else []) + Requeues(chunk[1..], outcomes[1..])
  }

  /** The values contributed to the results, in slot order. */
  function Emits(outcomes: seq<SlotOutcome>): (r: seq<Value>)
    decreases |outcomes|
  {
    if |outcomes| == 0 then []
    else (if outcomes[0].Emit? then [outcomes[0].value] else []) + Emits(outcomes[1..])
  }

  /** Every slot has exactly one fate: it either adds a value or requeues its
      call, never both and never neither. */
  lemma {:induction false} EveryOutcomeCounted(chunk: seq<BatchOperation>, outcomes: seq<SlotOutcome>)
    requires |outcomes| <= |chunk|
    ensures |Emits(outcomes)| + |Requeues(chunk, outcomes)| == |outcomes|
    decreases |outcomes|
  {
    if |outcomes| > 0 {
      EveryOutcomeCounted(chunk[1..], outcomes[1..]);
    }
  }

  /** Every requeued record is a call of the chunk. */
  lemma {:induction false} RequeuesFromChunk(chunk: seq<BatchOperation>, outcomes: seq<SlotOutcome>)
    ensures forall m :: 0 <= m < |Requeues(chunk, outcomes)| ==> Requeues(chunk, outcomes)[m] in chunk
    decreases |outcomes|
  {
    if |outcomes| > 0 && |chunk| > 0 {
      RequeuesFromChunk(chunk[1..], outcomes[1..]);
      var head: seq<BatchOperation> := if outcomes[0].Requeue? then [chunk[0]] else [];
      var tail := Requeues(chunk[1..], outcomes[1..]);
      var r := Requeues(chunk, outcomes);
      assert r == head + tail;
      forall m | 0 <= m < |r|
        ensures r[m] in chunk
      {
        if m >= |head| {
          assert r[m] == tail[m - |head|];
          assert tail[m - |head|] in chunk[1..];
        }
      }
    }
  }

  /** A present slot always contributes exactly `post_processing(evaluate(raw))`
      (or `evaluate(raw)` without a block); an empty slot either requeues its
      call or, once the call has used its three attempts, contributes the
      synthesised 404 error passed through the block. */
  lemma {:induction false} DemuxOutcomes(
    env: Env, api: GraphBatchApi, chunk: seq<BatchOperation>, reply: Reply, attempts: map<nat, nat>)
    requires |reply| <= |chunk|
    ensures var outcomes := DemuxSlots(env, api, chunk, reply, attempts).0;
      && (forall j :: 0 <= j < |reply| && reply[j].Some? ==>
            outcomes[j] == Emit(Answer(env, api, chunk[j], reply[j].value)))
      && (forall j :: 0 <= j < |reply| && reply[j].None? && outcomes[j].Emit? ==>
            outcomes[j].value == Finalize(chunk[j], Error(NoResponseError)))
    decreases |reply|
  {
    if |reply| > 0 {
      var (outcome, next) := SlotStep(env, api, attempts, chunk[0], reply[0]);
      DemuxOutcomes(env, api, chunk[1..], reply[1..], next);
    }
  }

  /** Without post-processing blocks, a present slot adds `evaluate(raw)`
      itself, and an empty slot out of attempts adds the bare 404 error. */
  lemma DemuxWithoutBlocks(
    env: Env, api: GraphBatchApi, chunk: seq<BatchOperation>, reply: Reply, attempts: map<nat, nat>)
    requires |reply| <= |chunk|
    requires forall j :: 0 <= j < |chunk| ==> chunk[j].postProcessing.None?
    ensures var outcomes := DemuxSlots(env, api, chunk, reply, attempts).0;
      && (forall j :: 0 <= j < |reply| && reply[j].Some? ==>
            outcomes[j] == Emit(env.evaluate(RawResult(env, chunk[j], reply[j].value), api.originalApi)))
      && (forall j :: 0 <= j < |reply| && reply[j].None? && outcomes[j].Emit? ==>
            outcomes[j].value == Error(NoResponseError))
  {
  }

  /** The counters after the reply equal the counters before plus one per
      requeue of that call, and never pass three. */
  lemma {:induction false} DemuxAttempts(
    env: Env, api: GraphBatchApi, chunk: seq<BatchOperation>, reply: Reply, attempts: map<nat, nat>)
    requires |reply| <= |chunk|
    requires forall id :: Attempt(attempts, id) <= MAX_ATTEMPTS
    ensures var r := DemuxSlots(env, api, chunk, reply, attempts);
      && (forall id :: Attempt(r.1, id) == Attempt(attempts, id) + CountId(Requeues(chunk, r.0), id))
      && (forall id :: Attempt(r.1, id) <= MAX_ATTEMPTS)
    decreases |reply|
  {
    if |reply| > 0 {
      var (outcome, next) := SlotStep(env, api, attempts, chunk[0], reply[0]);
      assert forall id :: Attempt(next, id) == Attempt(attempts, id) + (if outcome.Requeue? && chunk[0].id == id then 1 else 0);
      DemuxAttempts(env, api, chunk[1..], reply[1..], next);
      var r := DemuxSlots(env, api, chunk, reply, attempts);
      assert r.0[1..] == DemuxSlots(env, api, chunk[1..], reply[1..], next).0;
      var head: seq<BatchOperation> := if outcome.Requeue? then [chunk[0]] else [];
      assert Requeues(chunk, r.0) == head + Requeues(chunk[1..], r.0[1..]);
      forall id
        ensures Attempt(r.1, id) == Attempt(attempts, id) + CountId(Requeues(chunk, r.0), id)
      {
        CountIdAppend(head, Requeues(chunk[1..], r.0[1..]), id);
      }
    }
  }

  /** Counting the requeues among the first `j` slots: the first slot's
      contribution, then the rest. */
  lemma RequeuesFirst(chunk: seq<BatchOperation>, outcomes: seq<SlotOutcome>, j: nat, id: nat)
    requires 0 < j <= |chunk| && j <= |outcomes|
    ensures CountId(Requeues(chunk[..j], outcomes[..j]), id)
         == CountId(if outcomes[0].Requeue? then [chunk[0]] else [], id)
          + CountId(Requeues(chunk[1..][..j - 1], outcomes[1..][..j - 1]), id)
  {
    var head: seq<BatchOperation> := if outcomes[0].Requeue? then [chunk[0]] else [];
    assert chunk[..j][1..] == chunk[1..][..j - 1];
    assert outcomes[..j][1..] == outcomes[1..][..j - 1];
    assert Requeues(chunk[..j], outcomes[..j]) == head + Requeues(chunk[1..][..j - 1], outcomes[1..][..j - 1]);
    CountIdAppend(head, Requeues(chunk[1..][..j - 1], outcomes[1..][..j - 1]), id);
  }

  /** An empty slot requeues its call exactly when the call's counter (its
      count at the start of the reply plus its requeues from earlier slots of
      the same reply) is still below three. */
  lemma {:induction false} DemuxRequeueRule(
    env: Env, api: GraphBatchApi, chunk: seq<BatchOperation>, reply: Reply, attempts: map<nat, nat>)
    requires |reply| <= |chunk|
    ensures var outcomes := DemuxSlots(env, api, chunk, reply, attempts).0;
      forall j :: 0 <= j < |reply| && reply[j].None? ==>
        (outcomes[j].Requeue? <==>
          Attempt(attempts, chunk[j].id) + CountId(Requeues(chunk[..j], outcomes[..j]), chunk[j].id) < MAX_ATTEMPTS)
    decreases |reply|
  {
    if |reply| > 0 {
      var (outcome, next) := SlotStep(env, api, attempts, chunk[0], reply[0]);
      DemuxRequeueRule(env, api, chunk[1..], reply[1..], next);
      var outcomes := DemuxSlots(env, api, chunk, reply, attempts).0;
      var rest := DemuxSlots(env, api, chunk[1..], reply[1..], next).0;
      assert outcomes[1..] == rest;
      forall j | 0 <= j < |reply| && reply[j].None?
        ensures outcomes[j].Requeue? <==>
          Attempt(attempts, chunk[j].id) + CountId(Requeues(chunk[..j], outcomes[..j]), chunk[j].id) < MAX_ATTEMPTS
      {
        var id := chunk[j].id;
        if j == 0 {
          assert Requeues(chunk[..0], outcomes[..0]) == [];
        } else {
          assert reply[1..][j - 1] == reply[j];
          assert chunk[1..][j - 1] == chunk[j];
          RequeuesFirst(chunk, outcomes, j, id);
        }
      }
    }
  }
}
