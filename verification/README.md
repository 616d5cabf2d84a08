# Koala batch engine, modelled in Dafny

This project models the batch engine of the Koala Facebook Graph client
(`Koala::Facebook::GraphBatchAPI`). Inside a batch block, every Graph call is
captured as a queued `BatchOperation` instead of being sent. `execute` then:

- drains the queue in slices of at most `MAX_CALLS` = 50;
- sends each slice as one composite POST;
- maps the positional reply back onto the calls of the slice;
- classifies each present slot as an error, a status code, a header hash or a
  decoded body;
- runs the result through `GraphCollection.evaluate` and the call's optional
  post-processing block;
- requeues a call whose slot came back `null`, as long as its attempt counter
  (which starts at 1) is below 3. Otherwise the call gets a synthesised
  `ClientError(404, '', 'No response from FB')`.

Modules, in dependency order:

- `Outcomes`: `Option` and `Result`.
- `Values`: decoded values, the error objects, and the two fixed errors the
  engine builds itself.
- `Wire`: headers, reply slots, the composite request and its parameters.
- `Operations`: `MAX_CALLS`, the queued call record, and the batch session,
  which owns the queue and keeps it across `execute` calls.
- `Collaborators`: the code the engine calls but does not own, passed in as
  function-valued oracles. This covers the transport, `check_response`, JSON
  decoding of a slot body, `GraphCollection.evaluate`,
  `BatchOperation#to_batch_params` and `BatchOperation#files`.
- `Enqueue`: `graph_call_in_batch`.
- `Requests`: building the composite request for one chunk.
- `Demux`: header folding, slot classification, and the retry decision.
- `Budget`: the counting argument that bounds how far one `execute` can grow
  the queue.
- `Execute`: the drain loop.

A Ruby object's identity is the key of the retry counter. The model gives each
queued record an `id` when it is enqueued, and a requeued record keeps its
`id`.

The drain follows the code as written, not an idealised two-phase retry.
`batch_calls.each_slice(50)` walks an array that the loop itself appends to.
MRI's `Enumerable#each_slice` caps the slice length at the receiver's `size`
when it is called (`limit_by_enum_size` in `enum.c`). So the slice length
(`SliceSize`) is 50, or the initial queue length when that is shorter.

- A slice of that length is yielded while `Array#each` is still running.
  Calls requeued from it are visited and sent later in the same `execute`.
  For example, a single queued call whose slot keeps coming back `null` is
  sent three times. It then gets the 404 error, and the queue holds it three
  times.
- A trailing slice that is shorter is yielded only after `each` has finished.
  Calls requeued from that slice are appended to the queue but are not sent
  by this `execute`.

`Execute`'s contract states the consequences of this for the log of
requests:
- On success, the queue is the calls sent plus the requeues of a final
  short slice.
- No request carries a call before that call is in the queue (`Causal`). The
  calls sent up to and including any request are at most the initial calls
  plus those requeued by the requests before it.

The contract does not claim that every requeued call gets a result.
`SingleNullCallSentThrice` shows the contract pinning down the one-call case
above from `Execute`'s contract alone. The queue is never cleared, so the
session returned by `Execute` carries it into the next call.

## Model

| member | source | states |
|---|---|---|
| Operations.NewBatchApi | lib/koala/api/graph_batch_api.rb:15-22 | A new session has the wrapped API's token and secret, remembers the original API, starts with an empty queue, and satisfies the identity invariant. |
| Enqueue.Downcase | lib/koala/api/graph_batch_api.rb:32 | The stored verb has the same length as the given verb, lower-cases every ASCII capital, keeps every other character, and contains no capital. |
| Enqueue.DowncaseIdempotent | lib/koala/api/graph_batch_api.rb:32 | Lower-casing an already lower-cased verb leaves it unchanged. |
| Enqueue.ResolveToken | lib/koala/api/graph_batch_api.rb:33 | A per-call `access_token` option wins; without one, the session's own token is used. |
| Enqueue.GraphCallInBatch | lib/koala/api/graph_batch_api.rb:24-38 | Enqueueing returns nil and appends exactly one record at the end of the queue. Every earlier entry and every session credential stay as they were. The new record holds the path, args and options, the lower-cased verb, the resolved token and the stored (not run) block. Its identity is fresh, so the identity invariant is kept. |
| Requests.LastDeclaring | lib/koala/api/graph_batch_api.rb:58 | Finds the last call of a chunk that declares an upload under a given name, or reports that no call declares it. |
| Requests.MergeFilesLastWins | lib/koala/api/graph_batch_api.rb:56-58 | The merged uploads hold a name exactly when some call of the chunk declares it. The file stored is the one from the last call that declares that name. |
| Requests.BuildRequest | lib/koala/api/graph_batch_api.rb:54-62 | Each chunk becomes one POST to `/` with one descriptor per call, in chunk order. Every descriptor is built with the session's token and secret. The merged uploads and the caller's `http_options` are passed along. |
| Requests.Args | lib/koala/api/graph_batch_api.rb:56-60 | The top-level parameters are the uploads plus `batch`. Because `batch` is assigned after the uploads are merged, it always holds the descriptors, even when an upload uses that name. This hash is what `Post` hands to the transport. |
| Requests.Post | lib/koala/api/graph_batch_api.rb:62 | Each chunk is sent as one POST of the parameter hash from `Args`, with the caller's `http_options`. A reply from a service that answers at most one slot per call has no more slots than the request has calls. |
| Demux.FoldHeaderList | lib/koala/api/graph_batch_api.rb:77 | The folded header hash has exactly the names in the list. When a name appears more than once, the last value wins. |
| Demux.ParseHeaders | lib/koala/api/graph_batch_api.rb:76-80 | A slot without a `headers` key gives the empty hash; otherwise its header list is folded. |
| Demux.HeaderHash | lib/koala/api/graph_batch_api.rb:92-94 | The value returned for `:headers` is a hash with exactly the folded names, each mapped to its header value. |
| Demux.RawResult | lib/koala/api/graph_batch_api.rb:82-98 | If the error classifier returns an error, that error is the raw result whatever component was asked for. Otherwise `:status` gives the integer code, `:headers` gives the folded header hash, and any other component gives the decoded body. |
| Demux.RawResultReadsComponentOnly | lib/koala/api/graph_batch_api.rb:82-98 | The raw result depends on the call only through its `http_component` option. Two calls asking for the same component get the same raw result from the same slot. |
| Demux.DemuxSlots | lib/koala/api/graph_batch_api.rb:69-71 | Demultiplexing walks the reply, not the chunk: there is one outcome per reply slot. |
| Demux.EveryOutcomeCounted | lib/koala/api/graph_batch_api.rb:69-117 | Every slot has exactly one fate. It either adds one value to the results or requeues its call, so values plus requeues equal the number of slots. |
| Demux.RequeuesFromChunk | lib/koala/api/graph_batch_api.rb:112 | Every requeued record is a call of the chunk being processed. |
| Demux.DemuxOutcomes | lib/koala/api/graph_batch_api.rb:100-117 | A present slot adds exactly `post_processing(evaluate(raw))`, or `evaluate(raw)` when there is no block. An empty slot that adds a value adds the 404 "No response from FB" error, passed through the block when there is one. |
| Demux.SlotStepRule | lib/koala/api/graph_batch_api.rb:100-117 | The rule for one slot. A present slot contributes `Answer`, which is the block applied to the evaluated raw result, and leaves every counter alone. An empty slot requeues its call exactly while the call's counter is below three, and then raises that counter by one. Otherwise it contributes `Finalize` of the 404 `ClientError`, which is the block applied to the error. No other call's counter changes. |
| Demux.DemuxWithoutBlocks | lib/koala/api/graph_batch_api.rb:103-116 | For calls without a post-processing block, a present slot adds `evaluate(raw)` itself, and an empty slot out of attempts adds the bare 404 error, not evaluated. |
| Demux.DemuxAttempts | lib/koala/api/graph_batch_api.rb:108-112 | After a reply, each call's attempt counter is its old value plus the number of times the reply requeued it, and it never exceeds 3. |
| Demux.DemuxRequeueRule | lib/koala/api/graph_batch_api.rb:108-112 | An empty slot requeues its call exactly when the call's counter is still below 3. The counter here is its value at the start of the reply, plus the requeues from earlier slots of the same reply. |
| Budget.AtMostTwiceEach | lib/koala/api/graph_batch_api.rb:108-112 | A sequence in which no call occurs more than twice, drawn from a set of calls, has at most twice as many entries as the set. This bounds the growth of the queue and so the length of the drain. |
| Execute.StartBooks | lib/koala/api/graph_batch_api.rb:52-53 | Before anything is sent, nothing is collected or requeued, and every call's counter reads 1, which is the default that the `Hash.new` block at line 53 stores. |
| Execute.FlushBudget | lib/koala/api/graph_batch_api.rb:108-112 | After each chunk, every call's counter still reads 1 plus the number of times it has been requeued in this `execute`, and no call has been requeued more than twice. |
| Execute.Flush | lib/koala/api/graph_batch_api.rb:56-119 | Sending one chunk adds exactly one exchange for that chunk: the request built for it and the transport's reply to it. The queue grows by exactly the chunk's requeues and the results by exactly its values. An empty reply adds no outcomes and leaves the counters alone. |
| Execute.AnsweredAt | lib/koala/api/graph_batch_api.rb:62-117 | Every exchange of a finished drain follows the per-slot rules. Present slots give their answer. An empty slot requeues its call exactly when the call has been requeued fewer than twice so far in this `execute`; otherwise it gives the 404 error. |
| Execute.FlushCausal | lib/koala/api/graph_batch_api.rb:54-112 | Sending the pending slice keeps the log `Causal`. The slice is drawn from the queue as it stands, which is the initial calls plus those requeued by the exchanges already made. |
| Execute.CausalEvery | lib/koala/api/graph_batch_api.rb:54-112 | A `Causal` log obeys the bound at every exchange, not just the last. |
| Execute.QueueBound | lib/koala/api/graph_batch_api.rb:108-112 | During the drain, the queue is at most the initial queue plus two entries per distinct initial call. |
| Execute.SliceSize | lib/koala/api/graph_batch_api.rb:54 | The slice length `each_slice(MAX_CALLS)` uses is 50, or the initial queue length when that is shorter. It is never above 50 or the queue length, and it is positive for a non-empty queue. |
| Execute.SendChunk | lib/koala/api/graph_batch_api.rb:62-119 | Sending the pending slice keeps every drain invariant and adds one exchange for exactly that slice. The queue grows by that slice's requeues. |
| Execute.SendFull | lib/koala/api/graph_batch_api.rb:54-66 | Inside the visiting loop, a slice of exactly `SliceSize` calls is sent. An empty composite body for that full slice stops the drain, and the log up to that point is still correctly chunked. Otherwise every chunk so far is full and answered, and the queue stays within its growth bound. |
| Execute.VisitStep | lib/koala/api/graph_batch_api.rb:54 | `each_slice` visits the next queue entry and sends the pending slice as soon as it holds `SliceSize` calls, that is, 50 calls or the whole initial queue if that is shorter. A slice that gets an empty body is such a full slice. The queue stays within its growth bound. |
| Execute.VisitQueue | lib/koala/api/graph_batch_api.rb:54-120 | The underlying `each` re-reads the growing queue. It ends after an empty body or once every entry has been visited. Every slice sent inside it, including one that gets an empty body, holds exactly `SliceSize` calls and was answered, and fewer than `SliceSize` calls are left pending. A queue shorter than 50 is therefore sent whole inside `each`, and its requeued calls are visited and sent again. Through the drain invariant, no slice carries a call before that call was queued, so a slice never holds calls that its own reply requeues. |
| Execute.DrainFinishedPartial | lib/koala/api/graph_batch_api.rb:54 | After a trailing slice shorter than `SliceSize` is answered, the sent calls cover the whole initial queue. The only queued calls not sent are those the trailing slice requeued. |
| Execute.DrainFinishedFull | lib/koala/api/graph_batch_api.rb:54 | When the drain ends on a slice of exactly `SliceSize` calls, every queued call has been sent. |
| Execute.SendTail | lib/koala/api/graph_batch_api.rb:54 | After `each` has finished, the pending calls, if any, are sent as one last slice shorter than `SliceSize`. If that slice gets an empty body, it was the whole rest of the queue, so every queued call has been sent. Otherwise every initial call has been sent, and the only queued calls not sent are those this last slice requeued. |
| Execute.NullSlotFlush | lib/koala/api/graph_batch_api.rb:108-116 | Sending a one-call slice whose reply is `[null]` requeues the call and raises its counter by one while the counter is below three. At three, the call gets the 404 `ClientError` instead and the queue is left as it was. |
| Execute.NullSlotOutcome | lib/koala/api/graph_batch_api.rb:108-116 | The one slot of a one-call exchange answered `[null]` requeues its call while the calls already requeued hold it fewer than twice. Otherwise it gives the 404 error passed through the call's block. |
| Execute.NullAnswers | lib/koala/api/graph_batch_api.rb:62-116 | When the transport answers the first three one-call requests for a call with `[null]`, each of the first three exchanges that sends that call does what `NullSlotOutcome` says. |
| Execute.NullRunLong | lib/koala/api/graph_batch_api.rb:54-112 | A successful `execute` on that call, sent one call at a time, cannot stop after one or two requests, because each of those requeued a copy that is still waiting. |
| Execute.NullRunShort | lib/koala/api/graph_batch_api.rb:54-112 | A causal log of one-call chunks whose first three exchanges requeued only two copies has no fourth exchange. |
| Execute.NullRun | lib/koala/api/graph_batch_api.rb:54-116 | The shape `Execute` guarantees, together with three `[null]` answers, leaves exactly three requests of the one call. The first two requeue it and the third collects the 404 error. The queue holds the call three times. |
| Execute.SingleNullCallSentThrice | lib/koala/api/graph_batch_api.rb:49-122 | Running `execute` on a queue of one call whose slot comes back `null` on the first three requests sends exactly three requests, each carrying that one call. It returns the 404 error passed through the call's block as its only result, and leaves the call in the queue three times. This follows from `Execute`'s contract alone. |
| Execute.Reported | lib/koala/api/graph_batch_api.rb:49-122 | After any finished drain, the queue has only grown. Its new tail is exactly the requeued calls in requeue order, with each call at most twice. The identity invariant is kept, the chunks sent are the front of the queue in order, and every exchange is answered. The log is `Causal`: the calls sent up to and including any exchange number at most the initial calls plus those requeued by the exchanges before it. |
| Execute.Execute | lib/koala/api/graph_batch_api.rb:49-122 | An empty queue gives `[]` with no request. Every request carries 1 to `SliceSize` calls, so at most 50, and every request but the last carries exactly `SliceSize`. The requests are consecutive slices of the queue, in order. No request carries a call before that call is queued: the calls sent up to and including any request number at most the initial calls plus those requeued by the requests before it. The queue only grows, each call being requeued at most twice. An empty body raises `BadFacebookResponse(200, "Facebook returned an empty body")` and returns no results. The slice that got it is either a full slice sent inside `each`, or a shorter trailing slice that held the whole rest of the queue. On success, the results are the slot values in slot and chunk order, and every original call has been sent. The only queued calls not sent are those requeued by a final slice shorter than `SliceSize`. |

## Left out

- The HTTP transport `graph_call_outside_batch` and the `alias_method` swap at lines 42-43: Ruby dispatch plumbing. The transport is an oracle. It gets the request's ordinal within one `execute`, the path, the verb, the parameter hash and the `http_options`. It answers with a reply, or `None` for an empty body. Exceptions raised by the transport itself are not modelled.
- Exceptions raised by the other collaborators are not modelled, because every oracle is a total function. The only raising path is therefore the empty composite body. In Ruby, `execute` also aborts in these cases:
  - `JSON.parse` of a malformed slot body at line 86, even when `:status` or `:headers` is asked for;
  - a post-processing block that raises, at line 104 or 114;
  - `to_batch_params` raising, at line 59;
  - a slot whose `headers` key holds `null`, which reaches `nil.inject` at line 77. The model reads a `null` there as a missing key.
- JSON encoding of the batch and decoding of slot bodies: the descriptors stay a sequence of abstract values, and body decoding is an oracle.
- `BatchOperation#to_batch_params` and `BatchOperation#files`: `lib/koala/api/batch_operation.rb` is not part of this model. Both are oracles; only the `args.merge!` over the chunk is modelled.
- `check_response`, `GraphCollection.evaluate` and the post-processing blocks: foreign code, modelled as oracles. The block is stored as a function on values.
- `Log.warn` at line 110: logging only.
- `symbolize_hash` key normalisation, `app_secret` signing and the pass-through of `http_options`: library internals. The per-call options are modelled after normalisation.
- Execute.Execute: requires that a reply has no more slots than the request has calls. In Ruby, an extra slot is paired with a missing call, `nil`. None of the following is modelled:
  - An extra slot that is present fails on `nil`, at line 89, or at line 103 when `check_response` reports an error.
  - An extra `null` slot passes the counter test at line 108, so `nil` is appended to the queue at line 112.
  - If that `nil` came from a slice sent inside `each`, it is sent later and fails at line 58.
  - If it came from a trailing short slice, `execute` returns normally and leaves `nil` in the queue.
- Default arguments: every argument is passed explicitly. Ruby's defaults behave like passing those values: `args = {}`, `verb = "get"` and `options = {}` at line 24, and `http_options = {}` at line 49.
- Enqueue.Downcase: lower-cases the ASCII capitals only, whereas Ruby's `String#downcase` also folds non-ASCII letters.
- Demux.RawResult: the slot's `code` is an integer and its `body` a string, so Ruby's `to_i` and `to_s` on missing or odd values are not modelled.
