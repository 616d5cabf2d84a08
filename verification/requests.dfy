/** Building the one composite POST sent for a chunk of queued calls. */
module Requests {
  import opened Outcomes
  import opened Values
  import opened Wire
  import opened Operations
  import opened Collaborators

  /** `op` declares an upload under parameter name `key`. */
  predicate DeclaresFile(env: Env, op: BatchOperation, key: string) {
    env.files(op).Some? && key in env.files(op).value
  }

  /** `args.merge!(batch_op.files)` over the chunk, in chunk order. */
  function MergeFiles(env: Env, chunk: seq<BatchOperation>): (m: map<string, string>)
    decreases |chunk|
  {
    if |chunk| == 0 then map[]
    else
      match env.files(chunk[|chunk| - 1])
      case None => MergeFiles(env, chunk[..|chunk| - 1])
      case Some(f) => MergeFiles(env, chunk[..|chunk| - 1]) + f
  }

  /** The position of the last call of the chunk that declares `key`, if any. */
  function LastDeclaring(env: Env, chunk: seq<BatchOperation>, key: string): (k: Option<nat>)
    ensures k.None? ==> forall j :: 0 <= j < |chunk| ==> !DeclaresFile(env, chunk[j], key)
    ensures k.Some? ==> k.value < |chunk| && DeclaresFile(env, chunk[k.value], key)
    ensures k.Some? ==> forall later :: k.value < later < |chunk| ==> !DeclaresFile(env, chunk[later], key)
    decreases |chunk|
  {
    if |chunk| == 0 then None
    else if DeclaresFile(env, chunk[|chunk| - 1], key) then Some(|chunk| - 1)
    else
      var k := LastDeclaring(env, chunk[..|chunk| - 1], key);
      assert forall j :: 0 <= j < |chunk| - 1 ==> chunk[..|chunk| - 1][j] == chunk[j];
      k
  }

  /** The merged uploads hold `key` exactly when some call of the chunk
      declares it, and then hold the file of the last call that does. */
  lemma {:induction false} MergeFilesLastWins(env: Env, chunk: seq<BatchOperation>, key: string)
    ensures key in MergeFiles(env, chunk) <==> LastDeclaring(env, chunk, key).Some?
    ensures key in MergeFiles(env, chunk) ==>
      MergeFiles(env, chunk)[key] == env.files(chunk[LastDeclaring(env, chunk, key).value]).value[key]
    decreases |chunk|
  {
    if |chunk| > 0 {
      var n := |chunk| - 1;
      var front := chunk[..n];
      MergeFilesLastWins(env, front, key);
      if !DeclaresFile(env, chunk[n], key) {
        var k := LastDeclaring(env, front, key);
        if k.Some? {
          assert front[k.value] == chunk[k.value];
        }
      }
    }
  }

  /** The composite request for one chunk: a POST to the service root whose
      `batch` parameter holds one descriptor per queued call, in chunk order,
      each signed with the batch session's token and secret. */
  function BuildRequest(env: Env, api: GraphBatchApi, chunk: seq<BatchOperation>, httpOptions: map<string, string>): (r: BatchRequest)
    ensures r.path == "/" && r.verb == "post"
    ensures |r.batch| == |chunk|
    ensures forall j :: 0 <= j < |chunk| ==> r.batch[j] == env.toBatchParams(chunk[j], api.accessToken, api.appSecret)
    ensures r.attachments == MergeFiles(env, chunk)
    ensures r.httpOptions == httpOptions
  {
    var descriptors := seq(|chunk|, j requires 0 <= j < |chunk| => env.toBatchParams(chunk[j], api.accessToken, api.appSecret));
    BatchRequest("/", "post", descriptors, MergeFiles(env, chunk), httpOptions)
  }

  /** The top-level parameter hash handed to the transport. The uploads are
      merged first and `batch` is assigned afterwards, so `batch` always holds
      the descriptors, even if an upload was declared under that name. */
  function Args(request: BatchRequest): (args: map<string, Param>)
    ensures args.Keys == request.attachments.Keys + {"batch"}
    ensures args["batch"] == BatchJson(request.batch)
    ensures forall key :: key in request.attachments && key != "batch" ==>
      args[key] == Attachment(request.attachments[key])
  {
    var uploads := map key | key in request.attachments :: Attachment(request.attachments[key]);
    uploads["batch" := BatchJson(request.batch)]
  }

  /** `graph_call_outside_batch('/', args, 'post', http_options)`: the
      `n`-th composite POST, sent as its top-level parameter hash. A reply
      from an aligned service has no more slots than the request has calls. */
  function Post(env: Env, n: nat, request: BatchRequest): (reply: Option<Reply>)
    ensures Aligned(env) && reply.Some? ==> |reply.value| <= |request.batch|
  {
    env.transport(n, request.path, request.verb, Args(request), request.httpOptions)
  }
}
