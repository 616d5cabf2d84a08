/** The queued call record (`BatchOperation`) and the batch session
    (`GraphBatchAPI`) that owns the queue. */
module Operations {
  import opened Outcomes
  import opened Values

  /** Most calls the service accepts in one composite request. */
  const MAX_CALLS: nat := 50

  /** Value of the `:http_component` option. */
  datatype Component = StatusComponent | HeadersComponent | OtherComponent(name: string)

  /** The per-call options after key normalisation: the token override, the
      component selector, and whatever else is passed through untouched. */
  datatype CallOptions = CallOptions(
    accessToken: Option<string>,
    httpComponent: Option<Component>,
    passThrough: map<string, string>)

  /** One queued call. `id` stands for the Ruby object's identity, which is
      what the retry counter is keyed by; a requeued call is the same object,
      so it keeps its id. The post-processing block is stored, never run here. */
  datatype BatchOperation = BatchOperation(
    id: nat,
    url: string,
    args: map<string, Value>,
    verb: string,
    accessToken: Option<string>,
    httpOptions: CallOptions,
    postProcessing: Option<Value -> Value>)

  /** The batch session: the credentials copied from the wrapped API, the
      identity of that original API (used when wrapping paged results), the
      queue, and the next unused object identity. The queue is created empty
      and never cleared. */
  datatype GraphBatchApi = GraphBatchApi(
    accessToken: Option<string>,
    appSecret: Option<string>,
    originalApi: nat,
    batchCalls: seq<BatchOperation>,
    nextId: nat)

  /** Object identity is consistent: equal ids mean the same record, and every
      id in the queue was handed out before `nextId`. */
  ghost predicate Valid(api: GraphBatchApi) {
    && (forall i, j ::
          0 <= i < |api.batchCalls| && 0 <= j < |api.batchCalls| && api.batchCalls[i].id == api.batchCalls[j].id
          ==> api.batchCalls[i] == api.batchCalls[j])
    && (forall i :: 0 <= i < |api.batchCalls| ==> api.batchCalls[i].id < api.nextId)
  }

  /** `GraphBatchAPI.new(api)`: takes the token and secret of the wrapped API
      and starts with an empty queue. */
  function NewBatchApi(accessToken: Option<string>, appSecret: Option<string>, originalApi: nat): (r: GraphBatchApi)
    ensures r.batchCalls == []
    ensures r.accessToken == accessToken && r.appSecret == appSecret && r.originalApi == originalApi
    ensures Valid(r)
  {
    GraphBatchApi(accessToken, appSecret, originalApi, [], 0)
  }

  /** How many entries of `ops` are the object with identity `id`. */
  function CountId(ops: seq<BatchOperation>, id: nat): (count: nat)
    decreases |ops|
  {
    if |ops| == 0 then 0
    else (if ops[0].id == id then 1 else 0) + CountId(ops[1..], id)
  }

  lemma {:induction false} CountIdAppend(a: seq<BatchOperation>, b: seq<BatchOperation>, id: nat)
    ensures CountId(a + b, id) == CountId(a, id) + CountId(b, id)
    decreases |a|
  {
    if |a| == 0 {
      assert a + b == b;
    } else {
      assert (a + b)[1..] == a[1..] + b;
      CountIdAppend(a[1..], b, id);
    }
  }
}
