/** `graph_call_in_batch`: inside a batch block every Graph call is captured
    as a queued `BatchOperation` instead of being sent. */
module Enqueue {
  import opened Outcomes
  import opened Values
  import opened Operations

  predicate IsUpper(c: char) {
    'A' <= c <= 'Z'
  }

  /** No character of `s` is an upper-case ASCII letter. */
  predicate IsDowncased(s: string) {
    forall k :: 0 <= k < |s| ==> !IsUpper(s[k])
  }

  function DowncaseChar(c: char): (r: char)
    ensures !IsUpper(r)
    ensures IsUpper(c) ==> 'a' <= r <= 'z' && r as int - 'a' as int == c as int - 'A' as int
    ensures !IsUpper(c) ==> r == c
  {
    if IsUpper(c) then (c as int - 'A' as int + 'a' as int) as char else c
  }

  /** `String#downcase`, restricted to the ASCII letters. */
  function Downcase(s: string): (r: string)
    ensures |r| == |s|
    ensures forall k :: 0 <= k < |s| ==> r[k] == DowncaseChar(s[k])
    ensures IsDowncased(r)
    decreases |s|
  {
    if |s| == 0 then "" else [DowncaseChar(s[0])] + Downcase(s[1..])
  }

  /** Downcasing an already normalised verb leaves it alone. */
  lemma DowncaseIdempotent(s: string)
    ensures Downcase(Downcase(s)) == Downcase(s)
  {
  }

  /** The token of a queued call: the per-call override when one is given,
      otherwise the batch session's own. Resolved once, at enqueue time. */
  function ResolveToken(api: GraphBatchApi, options: CallOptions): (token: Option<string>)
    ensures options.accessToken.Some? ==> token == options.accessToken
    ensures options.accessToken.None? ==> token == api.accessToken
  {
    match options.accessToken
    case Some(_) => options.accessToken
    case None => api.accessToken
  }

  /** Queues one call and returns `nil` (`Nil`) along with the updated session.
      Exactly one record is appended; everything already queued, and every
      other part of the session, is left as it was. */
  function GraphCallInBatch(
    api: GraphBatchApi,
    path: string,
    args: map<string, Value>,
    verb: string,
    options: CallOptions,
    postProcessing: Option<Value -> Value>): (r: (GraphBatchApi, Value))
    ensures r.1 == Nil
    ensures |r.0.batchCalls| == |api.batchCalls| + 1
    ensures r.0.batchCalls[..|api.batchCalls|] == api.batchCalls
    ensures r.0.accessToken == api.accessToken && r.0.appSecret == api.appSecret
    ensures r.0.originalApi == api.originalApi
    ensures var op := r.0.batchCalls[|api.batchCalls|];
      && op.url == path && op.args == args && op.httpOptions == options
      && IsDowncased(op.verb) && |op.verb| == |verb|
      && (forall k :: 0 <= k < |verb| ==> op.verb[k] == DowncaseChar(verb[k]))
      && (options.accessToken.Some? ==> op.accessToken == options.accessToken)
      && (options.accessToken.None? ==> op.accessToken == api.accessToken)
      && op.postProcessing == postProcessing
    ensures Valid(api) ==> Valid(r.0)
    ensures Valid(api) ==> forall i :: 0 <= i < |api.batchCalls| ==>
      api.batchCalls[i].id != r.0.batchCalls[|api.batchCalls|].id
  {
    var op := BatchOperation(
      api.nextId, path, args, Downcase(verb), ResolveToken(api, options), options, postProcessing);
    (api.(batchCalls := api.batchCalls + [op], nextId := api.nextId + 1), Nil)
  }
}
