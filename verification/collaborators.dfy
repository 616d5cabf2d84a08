/** The code the batch engine calls but does not own, as oracle inputs. */
module Collaborators {
  import opened Outcomes
  import opened Values
  import opened Wire
  import opened Operations

  /** - `transport(n, path, verb, args, httpOptions)`: the reply to the `n`-th
        composite POST of one `execute`
        (`graph_call_outside_batch('/', args, 'post', http_options)`), given
        the top-level parameter hash; `None` when the body is empty;
      - `checkResponse(code, body, headers)`: the error classifier shared with
        non-batched calls;
      - `parseBody(body)`: JSON decoding of a slot body;
      - `evaluate(value, api)`: `GraphCollection.evaluate`, bound to the
        identity of the original API;
      - `toBatchParams(op, token, secret)`: `BatchOperation#to_batch_params`;
      - `files(op)`: `BatchOperation#files`. */
  datatype Env = Env(
    transport: (nat, string, string, map<string, Param>, map<string, string>) -> Option<Reply>,
    checkResponse: (int, string, map<string, string>) -> Option<ApiError>,
    parseBody: string -> Value,
    evaluate: (Value, nat) -> Value,
    toBatchParams: (BatchOperation, Option<string>, Option<string>) -> Value,
    files: BatchOperation -> Option<map<string, string>>)

  /** The service answers each composite request with at most one slot per
      call listed in its `batch` parameter. */
  ghost predicate Aligned(env: Env) {
    forall n: nat, path: string, verb: string, args: map<string, Param>, options: map<string, string> ::
      env.transport(n, path, verb, args, options).Some? && "batch" in args && args["batch"].BatchJson? ==>
        |env.transport(n, path, verb, args, options).value| <= |args["batch"].descriptors|
  }
}
