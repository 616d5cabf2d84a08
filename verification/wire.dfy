/** The shapes exchanged with the transport: the composite request for one
    chunk and the positional reply to it. */
module Wire {
  import opened Outcomes
  import opened Values

  /** One `{name, value}` element of a slot's `headers` array. */
  datatype Header = Header(name: string, value: string)

  /** A present slot of the composite reply: `code`, `body` (still encoded)
      and, when the key is there, the `headers` array. */
  datatype Slot = Slot(code: int, body: string, headers: Option<seq<Header>>)

  /** The composite reply: one entry per submitted call, `None` for `null`. */
  type Reply = seq<Option<Slot>>

  /** The one POST issued per chunk: path, verb, the per-call descriptors that
      make up the `batch` parameter, the merged file attachments, and the
      caller's `http_options`. */
  datatype BatchRequest = BatchRequest(
    path: string,
    verb: string,
    batch: seq<Value>,
    attachments: map<string, string>,
    httpOptions: map<string, string>)

  /** A top-level request parameter: an uploaded file or the encoded batch. */
  datatype Param = Attachment(file: string) | BatchJson(descriptors: seq<Value>)
}
