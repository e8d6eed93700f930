/** What a relay writes to the client, and how a relay can end. */
module Client {
  import opened Json

  /** The data of one event: JSON, or text that is not. */
  datatype Payload = Tree(json: Json) | NotJson(text: string)

  datatype Emit =
    | HttpError(status: int, message: string)
    | PassedOn(status: int)   // an upstream error response, as it came
    | Header(contentType: string)
    | Line(text: string)
    | Chunk(payload: Payload)
    | DoneLine
    | ErrorEvent(message: string)
    | Text(text: string)
    | JsonBody(json: Json)

  datatype Outcome = Relayed | DecryptionFailed | RelayFailed

  class ResponseWriter {
    const canFlush: bool
    var out: seq<Emit>

    constructor (canFlush: bool)
      ensures this.canFlush == canFlush && out == []
    {
      this.canFlush := canFlush;
      out := [];
    }

    method Write(e: Emit)
      modifies this
      ensures out == old(out) + [e]
    {
      out := out + [e];
    }
  }

  /** Writing `rest` after `written` completes `whole`. */
  ghost predicate Completing(written: seq<Emit>, rest: (seq<Emit>, Outcome), whole: (seq<Emit>, Outcome)) {
    written + rest.0 == whole.0 && rest.1 == whole.1
  }

  lemma WroteSome(written: seq<Emit>, out: seq<Emit>, rest: (seq<Emit>, Outcome), whole: (seq<Emit>, Outcome))
    requires Completing(written, (out + rest.0, rest.1), whole)
    ensures Completing(written + out, rest, whole)
  {
    assert written + (out + rest.0) == written + out + rest.0;
  }
}
