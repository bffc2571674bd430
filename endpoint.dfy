/**
 The request handler built by `handleLog` (golog.go:48-69): it parses the
 form, takes the `id` and `msg` fields, rejects a request that cannot be parsed
 or lacks a field with status 400 (Bad Request, section 15.5.1 of RFC 9110),
 and otherwise answers with the line "client <id>: <msg>" and sends that same
 line into the funnel.

 Form parsing and `FormValue` are library code: their outcome is an input
 (`ParseOutcome`, and `id`, `msg` as the first value of each field, empty when
 the field is absent).
 */
module Endpoint {
  import Funnel

  /** The outcome of `r.ParseForm()`, with the text of its error. */
  datatype ParseOutcome = Parsed | ParseFailed(detail: string)

  /** What the handler decides: a 400 with the given error text, or acceptance
      of the formatted line. */
  datatype Response = BadRequest(message: string) | Accepted(line: string)

  const StatusOK: int := 200
  const StatusBadRequest: int := 400

  function Status(r: Response): int {
    if r.BadRequest? then StatusBadRequest else StatusOK
  }

  /** The bytes written to the client. `http.Error` writes its message with
      `Fprintln`, so a trailing newline follows it. An accepted request gets
      the line written by `Fprintf(w, m)`, which is the line itself when it
      holds no `%` (see `VerbFreeLine`). */
  function Body(r: Response): string {
    match r
    case BadRequest(message) => message + "\n"
    case Accepted(line) => line
  }

  /** `fmt.Sprintf("client %s: %s", id, msg)` (golog.go:65). */
  function FormatLine(id: string, msg: string): string {
    "client " + id + ": " + msg
  }

  /** The decision of `handleLog` (golog.go:50-66): the parse is checked first,
      then `id`, then `msg`. */
  function HandleLog(parse: ParseOutcome, id: string, msg: string): Response {
    if parse.ParseFailed? then BadRequest("failed to parse args: " + parse.detail)
    else if id == "" then BadRequest("id missing")
    else if msg == "" then BadRequest("msg missing")
    else Accepted(FormatLine(id, msg))
  }

  /** A parse failure is reported whatever the fields hold. */
  lemma ParseFailureWins(detail: string, id: string, msg: string)
    ensures HandleLog(ParseFailed(detail), id, msg) == BadRequest("failed to parse args: " + detail)
    ensures Status(HandleLog(ParseFailed(detail), id, msg)) == StatusBadRequest
  {
  }

  /** A missing `id` is reported whatever `msg` holds. */
  lemma MissingIdRejected(msg: string)
    ensures HandleLog(Parsed, "", msg) == BadRequest("id missing")
  {
  }

  /** A missing `msg` is reported once `id` is present. */
  lemma MissingMsgRejected(id: string)
    requires id != ""
    ensures HandleLog(Parsed, id, "") == BadRequest("msg missing")
  {
  }

  /** A request is accepted exactly when the form parses and both fields are
      present, and then with status 200 and the formatted line. */
  lemma AcceptedIffWellFormed(parse: ParseOutcome, id: string, msg: string)
    ensures HandleLog(parse, id, msg).Accepted? <==> parse == Parsed && id != "" && msg != ""
    ensures HandleLog(parse, id, msg).Accepted? ==>
              HandleLog(parse, id, msg).line == FormatLine(id, msg)
              && Status(HandleLog(parse, id, msg)) == StatusOK
  {
  }

  /** The formatted line reads back field by field: the fixed "client ", the
      id, the separator ": ", then the message. */
  lemma FormatLineFields(id: string, msg: string)
    ensures |FormatLine(id, msg)| == |id| + |msg| + 9
    ensures FormatLine(id, msg)[..7] == "client "
    ensures FormatLine(id, msg)[7..7 + |id|] == id
    ensures FormatLine(id, msg)[7 + |id|..9 + |id|] == ": "
    ensures FormatLine(id, msg)[9 + |id|..] == msg
  {
  }

  /** The line does not determine the client: an id may itself contain ": ",
      so two different requests can produce the same line. */
  lemma FormatLineAmbiguous()
    ensures FormatLine("a: b", "c") == FormatLine("a", "b: c")
  {
  }

  /** A line built from fields free of `%` holds no `%`, so `Fprintf(w, m)`
      writes it verbatim and the response body is the submitted line. */
  lemma VerbFreeLine(id: string, msg: string)
    requires '%' !in id && '%' !in msg
    ensures '%' !in FormatLine(id, msg)
    ensures Body(HandleLog(Parsed, id, msg)) == FormatLine(id, msg) || id == "" || msg == ""
  {
    var line := FormatLine(id, msg);
    forall k | 0 <= k < |line|
      ensures line[k] != '%'
    {
      FormatLineFields(id, msg);
      if k < 7 {
        assert line[k] == line[..7][k];
      } else if k < 7 + |id| {
        assert line[k] == id[k - 7];
      } else if k < 9 + |id| {
        assert line[k] == line[7 + |id|..9 + |id|][k - 7 - |id|];
      } else {
        assert line[k] == msg[k - 9 - |id|];
      }
    }
  }

  /** The handler as a whole: decide, write the response, and on acceptance
      send the line into the funnel (`ch <- m`, golog.go:67). A rejected
      request leaves the funnel untouched. `sent` is false when the line could
      not be sent because the conduit is closed (Go panics in the handler). */
  method Handle(f: Funnel.LogFunnel, parse: ParseOutcome, id: string, msg: string)
    returns (resp: Response, sent: bool)
    requires f.Valid()
    modifies f
    ensures f.Valid()
    ensures resp == HandleLog(parse, id, msg)
    ensures resp.BadRequest? ==> !sent && f.State() == old(f.State())
    ensures resp.Accepted? ==>
              sent == !old(f.closed) && f.State() == Funnel.AfterSend(old(f.State()), resp.line)
  {
    resp := HandleLog(parse, id, msg);
    sent := false;
    if resp.Accepted? {
      sent := f.Submit(resp.line);
    }
  }

  /** From request to file: the line of an accepted request, sent while the
      conduit is open and other lines may already wait, is written once the
      consumer loop has taken one turn for each line ahead of it and one for
      it. The lines ahead are written first, in order, then the record of this
      line, which ends with "client <id>: <msg>" and a newline. */
  lemma AcceptedLineReachesLog(s: Funnel.FunnelState, id: string, msg: string, stamps: seq<string>)
    requires Funnel.Inv(s) && !s.closed
    requires id != "" && msg != ""
    requires |stamps| == |s.pending| + 1
    ensures HandleLog(Parsed, id, msg) == Accepted(FormatLine(id, msg))
    ensures var line := FormatLine(id, msg);
            var t := Funnel.Apply(s, [Funnel.Send(line)] + Funnel.Receives(stamps));
            && t.pending == []
            && t.delivered == s.delivered + s.pending + [line]
            && t.file == s.file + Funnel.Records(stamps, s.pending + [line])
            && Funnel.IsRecordOf(t.file[|t.file| - 1], line)
  {
    var line := FormatLine(id, msg);
    var send := [Funnel.Send(line)];
    Funnel.ApplyConcat(s, send, Funnel.Receives(stamps));
    assert send[..0] == [];
    var u := Funnel.Apply(s, send);
    assert u == Funnel.AfterSend(s, line);
    Funnel.NextPreservesInv(s, Funnel.Send(line));
    Funnel.ReceivesDeliverPending(u, stamps);
    assert u.pending[..|stamps|] == s.pending + [line];
    var t := Funnel.Apply(u, Funnel.Receives(stamps));
    var recs := Funnel.Records(stamps, s.pending + [line]);
    assert t.file[|t.file| - 1] == recs[|recs| - 1] == Funnel.Record(stamps[|stamps| - 1], line);
    Funnel.RecordIsRecordOf(stamps[|stamps| - 1], line);
  }

  /** Three requests: `id=alice&msg=hello` is accepted with the line
      "client alice: hello"; an empty `id` is answered "id missing" and an
      empty `msg` "msg missing", each followed by the newline `http.Error`
      adds. */
  lemma ExampleRequests()
    ensures HandleLog(Parsed, "alice", "hello") == Accepted("client alice: hello")
    ensures Body(HandleLog(Parsed, "", "hi")) == "id missing\n"
    ensures Body(HandleLog(Parsed, "alice", "")) == "msg missing\n"
  {
    assert FormatLine("alice", "hello") == "client alice: hello";
  }
}
