# golog in Dafny

golog is a small Go service (`golog.go`) that takes log messages from clients
over HTTP and appends them to one log file. Request handlers validate each
request, format it as the line `client <id>: <msg>`, answer the client with
that line, and send it into a channel. One consumer goroutine owns the file.
It receives the lines one at a time and appends each behind the tag `golog: `
and a timestamp. The loop is written to end, and the file to be closed, when
the channel is closed. golog itself never closes it: `main` ends through
`log.Fatal`, which exits without running the deferred `file.Close()`. The model
treats the close as an event from outside the program.

This project models three pieces of that program and proves their properties:

- `endpoint.dfy`, module `Endpoint`: the request handler returned by
  `handleLog`. It is a pure decision from the parse outcome and the `id` and
  `msg` fields to a 400 response or an accepted line. The method `Handle`
  wires that decision to the funnel.
- `funnel.dfy`, module `Funnel`: the funnel built by `writeLog`. It is
  specified by pure transition functions over a `FunnelState`: the FIFO queue
  of pending lines, the records written to the file, whether the channel is
  closed, and whether the file is still open. `Next` and `Apply` run
  sequences of send, receive and close events. The class `LogFunnel` holds
  the same state in fields. Its methods `Submit`, `Step`, `Close` and `Drain`
  are proved to follow the transition functions.
- `startup.dfy`, module `Startup`: the transport switch in `main`. `"http"`
  selects HTTP. Any other mode is fatal, with the message
  `mode <%q of the mode> not supported`. Go's `%q` quoting is modelled for
  ASCII and proved to read back.

Details that the code fixes and that are easy to miss:

- `http.Error` writes its message with `Fprintln`. A rejected request's body
  is therefore the message followed by a newline, e.g. `"id missing\n"`, not
  bare `"id missing"` (`Endpoint.Body`).
- `Logger.Println` formats like `fmt.Sprintln`, so it always adds a newline
  after the line. A line that already ends in a newline gets a second one
  (`Funnel.Record`, `Funnel.RecordOfNewlineEndedLine`).
- Go panics on a send to a closed channel and on a second close. In Go, a
  sender still waiting on the unbuffered channel when it is closed also
  panics, so its line is never written. The model returns `ok == false` in the
  first two cases, and `AfterClose` drops the pending lines.

## Model

| member | source | states |
|---|---|---|
| `Endpoint.HandleLog` | golog.go:50-66 | The handler's decision: the parse first, then `id`, then `msg`, then the formatted line. Its properties are the lemmas below. |
| `Endpoint.FormatLine` | golog.go:65 | `Sprintf("client %s: %s", id, msg)`. Its shape is stated by `FormatLineFields`. |
| `Endpoint.Body` | golog.go:52-66 | The bytes sent to the client: an error message followed by the newline `http.Error` adds, or the accepted line (see `VerbFreeLine` for `%`). |
| `Endpoint.ParseFailureWins` | golog.go:50-53 | A failed form parse gives 400 with message `"failed to parse args: " + detail`, whatever `id` and `msg` hold. |
| `Endpoint.MissingIdRejected` | golog.go:57-60 | After a good parse, an empty `id` gives 400 `"id missing"`, whatever `msg` is. |
| `Endpoint.MissingMsgRejected` | golog.go:61-64 | With `id` present, an empty `msg` gives 400 `"msg missing"`. |
| `Endpoint.AcceptedIffWellFormed` | golog.go:50-66 | A request is accepted exactly when the parse succeeds and both fields are non-empty. The accepted line is `FormatLine(id, msg)` and the status is 200. |
| `Endpoint.FormatLineFields` | golog.go:65 | The line is `"client "`, then the id, then `": "`, then the message. Its length is `|id| + |msg| + 9`. |
| `Endpoint.FormatLineAmbiguous` | golog.go:65 | Two different `(id, msg)` pairs can give the same line, because an id may contain `": "`. |
| `Endpoint.VerbFreeLine` | golog.go:65-66 | If `id` and `msg` contain no `%`, the line contains none either. The response body is then exactly the line. |
| `Endpoint.Handle` | golog.go:48-68 | The response is `HandleLog`'s decision. A rejected request leaves the funnel state unchanged. An accepted one performs exactly one send of the line. |
| `Endpoint.AcceptedLineReachesLog` | golog.go:65-85 | An accepted line sent to an open funnel, with any number of lines already pending, is written after one consumer turn per line ahead of it plus one. The lines ahead are written first, in order, then exactly one record of this line, ending with the line and a newline. Earlier records are unchanged and nothing is left pending. |
| `Endpoint.ExampleRequests` | golog.go:57-65 | `alice`/`hello` is accepted as `client alice: hello`. An empty id is answered `"id missing\n"` and an empty msg `"msg missing\n"`. |
| `Funnel.Record` | golog.go:75-84 | The record `Logger.Println` writes for a line: `"golog: "`, the timestamp, the line, and a newline. |
| `Funnel.RecordIsRecordOf` | golog.go:75-84 | A record starts with `"golog: "`, holds the timestamp after it, and ends with the line followed by one newline. |
| `Funnel.RecordOfNewlineEndedLine` | golog.go:84 | A line that already ends in a newline still gets one more, so its record ends with two. |
| `Funnel.WellLoggedAppend` | golog.go:84 | Appending a record for line `m` keeps the file at one record per delivered line, in order. |
| `Funnel.AfterSend` | golog.go:67 | `ch <- m`: the line queues behind the pending ones on an open channel. On a closed channel, Go panics and nothing changes. |
| `Funnel.AfterReceive` | golog.go:79-84 | One consumer turn: nothing once the loop has ended; on a closed channel, the loop ends and the file is closed; with nothing pending, it blocks; otherwise the oldest pending line is appended as a record. |
| `Funnel.AfterClose` | golog.go:79-82 | `close(ch)`, which comes from outside golog: the waiting senders' lines are dropped. A second close panics and changes nothing. |
| `Funnel.NextPreservesInv` | golog.go:76-85 | Every send, receive and close preserves the invariant. Pending lines are gone once the channel is closed. The file is closed only after the channel. There is one record per delivered line. |
| `Funnel.ApplyConcat` | golog.go:78-85 | Running two event sequences one after the other is the same as running their concatenation. |
| `Funnel.FileOnlyGrows` | golog.go:75-84 | The file is append-only. Its earlier contents stay a prefix through any later events. |
| `Funnel.ClosedIsFinal` | golog.go:77-82 | After the close, no record is written and no line is delivered. The first consumer turn after the close ends the loop and closes the file, and it stays closed. |
| `Funnel.RunIsFifo` | golog.go:74-85 | From the start, over any events: the invariant holds, and the channel is closed exactly when a close happened. While it is open, delivered lines followed by pending lines are exactly the offered lines, in order, so no line is lost or written twice. After the close, the delivered lines are a prefix of the offered ones. That pending lines do get written is `ReceivesDeliverPending`. |
| `Funnel.ReceivesDeliverPending` | golog.go:78-85 | While the channel stays open, `n` consumer turns write the first `n` pending lines, in order, one record each at its turn's timestamp. The rest stay pending. |
| `Funnel.LogFunnel.Start` | golog.go:73-76 | `writeLog` starts with an open channel, an open file, nothing pending and nothing written. |
| `Funnel.LogFunnel.Submit` | golog.go:67 | A send on an open channel queues the line at the back and writes nothing. A send on a closed channel is refused (`ok == false`) and changes nothing. |
| `Funnel.LogFunnel.Step` | golog.go:79-84 | One consumer turn. It writes exactly when the file is open, the channel is open and a line is pending. It then removes the oldest pending line and appends exactly one record of it. Otherwise the file is unchanged. The result is `Stopped` exactly when the loop has ended and the file is closed. |
| `Funnel.LogFunnel.Close` | golog.go:77-82 | `close(ch)`, an event from outside golog, marks the channel closed, drops the waiting lines and writes nothing. A second close is refused. |
| `Funnel.LogFunnel.Drain` | golog.go:78-85 | The consumer loop runs, one turn per timestamp, until it would block, it ends, or the timestamps run out. The new state is `Apply` of those receive turns. |
| `Startup.SelectMode` | golog.go:24-30 | The mode switch: `"http"` serves with HTTP, and anything else is `log.Fatal` of `mode %q not supported`. Its properties are `SelectModeSpec`. |
| `Startup.EscapeChar` | golog.go:29 | How `%q` writes one ASCII character: `\"` and `\\` backslashed, printable kept, seven short escapes, other control characters as `\xHH`. |
| `Startup.Quote` | golog.go:29 | `%q` on a string: the escaped characters between double quotes. Its inverse is stated by `UnquoteQuote`. |
| `Startup.SelectModeSpec` | golog.go:24-30 | `"http"` is served, and served by `Http`. Every other mode is fatal with `"mode " + Quote(mode) + " not supported"`, and the mode reads back from the message. |
| `Startup.UnescapeEscapeChar` | golog.go:29 | The escape of one character reads back as that character, followed by what the rest reads back as. |
| `Startup.UnescapeEscape` | golog.go:29 | Unescaping undoes `%q`'s escaping, for every string. |
| `Startup.UnquoteQuote` | golog.go:29 | The quoted mode reads back as the mode. |
| `Startup.QuotePlain` | golog.go:29 | A mode of printable ASCII with no `"` or `\` is quoted by wrapping it in double quotes. |
| `Startup.ZmqRefused` | golog.go:28-29 | Mode `zmq` is refused with `mode "zmq" not supported`. |

## Left out

- Flag parsing (`logfile`, `mode`), `http.HandleFunc` and `ListenAndServe` on port 8080: library and network plumbing. The mode is an input of `SelectMode`.
- `log.Fatal`'s own output: it prints the message behind a timestamp and exits with status 1. The model stops at the `Fatal(message)` decision.
- `getOrMakeFile` (opening the log file in append mode, or creating it): a thin wrapper over the file system. The funnel starts from a file that is already open. The file's earlier contents are not modelled, because the records of this run are appended after them.
- `r.ParseForm`, URL decoding and `FormValue`: library code. The parse outcome and the first value of each field are inputs, with an empty string for an absent field.
- Endpoint.VerbFreeLine: `fmt.Fprintf(w, m)` uses the line as a format string. When `id` or `msg` contains `%`, Go expands verbs and the body can differ from the line. The model takes the body to be the line, and proves it only for `%`-free fields.
- Concurrency: the goroutines, the blocking of the unbuffered channel, and races between producers. Sends, receives and closes are atomic steps, in one order.
- Timestamps from `log.LstdFlags`: wall-clock time. Each is an opaque string passed to `Step` or `Drain`.
- The echo to standard output (`log.Println`, golog.go:83): it prints the same line with no contract of its own.
- Write errors from `lgr.Println` and from `file.Close`: Go ignores them, so every record is taken as written.
- The response headers set by `http.Error` (content type, nosniff).
- The panic of a handler whose send hits a closed channel: it surfaces as `sent == false`. What `net/http` then does with the connection is not modelled.
- Startup.Quote: characters outside ASCII are kept as they are. `strconv.Quote` escapes non-printable Unicode characters as `\u`/`\U`, and invalid UTF-8 bytes as `\x`. Neither `unicode.IsPrint` nor UTF-8 decoding is modelled.
- Funnel.Drain: the real loop runs until the channel is closed. The model runs it for as many turns as timestamps are supplied, and stops when the loop would block.
- Funnel.Record: a record is one text line only when the line holds no newline. A `msg` with newlines spreads one record over several lines of the file. The model keeps each record as one string.
