/**
 The log funnel started by `writeLog` (golog.go:73-89): a conduit that many
 request handlers send formatted lines into, and one consumer loop that takes
 them out in order and appends each, behind the tag "golog: " and a timestamp,
 to the log file; when the conduit is closed the loop ends and the file is
 closed. golog itself never closes the conduit (`main` ends through
 `log.Fatal`, which exits without running the deferred `file.Close()`), so the
 close is an event from outside the program, modelled because the consumer
 loop is written to handle it.

 The concurrency is abstracted away: the conduit is the FIFO queue of lines
 whose senders are waiting, the file is the sequence of records appended to it,
 and every send, receive and close is one atomic step. The pure transition
 functions below are the specification; the class `LogFunnel` is the
 stateful object, whose methods are proved to follow them.
 */
module Funnel {

  /** The prefix given to the file logger (golog.go:75). */
  const Tag: string := "golog: "

  /** The text the file logger appends for line `m` (golog.go:84), with `ts`
      the timestamp header that `log.LstdFlags` asks for (an opaque input
      here). `Logger.Println` formats its argument as `fmt.Sprintln` does, so a
      newline always follows the line, even one that already ends in a
      newline. */
  function Record(ts: string, m: string): string {
    Tag + ts + m + "\n"
  }

  /** `r` is a record written for line `m`: it starts with the tag and ends
      with `m` and one more newline, whatever timestamp lies between. */
  predicate IsRecordOf(r: string, m: string) {
    |Tag| + |m| + 1 <= |r| && r[..|Tag|] == Tag && r[|r| - |m| - 1..] == m + "\n"
  }

  /** A line that already ends in a newline is followed by a second one, so
      its record ends in an empty text line. */
  lemma RecordOfNewlineEndedLine(ts: string, m: string)
    requires |m| > 0 && m[|m| - 1] == '\n'
    ensures var r := Record(ts, m); r[|r| - 2..] == "\n\n"
  {
  }

  lemma RecordIsRecordOf(ts: string, m: string)
    ensures IsRecordOf(Record(ts, m), m)
    ensures |Record(ts, m)| == |Tag| + |ts| + |m| + 1
    ensures Record(ts, m)[|Tag|..|Tag| + |ts|] == ts
  {
  }

  /** The file holds exactly one record per delivered line, in the same order. */
  predicate WellLogged(file: seq<string>, lines: seq<string>) {
    |file| == |lines| && forall k :: 0 <= k < |file| ==> IsRecordOf(file[k], lines[k])
  }

  lemma {:induction false} WellLoggedAppend(file: seq<string>, lines: seq<string>, ts: string, m: string)
    requires WellLogged(file, lines)
    ensures WellLogged(file + [Record(ts, m)], lines + [m])
  {
    RecordIsRecordOf(ts, m);
    var file', lines' := file + [Record(ts, m)], lines + [m];
    forall k | 0 <= k < |file'|
      ensures IsRecordOf(file'[k], lines'[k])
    {
      if k < |file| {
        assert file'[k] == file[k] && lines'[k] == lines[k];
      }
    }
  }

  /** The state of the funnel.
      - `pending`: lines whose senders wait on the conduit, oldest first;
      - `file`: the records appended to the log file, oldest first;
      - `closed`: the conduit has been closed;
      - `fileOpen`: the consumer loop still runs and holds the file open;
      - `delivered`: the history of lines the consumer has received, in order
        (bookkeeping of the model, not a variable of the program). */
  datatype FunnelState = FunnelState(
    pending: seq<string>,
    file: seq<string>,
    closed: bool,
    fileOpen: bool,
    delivered: seq<string>)

  /** Right after `writeLog` returns: an open conduit, an idle consumer, and
      nothing appended by this run yet. */
  function Init(): FunnelState {
    FunnelState([], [], false, true, [])
  }

  /** What holds in every reachable state: pending senders have been dropped
      once the conduit is closed, the file is closed only after the conduit,
      and the file holds one record per delivered line. */
  predicate Inv(s: FunnelState) {
    && (s.closed ==> s.pending == [])
    && (!s.fileOpen ==> s.closed)
    && WellLogged(s.file, s.delivered)
  }

  datatype Event =
    | Send(line: string)     // a handler executes `ch <- m` (golog.go:67)
    | Receive(stamp: string) // one turn of the consumer loop, at time `stamp` (golog.go:79-84)
    | CloseConduit           // `close(ch)`, by a caller outside golog

  /** A send on an open conduit queues the line behind the earlier ones; a send
      on a closed conduit panics in the sender and changes nothing. */
  function AfterSend(s: FunnelState, line: string): FunnelState {
    if s.closed then s else s.(pending := s.pending + [line])
  }

  /** One turn of the consumer loop. A loop that has ended does nothing; on a
      closed conduit the receive reports `!ok`, the loop breaks and the
      deferred `file.Close()` runs; with nothing pending the receive blocks;
      otherwise the oldest pending line is taken and appended as a record. */
  function AfterReceive(s: FunnelState, ts: string): FunnelState {
    if !s.fileOpen then s
    else if s.closed then s.(fileOpen := false)
    else if s.pending == [] then s
    else s.(pending := s.pending[1..],
            file := s.file + [Record(ts, s.pending[0])],
            delivered := s.delivered + [s.pending[0]])
  }

  /** Closing the conduit makes every waiting sender panic, so their lines are
      never delivered; closing it twice panics and changes nothing. */
  function AfterClose(s: FunnelState): FunnelState {
    if s.closed then s else s.(closed := true, pending := [])
  }

  function Next(s: FunnelState, e: Event): FunnelState {
    match e
    case Send(line) => AfterSend(s, line)
    case Receive(ts) => AfterReceive(s, ts)
    case CloseConduit => AfterClose(s)
  }

  /** The state after the events `evs`, in order, starting from `s`. */
  function Apply(s: FunnelState, evs: seq<Event>): FunnelState
    decreases |evs|
  {
    if evs == [] then s else Next(Apply(s, evs[..|evs| - 1]), evs[|evs| - 1])
  }

  /** The lines the conduit accepts from the sends in `evs`: those sent before
      the first close, in the order they were sent. */
  function Offered(evs: seq<Event>): seq<string>
    decreases |evs|
  {
    if evs == [] then []
    else
      var before, e := evs[..|evs| - 1], evs[|evs| - 1];
      if e.Send? && CloseConduit !in before then Offered(before) + [e.line] else Offered(before)
  }

  /** One consumer turn per timestamp. */
  function Receives(stamps: seq<string>): seq<Event> {
    seq(|stamps|, k requires 0 <= k < |stamps| => Receive(stamps[k]))
  }

  /** The records written for `lines`, the k-th at time `stamps[k]`. */
  function Records(stamps: seq<string>, lines: seq<string>): seq<string>
    requires |stamps| == |lines|
  {
    seq(|stamps|, k requires 0 <= k < |stamps| => Record(stamps[k], lines[k]))
  }

  lemma NextPreservesInv(s: FunnelState, e: Event)
    requires Inv(s)
    ensures Inv(Next(s, e))
  {
    if e.Receive? && s.fileOpen && !s.closed && s.pending != [] {
      WellLoggedAppend(s.file, s.delivered, e.stamp, s.pending[0]);
    }
  }

  lemma {:induction false} ApplyConcat(s: FunnelState, p: seq<Event>, q: seq<Event>)
    ensures Apply(s, p + q) == Apply(Apply(s, p), q)
    decreases |q|
  {
    if q == [] {
      assert p + q == p;
    } else {
      var q' := q[..|q| - 1];
      assert (p + q)[..|p + q| - 1] == p + q';
      assert (p + q)[|p + q| - 1] == q[|q| - 1];
      ApplyConcat(s, p, q');
    }
  }

  /** The file is append-only: whatever happens next, what was written stays
      written, as a prefix of the file. */
  lemma {:induction false} FileOnlyGrows(s: FunnelState, evs: seq<Event>)
    ensures s.file <= Apply(s, evs).file
    ensures s.delivered <= Apply(s, evs).delivered
    decreases |evs|
  {
    if evs != [] {
      FileOnlyGrows(s, evs[..|evs| - 1]);
    }
  }

  /** Once the conduit is closed nothing more is written or delivered, and the
      first turn of the consumer loop after that ends the loop and closes the
      file for good. */
  lemma {:induction false} ClosedIsFinal(s: FunnelState, evs: seq<Event>)
    requires s.closed
    ensures Apply(s, evs).closed
    ensures Apply(s, evs).file == s.file
    ensures Apply(s, evs).delivered == s.delivered
    ensures Apply(s, evs).pending == s.pending
    ensures (exists k :: 0 <= k < |evs| && evs[k].Receive?) ==> !Apply(s, evs).fileOpen
    ensures !s.fileOpen ==> !Apply(s, evs).fileOpen
    decreases |evs|
  {
    if evs != [] {
      var before := evs[..|evs| - 1];
      ClosedIsFinal(s, before);
      if exists k :: 0 <= k < |evs| && evs[k].Receive? {
        var k :| 0 <= k < |evs| && evs[k].Receive?;
        if k < |evs| - 1 {
          assert before[k].Receive?;
        }
      }
    }
  }

  /** The sequential contract of the funnel, over every run from the start:
      the invariant holds; the conduit is closed exactly when a close has
      happened; while it is open, the lines delivered so far followed by the
      lines still pending are exactly the lines offered, in the order offered
      (so each is written once, in FIFO order); after the close, the delivered
      lines are a prefix of those offered. */
  lemma {:induction false} RunIsFifo(evs: seq<Event>)
    ensures Inv(Apply(Init(), evs))
    ensures Apply(Init(), evs).closed <==> CloseConduit in evs
    ensures !Apply(Init(), evs).closed ==>
              Apply(Init(), evs).delivered + Apply(Init(), evs).pending == Offered(evs)
    ensures Apply(Init(), evs).delivered <= Offered(evs)
    decreases |evs|
  {
    if evs != [] {
      var before, e := evs[..|evs| - 1], evs[|evs| - 1];
      RunIsFifo(before);
      var s := Apply(Init(), before);
      NextPreservesInv(s, e);
      assert evs == before + [e];
      assert CloseConduit in evs <==> CloseConduit in before || e == CloseConduit;
      match e
      case Send(line) =>
        if !s.closed {
          assert s.delivered + (s.pending + [line]) == (s.delivered + s.pending) + [line];
        }
      case Receive(ts) =>
        if s.fileOpen && !s.closed && s.pending != [] {
          assert s.pending == [s.pending[0]] + s.pending[1..];
          assert (s.delivered + [s.pending[0]]) + s.pending[1..] == s.delivered + s.pending;
        }
      case CloseConduit =>
    }
  }

  /** Every pending line is written: while the conduit stays open, each turn
      of the consumer loop takes the oldest pending line and appends its
      record, so after `n` turns the first `n` pending lines have been written,
      in order, one record each, and the rest are still pending. */
  lemma {:induction false} ReceivesDeliverPending(s: FunnelState, stamps: seq<string>)
    requires Inv(s) && !s.closed && |stamps| <= |s.pending|
    ensures var t := Apply(s, Receives(stamps));
            && !t.closed && t.fileOpen
            && t.pending == s.pending[|stamps|..]
            && t.delivered == s.delivered + s.pending[..|stamps|]
            && t.file == s.file + Records(stamps, s.pending[..|stamps|])
    decreases |stamps|
  {
    var n := |stamps|;
    if n == 0 {
      assert Receives(stamps) == [];
      assert Records(stamps, s.pending[..0]) == [];
    } else {
      var evs := Receives(stamps);
      assert evs[..n - 1] == Receives(stamps[..n - 1]);
      ReceivesDeliverPending(s, stamps[..n - 1]);
      var u := Apply(s, Receives(stamps[..n - 1]));
      assert u.pending[0] == s.pending[n - 1];
      assert s.pending[..n] == s.pending[..n - 1] + [s.pending[n - 1]];
      assert Records(stamps, s.pending[..n])
          == Records(stamps[..n - 1], s.pending[..n - 1]) + [Record(stamps[n - 1], s.pending[n - 1])];
      assert s.pending[n..] == u.pending[1..];
    }
  }

  /** The funnel object: the conduit `ch` and the consumer goroutine with the
      file it owns (golog.go:73-89). */
  class LogFunnel {
    var pending: seq<string>
    var file: seq<string>
    var closed: bool
    var fileOpen: bool
    ghost var delivered: seq<string>

    ghost function State(): FunnelState
      reads this
    {
      FunnelState(pending, file, closed, fileOpen, delivered)
    }

    ghost predicate Valid()
      reads this
    {
      Inv(State())
    }

    /** `writeLog(file)`: make the conduit and start the consumer loop. */
    constructor Start()
      ensures Valid() && State() == Init()
    {
      pending, file, closed, fileOpen := [], [], false, true;
      delivered := [];
    }

    /** `ch <- line`. `ok` is false when the conduit is closed, where Go
        panics in the sender; the state is then unchanged. */
    method Submit(line: string) returns (ok: bool)
      requires Valid()
      modifies this
      ensures Valid() && State() == AfterSend(old(State()), line)
      ensures ok <==> !old(closed)
      ensures ok ==> pending == old(pending) + [line]
      ensures file == old(file)
    {
      ok := !closed;
      if ok {
        pending := pending + [line];
      }
    }

    /** One turn of the consumer loop, with `ts` the current timestamp. */
    method Step(ts: string) returns (r: StepResult)
      requires Valid()
      modifies this
      ensures Valid() && State() == AfterReceive(old(State()), ts)
      ensures r.Wrote? <==> old(fileOpen) && !old(closed) && old(pending) != []
      ensures r.Wrote? ==> pending == old(pending)[1..] && file == old(file) + [r.record]
                           && IsRecordOf(r.record, old(pending)[0])
      ensures !r.Wrote? ==> file == old(file)
      ensures r.Stopped? <==> !fileOpen
      ensures r.Blocked? ==> pending == [] && !closed
    {
      if !fileOpen {
        return Stopped;
      }
      if closed {
        fileOpen := false;
        return Stopped;
      }
      if pending == [] {
        return Blocked;
      }
      var m := pending[0];
      var record := Record(ts, m);
      RecordIsRecordOf(ts, m);
      WellLoggedAppend(file, delivered, ts, m);
      pending := pending[1..];
      file := file + [record];
      delivered := delivered + [m];
      r := Wrote(record);
    }

    /** `close(ch)`, which golog never calls itself. `ok` is false when the
        conduit was already closed, where Go panics; the state is then
        unchanged. */
    method Close() returns (ok: bool)
      requires Valid()
      modifies this
      ensures Valid() && State() == AfterClose(old(State()))
      ensures ok <==> !old(closed)
      ensures closed && pending == [] && file == old(file)
    {
      ok := !closed;
      if ok {
        closed := true;
        pending := [];
      }
    }

    /** The consumer loop `for { m, ok := <-ch; ... }` run with one timestamp
        per turn, until it would block, it ends, or the timestamps run out.
        `n` is the number of turns taken. */
    method Drain(stamps: seq<string>) returns (n: nat)
      requires Valid()
      modifies this
      ensures Valid() && n <= |stamps|
      ensures State() == Apply(old(State()), Receives(stamps[..n]))
      ensures n < |stamps| ==> !fileOpen || (pending == [] && !closed)
    {
      n := 0;
      while n < |stamps|
        invariant n <= |stamps| && Valid()
        invariant State() == Apply(old(State()), Receives(stamps[..n]))
      {
        var r := Step(stamps[n]);
        ghost var evs := Receives(stamps[..n + 1]);
        assert evs[..|evs| - 1] == Receives(stamps[..n]);
        assert evs[|evs| - 1] == Receive(stamps[n]);
        n := n + 1;
        if !r.Wrote? {
          return;
        }
      }
    }
  }

  datatype StepResult =
    | Wrote(record: string) // a line was received and this record appended
    | Blocked               // nothing pending: the receive waits
    | Stopped               // the loop has ended and the file is closed
}
