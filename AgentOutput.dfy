/** The raw stdout relay shared by both process-agent variants
    (internal/engine/terminal.go `streamRawOutput` and
    internal/engine/terminal_base.go `terminalTranslateStream`).

    A reader goroutine turns successive `Read` calls on the agent's stdout
    into messages on an unbuffered channel, and a coordinator `select`s
    between that channel and the context. With the goroutines sequentialised,
    the reader becomes a function of the reads it observed and the
    coordinator becomes a loop over the messages it received. The single
    scheduling choice Go leaves open, which `select` arm wins, is the
    parameter `doneAt`: the number of messages received before the context
    arm is taken. */
module AgentOutput {
  import opened Strings
  import opened Engine

  /** The error half of one `Read`: none, `io.EOF`, or any other error. */
  datatype ReadErr = NoErr | EOF | Failed(msg: string)

  /** One `stdout.Read(buf)`: the `n` bytes it returned and its error. */
  datatype ReadOutcome = ReadOutcome(data: string, err: ReadErr)

  /** What the coordinator can receive: a chunk, a read error, or the
      `!ok` of the closed channel. */
  datatype ReadMsg = Data(data: string) | ReadError(msg: string) | Closed

  /** How the process ends: reaped by `cmd.Wait`, stopped by the
      terminate-then-kill shutdown, or killed outright. */
  datatype ProcessExit = Reaped | GracefulShutdown | Killed

  /** What a relay sent on its response channel and how it ended the process. */
  datatype Relay = Relay(responses: seq<Response>, exit: ProcessExit)

  /** What differs between the two variants: the timeout message, the prefix
      of the read-error message, and how the process is stopped on timeout. */
  datatype Flavor = Flavor(timedOut: string, readErrPrefix: string, onCancel: ProcessExit)

  // ---------------------------------------------------------------------
  // The reader goroutine

  /** The messages the reader sends for the reads it made: the bytes of
      every read that returned some, then, at the first error, a read-error
      message unless it is EOF, and the close of the channel. If no read has
      failed yet the channel is still open. */
  function ReaderMessages(outs: seq<ReadOutcome>): (msgs: seq<ReadMsg>)
    ensures forall k :: 0 <= k < |msgs| && msgs[k].Data? ==> msgs[k].data != ""
  {
    if outs == [] then []
    else if outs[0].err == NoErr then Sent(outs[0]) + ReaderMessages(outs[1..])
    else Sent(outs[0]) + Stopped(outs[0].err)
  }

  /** The chunk sent for one read: its bytes, when it returned any. */
  function Sent(r: ReadOutcome): (msgs: seq<ReadMsg>)
    ensures forall k :: 0 <= k < |msgs| ==> msgs[k] == Data(r.data) && r.data != ""
    ensures r.data != "" ==> msgs == [Data(r.data)]
  {
    if r.data != "" then [Data(r.data)] else []
  }

  /** What the reader sends when a read fails, before it returns. */
  function Stopped(e: ReadErr): (msgs: seq<ReadMsg>)
    ensures forall k :: 0 <= k < |msgs| ==> !msgs[k].Data?
  {
    match e
    case NoErr => []
    case EOF => [Closed]
    case Failed(m) => [ReadError(m), Closed]
  }

  /** The reader loop: one message per non-empty read, in read order, and a
      stop at the first error. */
  method ReadPipe(outs: seq<ReadOutcome>) returns (msgs: seq<ReadMsg>)
    ensures msgs == ReaderMessages(outs)
  {
    msgs := [];
    var i := 0;
    while i < |outs|
      invariant 0 <= i <= |outs|
      invariant msgs + ReaderMessages(outs[i..]) == ReaderMessages(outs)
    {
      var r := outs[i];
      ReaderStep(outs, i);
      ghost var before := msgs;
      if r.data != "" {
        msgs := msgs + [Data(r.data)];
      }
      assert msgs == before + Sent(r);
      if r.err == EOF {
        msgs := msgs + [Closed];
        Regroup(before, Sent(r), Stopped(r.err));
        return;
      } else if r.err.Failed? {
        msgs := msgs + [ReadError(r.err.msg), Closed];
        Regroup(before, Sent(r), Stopped(r.err));
        return;
      }
      Regroup(before, Sent(r), ReaderMessages(outs[i + 1..]));
      i := i + 1;
    }
    assert outs[i..] == [];
  }

  /** One turn of the reader loop, from read `i` on. */
  lemma ReaderStep(outs: seq<ReadOutcome>, i: nat)
    requires i < |outs|
    ensures ReaderMessages(outs[i..])
            == Sent(outs[i]) + (if outs[i].err == NoErr then ReaderMessages(outs[i + 1..]) else Stopped(outs[i].err))
  {
    assert outs[i..][0] == outs[i] && outs[i..][1..] == outs[i + 1..];
  }

  lemma Regroup<T>(a: seq<T>, b: seq<T>, c: seq<T>)
    ensures a + b + c == a + (b + c)
  {
  }

  /** The first error among the reads, `NoErr` when there is none. */
  function StopOf(outs: seq<ReadOutcome>): ReadErr {
    if outs == [] then NoErr
    else if outs[0].err != NoErr then outs[0].err
    else StopOf(outs[1..])
  }

  /** The bytes read up to and including the read that failed. */
  function BytesRead(outs: seq<ReadOutcome>): string {
    if outs == [] then ""
    else outs[0].data + (if outs[0].err == NoErr then BytesRead(outs[1..]) else "")
  }

  // ---------------------------------------------------------------------
  // The coordinator loop

  /** The coordinator, message by message: a chunk is forwarded as a
      non-terminal response; a read error is reported and the process
      reaped; the closed channel reaps the process and sends Done; once the
      context arm wins, or nothing more can arrive (the context has a
      deadline, so it always fires eventually), the process is stopped and
      the timeout is reported. Exactly one terminal response ends every run. */
  function RawRelay(msgs: seq<ReadMsg>, doneAt: nat, f: Flavor): (r: Relay)
    ensures WellFormedStream(r.responses)
    decreases |msgs|
  {
    if doneAt == 0 || msgs == [] then Relay([ErrorResponse(f.timedOut)], f.onCancel)
    else match msgs[0]
      case Closed => Relay([EmptyDone], Reaped)
      case ReadError(m) => Relay([ErrorResponsef(f.readErrPrefix, m)], Reaped)
      case Data(d) =>
        var rest := RawRelay(msgs[1..], doneAt - 1, f);
        PrependOpen(Response(d, false, ""), rest.responses);
        Relay([Response(d, false, "")] + rest.responses, rest.exit)
  }

  /** The coordinator's `for { select … }` loop, appending to the response
      channel. */
  method RelayRaw(msgs: seq<ReadMsg>, doneAt: nat, f: Flavor) returns (out: seq<Response>, exit: ProcessExit)
    ensures Relay(out, exit) == RawRelay(msgs, doneAt, f)
    ensures WellFormedStream(out)
  {
    out := [];
    var i := 0;
    while true
      invariant 0 <= i <= |msgs| && i <= doneAt
      invariant RawRelay(msgs, doneAt, f) == After(out, RawRelay(msgs[i..], doneAt - i, f))
      decreases |msgs| - i
    {
      if i == doneAt || i == |msgs| {
        out := out + [ErrorResponse(f.timedOut)];
        exit := f.onCancel;
        return;
      }
      RawRelayStep(msgs, i, doneAt, f);
      match msgs[i]
      case Closed =>
        out := out + [EmptyDone];
        exit := Reaped;
        return;
      case ReadError(m) =>
        out := out + [ErrorResponsef(f.readErrPrefix, m)];
        exit := Reaped;
        return;
      case Data(d) =>
        out := out + [Response(d, false, "")];
        i := i + 1;
    }
  }

  /** A relay that has already sent `out`. */
  function After(out: seq<Response>, r: Relay): Relay {
    Relay(out + r.responses, r.exit)
  }

  /** One turn of the coordinator loop. */
  lemma RawRelayStep(msgs: seq<ReadMsg>, i: nat, doneAt: nat, f: Flavor)
    requires i < |msgs| && i < doneAt
    ensures msgs[i].Data? ==> RawRelay(msgs[i..], doneAt - i, f)
                              == After([Response(msgs[i].data, false, "")], RawRelay(msgs[i + 1..], doneAt - (i + 1), f))
    ensures msgs[i].Closed? ==> RawRelay(msgs[i..], doneAt - i, f) == Relay([EmptyDone], Reaped)
    ensures msgs[i].ReadError? ==> RawRelay(msgs[i..], doneAt - i, f)
                                   == Relay([ErrorResponsef(f.readErrPrefix, msgs[i].msg)], Reaped)
  {
    assert msgs[i..][0] == msgs[i] && msgs[i..][1..] == msgs[i + 1..];
  }

  // ---------------------------------------------------------------------
  // The relay in closed form

  /** The chunks at the front of `msgs`, before anything that is not a chunk. */
  function LeadingChunks(msgs: seq<ReadMsg>): (cs: seq<string>)
    ensures |cs| <= |msgs|
    ensures forall k :: 0 <= k < |cs| ==> msgs[k] == Data(cs[k])
    ensures |cs| < |msgs| ==> !msgs[|cs|].Data?
  {
    if msgs == [] || !msgs[0].Data? then [] else [msgs[0].data] + LeadingChunks(msgs[1..])
  }

  /** How the relay ends after forwarding `n` chunks. */
  function Ending(msgs: seq<ReadMsg>, n: nat, doneAt: nat, f: Flavor): (r: Relay)
    requires n <= |msgs|
    requires n < |msgs| && n < doneAt ==> !msgs[n].Data?
    ensures |r.responses| == 1 && IsTerminal(r.responses[0]) && r.responses[0].text == ""
  {
    if n < |msgs| && n < doneAt then
      if msgs[n].Closed? then Relay([EmptyDone], Reaped)
      else Relay([ErrorResponsef(f.readErrPrefix, msgs[n].msg)], Reaped)
    else Relay([ErrorResponse(f.timedOut)], f.onCancel)
  }

  function Min(a: nat, b: nat): nat {
    if a <= b then a else b
  }

  /** The relay forwards exactly the leading chunks received before the
      context wins, in order and unchanged, then sends one terminal response
      chosen by what stopped it. */
  predicate ClosedForm(msgs: seq<ReadMsg>, doneAt: nat, f: Flavor) {
    var cs := LeadingChunks(msgs);
    var n := Min(|cs|, doneAt);
    var e := Ending(msgs, n, doneAt, f);
    RawRelay(msgs, doneAt, f) == After(ChunkResponses(cs[..n]), e)
  }

  lemma {:induction false} RawRelayClosedForm(msgs: seq<ReadMsg>, doneAt: nat, f: Flavor)
    ensures ClosedForm(msgs, doneAt, f)
    decreases |msgs|
  {
    var cs := LeadingChunks(msgs);
    if doneAt == 0 || msgs == [] || !msgs[0].Data? {
      assert ChunkResponses(cs[..0]) == [];
    } else {
      RawRelayClosedForm(msgs[1..], doneAt - 1, f);
      ClosedFormCons(msgs, doneAt, f);
    }
  }

  lemma ClosedFormCons(msgs: seq<ReadMsg>, doneAt: nat, f: Flavor)
    requires msgs != [] && doneAt > 0 && msgs[0].Data?
    requires ClosedForm(msgs[1..], doneAt - 1, f)
    ensures ClosedForm(msgs, doneAt, f)
  {
    var tail := msgs[1..];
    var cs' := LeadingChunks(tail);
    var n' := Min(|cs'|, doneAt - 1);
    var r := Response(msgs[0].data, false, "");
    LeadingChunksCons(msgs);
    ChunkResponsesCons(msgs[0].data, cs', n');
    EndingShift(msgs, n', doneAt, f);
    AfterCons(r, ChunkResponses(cs'[..n']), Ending(tail, n', doneAt - 1, f));
  }

  lemma LeadingChunksCons(msgs: seq<ReadMsg>)
    requires msgs != [] && msgs[0].Data?
    ensures LeadingChunks(msgs) == [msgs[0].data] + LeadingChunks(msgs[1..])
  {
  }

  lemma ChunkResponsesCons(c: string, cs: seq<string>, n: nat)
    requires n <= |cs|
    ensures ChunkResponses(([c] + cs)[..n + 1]) == [Response(c, false, "")] + ChunkResponses(cs[..n])
  {
    assert ([c] + cs)[..n + 1] == [c] + cs[..n];
  }

  lemma AfterCons(r: Response, c: seq<Response>, e: Relay)
    ensures After([r], After(c, e)) == After([r] + c, e)
  {
  }

  lemma EndingShift(msgs: seq<ReadMsg>, n: nat, doneAt: nat, f: Flavor)
    requires msgs != [] && doneAt > 0 && n + 1 <= |msgs|
    requires n + 1 < |msgs| && n + 1 < doneAt ==> !msgs[n + 1].Data?
    ensures Ending(msgs, n + 1, doneAt, f) == Ending(msgs[1..], n, doneAt - 1, f)
  {
    assert n < |msgs[1..]| ==> msgs[1..][n] == msgs[n + 1];
  }

  /** The texts forwarded by the relay are exactly the chunks it received
      before it stopped, concatenated in order. */
  lemma RawRelayJoined(msgs: seq<ReadMsg>, doneAt: nat, f: Flavor)
    ensures var cs := LeadingChunks(msgs);
            Joined(RawRelay(msgs, doneAt, f).responses) == Concat(cs[..Min(|cs|, doneAt)])
  {
    var cs := LeadingChunks(msgs);
    var n := Min(|cs|, doneAt);
    var e := Ending(msgs, n, doneAt, f);
    RawRelayClosedForm(msgs, doneAt, f);
    assert RawRelay(msgs, doneAt, f).responses == ChunkResponses(cs[..n]) + e.responses;
    JoinedAppend(ChunkResponses(cs[..n]), e.responses);
    JoinedChunks(cs[..n]);
  }

  // ---------------------------------------------------------------------
  // Reader and coordinator together

  /** What the reader sends: its leading chunks concatenate to the bytes
      read, and right after them comes the message for the first error. */
  lemma {:induction false} ReaderChunks(outs: seq<ReadOutcome>)
    ensures var msgs := ReaderMessages(outs);
            var n := |LeadingChunks(msgs)|;
            && Concat(LeadingChunks(msgs)) == BytesRead(outs)
            && (StopOf(outs) == NoErr ==> n == |msgs|)
            && (StopOf(outs) == EOF ==> n < |msgs| && msgs[n] == Closed)
            && (StopOf(outs).Failed? ==> n < |msgs| && msgs[n] == ReadError(StopOf(outs).msg))
    decreases |outs|
  {
    if outs != [] {
      var r := outs[0];
      var rest := if r.err == NoErr then ReaderMessages(outs[1..]) else Stopped(r.err);
      if r.err == NoErr {
        ReaderChunks(outs[1..]);
      } else {
        assert LeadingChunks(rest) == [];
      }
      LeadingChunksAppend(Sent(r), rest);
      SentChunks(r);
      ConcatAppend(LeadingChunks(Sent(r)), LeadingChunks(rest));
    }
  }

  lemma SentChunks(r: ReadOutcome)
    ensures Concat(LeadingChunks(Sent(r))) == r.data
  {
    if r.data != "" {
      assert Sent(r)[1..] == [];
    }
  }

  /** Leading chunks of a sequence that starts with chunks only. */
  lemma {:induction false} LeadingChunksAppend(a: seq<ReadMsg>, b: seq<ReadMsg>)
    requires forall k :: 0 <= k < |a| ==> a[k].Data?
    ensures LeadingChunks(a + b) == LeadingChunks(a) + LeadingChunks(b)
    ensures |LeadingChunks(a)| == |a|
    decreases |a|
  {
    if a == [] {
      assert a + b == b;
    } else {
      AppendTail(a, b);
      LeadingChunksCons(a + b);
      LeadingChunksCons(a);
      forall k | 0 <= k < |a[1..]|
        ensures a[1..][k].Data?
      {
        assert a[1..][k] == a[k + 1];
      }
      LeadingChunksAppend(a[1..], b);
      Regroup([a[0].data], LeadingChunks(a[1..]), LeadingChunks(b));
    }
  }

  lemma AppendTail(a: seq<ReadMsg>, b: seq<ReadMsg>)
    requires a != []
    ensures (a + b)[0] == a[0] && (a + b)[1..] == a[1..] + b
  {
  }

  /** The stream a process agent produces when the context never wins while
      a message is waiting: its texts are exactly the bytes the agent wrote,
      in order, and it ends in Done at EOF, in the read error after the
      bytes of the failing read, or in the timeout if stdout never ends. */
  lemma RawStreamOfReads(outs: seq<ReadOutcome>, doneAt: nat, f: Flavor)
    requires doneAt > |ReaderMessages(outs)|
    ensures var r := RawRelay(ReaderMessages(outs), doneAt, f);
            && Joined(r.responses) == BytesRead(outs)
            && r.responses[|r.responses| - 1]
               == (match StopOf(outs)
                   case NoErr => ErrorResponse(f.timedOut)
                   case EOF => EmptyDone
                   case Failed(m) => ErrorResponsef(f.readErrPrefix, m))
            && r.exit == (if StopOf(outs) == NoErr then f.onCancel else Reaped)
  {
    var msgs := ReaderMessages(outs);
    var cs := LeadingChunks(msgs);
    ReaderChunks(outs);
    RawRelayJoined(msgs, doneAt, f);
    RawRelayClosedForm(msgs, doneAt, f);
    assert Min(|cs|, doneAt) == |cs|;
    assert cs[..|cs|] == cs;
  }

  /** Bytes returned together with a read error are forwarded before the
      error is reported. */
  lemma DataBeforeReadError(outs: seq<ReadOutcome>, d: string, m: string, doneAt: nat, f: Flavor)
    requires forall k :: 0 <= k < |outs| ==> outs[k].err == NoErr
    requires d != ""
    requires doneAt > |ReaderMessages(outs + [ReadOutcome(d, Failed(m))])|
    ensures var rs := RawRelay(ReaderMessages(outs + [ReadOutcome(d, Failed(m))]), doneAt, f).responses;
            && |rs| >= 2
            && rs[|rs| - 2] == Response(d, false, "")
            && rs[|rs| - 1] == ErrorResponsef(f.readErrPrefix, m)
  {
    var last := ReadOutcome(d, Failed(m));
    var pre := ReaderMessages(outs);
    ReaderAppend(outs, last);
    ReaderAllChunks(outs);
    assert ReaderMessages([last]) == [Data(d)] + [ReadError(m), Closed];
    Regroup(pre, [Data(d)], [ReadError(m), Closed]);
    var msgs := pre + [Data(d)] + [ReadError(m), Closed];
    ChunksThenError(pre, d, m);
    RelayEndsAfterChunks(msgs, doneAt, f);
    LastChunkResponse(LeadingChunks(msgs), ErrorResponsef(f.readErrPrefix, m));
  }

  /** Chunks followed by a read error: the chunks are exactly the data
      messages, the last being `d`, and the read error comes next. */
  lemma ChunksThenError(pre: seq<ReadMsg>, d: string, m: string)
    requires forall k :: 0 <= k < |pre| ==> pre[k].Data?
    ensures var msgs := pre + [Data(d)] + [ReadError(m), Closed];
            var cs := LeadingChunks(msgs);
            && |cs| == |pre| + 1 && cs[|pre|] == d && msgs[|cs|] == ReadError(m)
  {
    var front := pre + [Data(d)];
    forall k | 0 <= k < |front|
      ensures front[k].Data?
    {
      if k < |pre| { assert front[k] == pre[k]; }
    }
    LeadingChunksAppend(front, [ReadError(m), Closed]);
    assert LeadingChunks([ReadError(m), Closed]) == [];
  }

  /** When the context never wins, the relay forwards every leading chunk
      and then ends as the next message dictates. */
  lemma RelayEndsAfterChunks(msgs: seq<ReadMsg>, doneAt: nat, f: Flavor)
    requires doneAt > |msgs|
    ensures var cs := LeadingChunks(msgs);
            RawRelay(msgs, doneAt, f).responses == ChunkResponses(cs) + Ending(msgs, |cs|, doneAt, f).responses
  {
    var cs := LeadingChunks(msgs);
    RawRelayClosedForm(msgs, doneAt, f);
    assert Min(|cs|, doneAt) == |cs|;
    assert cs[..|cs|] == cs;
  }

  lemma LastChunkResponse(cs: seq<string>, e: Response)
    requires cs != []
    ensures var rs := ChunkResponses(cs) + [e];
            |rs| >= 2 && rs[|rs| - 2] == Response(cs[|cs| - 1], false, "") && rs[|rs| - 1] == e
  {
  }

  /** Before any read fails the reader has sent chunks only. */
  lemma {:induction false} ReaderAllChunks(outs: seq<ReadOutcome>)
    requires forall k :: 0 <= k < |outs| ==> outs[k].err == NoErr
    ensures forall k :: 0 <= k < |ReaderMessages(outs)| ==> ReaderMessages(outs)[k].Data?
    decreases |outs|
  {
    if outs != [] {
      ReaderAllChunks(outs[1..]);
    }
  }

  /** Reads without an error let the reader carry on with the next one. */
  lemma {:induction false} ReaderAppend(outs: seq<ReadOutcome>, last: ReadOutcome)
    requires forall k :: 0 <= k < |outs| ==> outs[k].err == NoErr
    ensures ReaderMessages(outs + [last]) == ReaderMessages(outs) + ReaderMessages([last])
    decreases |outs|
  {
    if outs != [] {
      var r := outs[0];
      var sent := if r.data != "" then [Data(r.data)] else [];
      assert (outs + [last])[0] == r;
      assert (outs + [last])[1..] == outs[1..] + [last];
      ReaderAppend(outs[1..], last);
    } else {
      assert outs + [last] == [last];
    }
  }

  lemma {:induction false} StopOfAppend(outs: seq<ReadOutcome>, last: ReadOutcome)
    requires forall k :: 0 <= k < |outs| ==> outs[k].err == NoErr
    ensures StopOf(outs + [last]) == last.err
    decreases |outs|
  {
    if outs == [] {
      assert outs + [last] == [last];
    } else {
      assert (outs + [last])[1..] == outs[1..] + [last];
      StopOfAppend(outs[1..], last);
    }
  }
}
