/** The connections of the control socket: line framing, the reply queue, and closing only after
    flushing. */
module ControlServer {
  import opened Basics
  import opened LifecycleRuns
  import opened TokenSlab
  import opened Apps
  import opened Fleet
  import opened Framing
  import opened ControlIpc
  import Kernel

  /** The JSON codec, which may turn any line into any request or none, and may fail to encode. */
  datatype Codec = Codec(decode: seq<byte> -> Option<Request>, encode: Response -> Option<seq<byte>>)

  /** The requests on some lines carried out on the apps one after the other, each with its response. */
  ghost predicate CarriedOut(codec: Codec, names: seq<Name>, lines: seq<seq<byte>>, responses: seq<Response>,
      before: Estate, after: Estate)
    requires |lines| == |responses|
    decreases |lines|
  {
    && |before.apps| == |after.apps| == |names|
    && if lines == [] then after == before
       else
         var n := |lines| - 1;
         exists mid: Estate ::
           && CarriedOut(codec, names, lines[..n], responses[..n], before, mid)
           && |mid.apps| == |names|
           && Effect(names, codec.decode(lines[n]), mid, after, responses[n])
  }

  lemma NothingCarriedOut(codec: Codec, names: seq<Name>, estate: Estate)
    requires |estate.apps| == |names|
    ensures CarriedOut(codec, names, [], [], estate, estate)
  {
  }

  lemma OneCarriedOut(codec: Codec, names: seq<Name>, line: seq<byte>, response: Response, before: Estate,
      after: Estate)
    requires |before.apps| == |after.apps| == |names| && Effect(names, codec.decode(line), before, after, response)
    ensures CarriedOut(codec, names, [line], [response], before, after)
  {
    hide Effect;
    assert [line][..0] == [] && [response][..0] == [];
    NothingCarriedOut(codec, names, before);
  }

  /** The estate before the last of some requests. */
  lemma LastCarriedOut(codec: Codec, names: seq<Name>, lines: seq<seq<byte>>, responses: seq<Response>,
      before: Estate, after: Estate)
    returns (mid: Estate)
    requires |lines| == |responses| > 0 && CarriedOut(codec, names, lines, responses, before, after)
    ensures var n := |lines| - 1;
            && CarriedOut(codec, names, lines[..n], responses[..n], before, mid)
            && |mid.apps| == |after.apps| == |names|
            && Effect(names, codec.decode(lines[n]), mid, after, responses[n])
  {
    hide Effect;
    var n := |lines| - 1;
    mid :| CarriedOut(codec, names, lines[..n], responses[..n], before, mid)
           && |mid.apps| == |names| && Effect(names, codec.decode(lines[n]), mid, after, responses[n]);
  }

  lemma {:induction false} CarriedOutThen(codec: Codec, names: seq<Name>, lines: seq<seq<byte>>,
      responses: seq<Response>,
      more: seq<seq<byte>>, moreResponses: seq<Response>, before: Estate, mid: Estate, after: Estate)
    requires |lines| == |responses| && |more| == |moreResponses|
    requires CarriedOut(codec, names, lines, responses, before, mid)
    requires CarriedOut(codec, names, more, moreResponses, mid, after)
    ensures CarriedOut(codec, names, lines + more, responses + moreResponses, before, after)
    decreases |more|
  {
    hide Effect;
    if more == [] {
      assert lines + more == lines && responses + moreResponses == responses;
    } else {
      var n := |more| - 1;
      var last := LastCarriedOut(codec, names, more, moreResponses, mid, after);
      CarriedOutThen(codec, names, lines, responses, more[..n], moreResponses[..n], before, mid, last);
      assert (lines + more)[..|lines| + n] == lines + more[..n];
      assert (responses + moreResponses)[..|lines| + n] == responses + moreResponses[..n];
    }
  }

  lemma AllNoRestartSelf(apps: seq<AppSnapshot>)
    ensures AllNoRestart(apps, apps)
  {
  }

  lemma AllNoRestartTransitive(a: seq<AppSnapshot>, b: seq<AppSnapshot>, c: seq<AppSnapshot>)
    requires AllNoRestart(a, b) && AllNoRestart(b, c)
    ensures AllNoRestart(a, c)
  {
    forall i | 0 <= i < |a| ensures NoRestart(a[i].view, c[i].view) {
      NoRestartTransitive(a[i].view, b[i].view, c[i].view);
    }
  }

  /** No sequence of requests causes an automatic restart, touches the apps' output, or leaks what no
      failed launch accounts for. */
  lemma {:induction false} CarriedOutIsNoRestart(codec: Codec, names: seq<Name>, lines: seq<seq<byte>>,
      responses: seq<Response>,
      before: Estate, after: Estate)
    requires |lines| == |responses| && CarriedOut(codec, names, lines, responses, before, after)
    ensures AllNoRestart(before.apps, after.apps) && SameOutput(before.apps, after.apps)
    ensures PaidFor(before.pool.lost, after.pool.lost)
    decreases |lines|
  {
    hide Effect, AllNoRestart;
    if lines == [] {
      AllNoRestartSelf(before.apps);
    } else {
      var n := |lines| - 1;
      var mid := LastCarriedOut(codec, names, lines, responses, before, after);
      CarriedOutIsNoRestart(codec, names, lines[..n], responses[..n], before, mid);
      EffectsAreNoRestarts(names, codec.decode(lines[n]), mid, after, responses[n]);
      EffectsArePaidFor(names, codec.decode(lines[n]), mid, after, responses[n]);
      AllNoRestartTransitive(before.apps, mid.apps, after.apps);
    }
  }

  // One connection as a value

  /** The reply line to a request. */
  function ReplyTo(codec: Codec, response: Response): seq<byte> {
    match codec.encode(response)
    case None => []
    case Some(bytes) => bytes + [NEWLINE]
  }

  /** The replies to some requests, one after the other. */
  function Answered(codec: Codec, responses: seq<Response>): seq<byte> {
    if responses == [] then []
    else Answered(codec, responses[..|responses| - 1]) + ReplyTo(codec, responses[|responses| - 1])
  }

  predicate AllEncode(codec: Codec, responses: seq<Response>) {
    forall r :: r in responses ==> codec.encode(r).Some?
  }

  lemma AnsweredNothing(codec: Codec)
    ensures Answered(codec, []) == []
  {
  }

  lemma AnsweredMore(codec: Codec, responses: seq<Response>, response: Response)
    ensures Answered(codec, responses + [response]) == Answered(codec, responses) + ReplyTo(codec, response)
  {
    assert (responses + [response])[..|responses|] == responses;
  }

  lemma {:induction false} AnsweredConcat(codec: Codec, a: seq<Response>, b: seq<Response>)
    ensures Answered(codec, a + b) == Answered(codec, a) + Answered(codec, b)
  {
    hide Answered, ReplyTo;
    if b == [] {
      AnsweredNothing(codec);
      assert a + b == a;
    } else {
      var init, last := b[..|b| - 1], b[|b| - 1];
      AnsweredConcat(codec, a, init);
      AnsweredMore(codec, init, last);
      AnsweredMore(codec, a + init, last);
      assert a + b == a + init + [last] && b == init + [last];
    }
  }

  lemma OneReply(codec: Codec, response: Response, bytes: seq<byte>)
    requires codec.encode(response) == Some(bytes)
    ensures ReplyTo(codec, response) == bytes + [10]
    ensures 10 !in bytes ==> CompleteLines(bytes + [10]) == [bytes + [10]] && Leftover(bytes + [10]) == []
  {
    hide CompleteLines, Leftover;
    if 10 !in bytes {
      OneLine(bytes);
    }
  }

  /** The replies as lines: the encoding of each response, followed by byte 10. */
  function ReplyLines(codec: Codec, responses: seq<Response>): (lines: seq<seq<byte>>)
    requires forall r :: r in responses ==> codec.encode(r).Some?
    ensures |lines| == |responses|
    ensures forall i :: 0 <= i < |lines| ==> lines[i] == codec.encode(responses[i]).value + [10]
  {
    seq(|responses|, i requires 0 <= i < |responses| => codec.encode(responses[i]).value + [10])
  }

  /** The bytes sent for some responses are their lines one after the other. If no encoding holds byte 10,
      taking the bytes apart at it gives back the lines. */
  lemma {:induction false} RepliesAreLines(codec: Codec, responses: seq<Response>)
    requires forall r :: r in responses ==> codec.encode(r).Some?
    ensures Answered(codec, responses) == Flatten(ReplyLines(codec, responses))
    ensures (forall r :: r in responses ==> 10 !in codec.encode(r).value) ==>
              && CompleteLines(Answered(codec, responses)) == ReplyLines(codec, responses)
              && Leftover(Answered(codec, responses)) == []
  {
    hide Answered, ReplyTo, CompleteLines, Leftover, Flatten, ReplyLines;
    var lines := ReplyLines(codec, responses);
    if responses == [] {
      AnsweredNothing(codec);
      NothingYet<byte>();
      NoLines([]);
      assert lines == [];
    } else {
      var init, last := responses[..|responses| - 1], responses[|responses| - 1];
      var bytes := codec.encode(last).value;
      RepliesAreLines(codec, init);
      assert responses == init + [last] && lines == ReplyLines(codec, init) + [bytes + [10]];
      AnsweredMore(codec, init, last);
      OneReply(codec, last, bytes);
      FlattenSnoc(ReplyLines(codec, init), bytes + [10]);
      MoreData(Answered(codec, init), bytes + [10]);
      if forall r :: r in responses ==> 10 !in codec.encode(r).value {
        assert Leftover(Answered(codec, init)) == [];
        assert [] + (bytes + [10]) == bytes + [10];
      }
    }
  }

  /** All there is to say about a connection at one moment: everything received, what of it is still
      buffered, everything sent and still queued, the requests handled with their responses, whether it
      is to be closed, whether the peer has finished, whether it is registered as writable and the last
      change of that was refused, and whether reading, writing or encoding failed. */
  datatype Session = Session(
    received: seq<byte>,
    buf: seq<byte>,
    sent: seq<byte>,
    queued: seq<byte>,
    lines: seq<seq<byte>>,
    responses: seq<Response>,
    closing: bool,
    sawEnd: bool,
    registered: bool,
    refused: bool,
    broken: bool)
  {
    /** Bytes sent and bytes queued are the replies, one encoded response for each request handled, in
        order; closing is due after a reply or the end of the stream. */
    ghost predicate RepliesSound(codec: Codec) {
      && sent + queued == Answered(codec, responses)
      && |lines| == |responses| && AllEncode(codec, responses)
      && (closing <==> sawEnd || lines != [])
    }

    /** No complete line is waiting: exactly the requests received so far have been handled. */
    ghost predicate Sound(codec: Codec) {
      RepliesSound(codec) && lines == RequestsIn(received) && buf == Leftover(received)
    }

    /** Nothing is left to do: a reply was made or the stream ended, and every reply has been sent. */
    predicate Over() {
      closing && queued == []
    }

    /** A connection is dropped once it has failed or is over. */
    predicate Dropped() {
      broken || Over()
    }

    /** Between events: pending output has its writable interest registered, unless the system refused
        that the last time, and a connection due for closing has pending output. */
    ghost predicate Orderly(codec: Codec) {
      && Sound(codec) && !broken
      && (closing ==> queued != [])
      && (registered == (queued != []) || refused)
    }

    /** What was read is buffered, and how the reading ended is noted. */
    function Read(arrivals: seq<seq<byte>>, end: Kernel.ReadEnd): Session {
      this.(received := received + Flatten(arrivals), buf := buf + Flatten(arrivals),
            closing := closing || end.EndOfStream?, sawEnd := sawEnd || end.EndOfStream?,
            broken := broken || end.ReadFailed?)
    }

    /** Some requests have been taken off the buffer and answered. */
    function Handle(codec: Codec, rest: seq<byte>, done: seq<seq<byte>>, answers: seq<Response>): Session {
      this.(buf := rest, lines := lines + done, responses := responses + answers,
            queued := queued + Answered(codec, answers), closing := closing || done != [])
    }

    /** The socket has taken the first `n` bytes queued. */
    function Send(n: nat): Session
      requires n <= |queued|
    {
      this.(sent := sent + queued[..n], queued := queued[n..])
    }

    /** As much of the queue is written as the socket takes. */
    function Flush(outlet: Kernel.Outlet): Session {
      var n := outlet.Takes(|queued|);
      Send(n).(broken := broken || (n < |queued| && outlet.breaks))
    }

    /** A write that takes a part of the queue leaves it to be flushed on. */
    lemma FlushOn(outlet: Kernel.Outlet, n: nat)
      requires n <= outlet.Takes(|queued|)
      ensures Send(n).Flush(outlet.After(n)) == Flush(outlet)
    {
      var all := outlet.Takes(|queued|);
      assert queued[..n] + queued[n..][..all - n] == queued[..all];
      Associative(sent, queued[..n], queued[n..][..all - n]);
      assert queued[n..][all - n..] == queued[all..];
    }

    /** The registered interest follows whether output is pending, if the system accepts the change. */
    function Reregister(accepts: bool): (s: Session)
      ensures s.Over() == Over() && s.broken == broken
    {
      if registered == (queued != []) then this.(refused := false)
      else if accepts then this.(registered := queued != [], refused := false)
      else this.(refused := true)
    }

    /** The end of an event: the writable half, and a change of interest unless it is all over. */
    function Finish(writable: bool, link: Kernel.Link): Session {
      var s := if writable then Flush(link.outlet) else this;
      if s.Dropped() then s else s.Reregister(link.accepts)
    }
  }

  const NEW_SESSION := Session([], [], [], [], [], [], false, false, false, false, false)

  /** The first of the requests buffered have been handled, up to one whose response cannot be
      encoded, and the connection has failed. */
  ghost predicate GaveUp(before: Session, after: Session, codec: Codec, done: seq<seq<byte>>, answers: seq<Response>) {
    && |done| == |answers| > 0 && done <= RequestsIn(before.buf)
    && var n := |done| - 1;
       && AllEncode(codec, answers[..n]) && codec.encode(answers[n]).None?
       && after == before.Handle(codec, after.buf, done[..n], answers[..n]).(broken := true)
  }

  /** The first of the requests buffered have been handled. */
  ghost predicate HandledSome(before: Session, after: Session, codec: Codec, done: seq<seq<byte>>,
      answers: seq<Response>)
  {
    && |done| == |answers| && AllEncode(codec, answers)
    && done + RequestsIn(after.buf) == RequestsIn(before.buf) && Leftover(after.buf) == Leftover(before.buf)
    && after == before.Handle(codec, after.buf, done, answers)
  }

  lemma HandledNone(s: Session, codec: Codec)
    ensures HandledSome(s, s, codec, [], [])
  {
    assert s.queued + [] == s.queued && s.lines + [] == s.lines && s.responses + [] == s.responses;
    assert [] + RequestsIn(s.buf) == RequestsIn(s.buf);
  }

  lemma HandledMore(a: Session, b: Session, c: Session, codec: Codec, done: seq<seq<byte>>, answers: seq<Response>,
      more: seq<seq<byte>>, moreAnswers: seq<Response>)
    requires HandledSome(a, b, codec, done, answers) && HandledSome(b, c, codec, more, moreAnswers)
    ensures HandledSome(a, c, codec, done + more, answers + moreAnswers)
  {
    hide RequestsIn, Leftover, Answered;
    AnsweredConcat(codec, answers, moreAnswers);
    Associative(a.queued, Answered(codec, answers), Answered(codec, moreAnswers));
    Associative(a.lines, done, more);
    Associative(a.responses, answers, moreAnswers);
    Associative(done, more, RequestsIn(c.buf));
  }

  lemma GaveUpLater(a: Session, b: Session, c: Session, codec: Codec, done: seq<seq<byte>>, answers: seq<Response>,
      more: seq<seq<byte>>, moreAnswers: seq<Response>)
    requires HandledSome(a, b, codec, done, answers) && GaveUp(b, c, codec, more, moreAnswers)
    ensures GaveUp(a, c, codec, done + more, answers + moreAnswers)
  {
    hide RequestsIn, Leftover, Answered;
    var n := |more| - 1;
    assert (done + more)[..|done| + n] == done + more[..n];
    assert (answers + moreAnswers)[..|done| + n] == answers + moreAnswers[..n];
    AnsweredConcat(codec, answers, moreAnswers[..n]);
    Associative(a.queued, Answered(codec, answers), Answered(codec, moreAnswers[..n]));
    Associative(a.lines, done, more[..n]);
    Associative(a.responses, answers, moreAnswers[..n]);
  }

  /** Without a newline left, all requests have been handled. */
  lemma HandledAll(before: Session, after: Session, codec: Codec, done: seq<seq<byte>>, answers: seq<Response>)
    requires HandledSome(before, after, codec, done, answers) && NEWLINE !in after.buf
    ensures AllEncode(codec, answers) && done == RequestsIn(before.buf)
    ensures after == before.Handle(codec, Leftover(before.buf), done, answers)
  {
    NoLineLeft(after.buf);
  }

  /** The readable half of an event: what is read is buffered, and unless reading failed, the requests
      that have become complete are carried out, all of them unless a response cannot be encoded. */
  ghost predicate ReadHalf(before: Session, after: Session, codec: Codec, arrivals: seq<seq<byte>>,
      end: Kernel.ReadEnd, done: seq<seq<byte>>, answers: seq<Response>)
  {
    var read := before.Read(arrivals, end);
    if read.broken then after == read && done == [] && answers == []
    else if AllEncode(codec, answers) then
      && done == RequestsIn(read.buf) && |answers| == |done|
      && after == read.Handle(codec, Leftover(read.buf), done, answers)
    else GaveUp(read, after, codec, done, answers)
  }

  /** New bytes after a prefix whose requests are all handled. */
  lemma MoreRequests(before: seq<byte>, more: seq<byte>)
    ensures RequestsIn(before) + RequestsIn(Leftover(before) + more) == RequestsIn(before + more)
    ensures Leftover(Leftover(before) + more) == Leftover(before + more)
  {
    MoreData(before, more);
    RequestsConcat(CompleteLines(before), CompleteLines(Leftover(before) + more));
  }

  /** After the readable half of an event exactly the requests received have been carried out, each with
      its reply, unless the connection failed. */
  lemma ReadHalfSound(before: Session, after: Session, codec: Codec, arrivals: seq<seq<byte>>, end: Kernel.ReadEnd,
      done: seq<seq<byte>>, answers: seq<Response>)
    requires before.Sound(codec) && ReadHalf(before, after, codec, arrivals, end, done, answers)
    ensures !after.broken ==> after.Sound(codec) && after.lines == before.lines + done
    ensures before.lines + done <= RequestsIn(before.received + Flatten(arrivals))
    ensures after.received == before.received + Flatten(arrivals) && after.sent == before.sent
  {
    hide RequestsIn, Leftover, Flatten, Answered;
    MoreRequests(before.received, Flatten(arrivals));
    AnsweredConcat(codec, before.responses, answers);
    Associative(before.sent, before.queued, Answered(codec, answers));
  }

  /** What the end of an event does to a sound connection: what was sent stays sent, and sent and queued
      bytes stay the replies; unless it failed or is over, it is in order. */
  lemma FinishSound(s: Session, codec: Codec, writable: bool, link: Kernel.Link)
    requires s.Sound(codec) && !s.broken
    ensures var after := s.Finish(writable, link);
            && after.Sound(codec) && s.sent <= after.sent && after.sent + after.queued == s.sent + s.queued
            && (!after.broken && !after.Over() ==> after.Orderly(codec))
            && (after.refused ==> !link.accepts || after.broken || after.Over())
  {
    hide RequestsIn, Leftover, Answered;
    if writable {
      var n := link.outlet.Takes(|s.queued|);
      assert s.queued == s.queued[..n] + s.queued[n..];
      Associative(s.sent, s.queued[..n], s.queued[n..]);
    }
  }

  /** A connection that stays is refused an interest only if the system refuses it now. */
  lemma FinishRefuses(s: Session, writable: bool, link: Kernel.Link)
    ensures !s.Finish(writable, link).Dropped() && s.Finish(writable, link).refused ==> !link.accepts
  {
  }

  lemma FinishGrows(s: Session, writable: bool, link: Kernel.Link)
    ensures s.Finish(writable, link).received == s.received && s.sent <= s.Finish(writable, link).sent
  {
  }

  /** A writable event of a connection whose socket takes everything sends all its replies, and unless
      there has been neither a request nor the end of the stream, it is then over. */
  lemma AllRepliesSent(s: Session, codec: Codec, link: Kernel.Link)
    requires s.Sound(codec) && !s.broken && link.outlet.Takes(|s.queued|) == |s.queued|
    ensures var after := s.Finish(true, link);
            && after.sent == Answered(codec, s.responses) && after.queued == [] && !after.broken
            && (after.Over() <==> s.sawEnd || s.lines != [])
  {
    hide RequestsIn, Leftover, Answered;
  }

  /** A blank line has been passed over. */
  lemma HandledBlank(before: Session, after: Session, codec: Codec)
    requires after == before.(buf := after.buf)
    requires RequestsIn(before.buf) == [] + RequestsIn(after.buf) && Leftover(before.buf) == Leftover(after.buf)
    ensures HandledSome(before, after, codec, [], [])
  {
    hide RequestsIn, Leftover;
    assert before.queued + [] == before.queued && before.lines + [] == before.lines;
    assert before.responses + [] == before.responses;
  }

  /** The next request has been handled, or its response could not be encoded. */
  lemma HandledOne(before: Session, after: Session, codec: Codec, line: seq<byte>, response: Response)
    requires RequestsIn(before.buf) == [line] + RequestsIn(after.buf) && Leftover(before.buf) == Leftover(after.buf)
    requires after == if codec.encode(response).Some?
                      then before.(buf := after.buf).Handle(codec, after.buf, [line], [response])
                      else before.(buf := after.buf, broken := true)
    ensures if codec.encode(response).Some? then HandledSome(before, after, codec, [line], [response])
            else GaveUp(before, after, codec, [line], [response])
  {
    hide RequestsIn, Leftover;
    if codec.encode(response).None? {
      assert [line][..0] == [] && [response][..0] == [];
      assert before.queued + [] == before.queued && before.lines + [] == before.lines;
      assert before.responses + [] == before.responses;
    }
  }

  lemma NewIsOrderly(codec: Codec)
    ensures NEW_SESSION.Orderly(codec)
  {
    NoLineLeft([]);
  }

  class ControlConnection {
    const token: Token
    var readBuf: seq<byte>
    var writeBuf: seq<byte>
    var closeAfterFlush: bool
    var writableRegistered: bool

    /** Everything received and sent, the request lines handled with their responses, whether the peer
        finished, whether the last change of interest was refused, and whether reading, writing or
        encoding failed. */
    ghost var received: seq<byte>
    ghost var sent: seq<byte>
    ghost var lines: seq<seq<byte>>
    ghost var responses: seq<Response>
    ghost var sawEnd: bool
    ghost var refused: bool
    ghost var broken: bool

    constructor (token: Token)
      ensures this.token == token && Now() == NEW_SESSION
    {
      this.token := token;
      readBuf, writeBuf, closeAfterFlush, writableRegistered := [], [], false, false;
      received, sent, lines, responses, sawEnd, refused, broken := [], [], [], [], false, false, false;
    }

    ghost function Now(): Session
      reads this
    {
      Session(received, readBuf, sent, writeBuf, lines, responses, closeAfterFlush, sawEnd, writableRegistered,
        refused, broken)
    }

    /** Takes in what the socket had to read, and how the reading ended. */
    method Receive(arrivals: seq<seq<byte>>, end: Kernel.ReadEnd) returns (ok: bool)
      requires !broken
      modifies `readBuf, `received, `closeAfterFlush, `sawEnd, `broken
      ensures Now() == old(Now()).Read(arrivals, end) && (ok <==> !broken)
    {
      hide Flatten;
      ghost var got: seq<byte> := [];
      NothingYet<byte>();
      for i := 0 to |arrivals|
        invariant got == Flatten(arrivals[..i])
        invariant readBuf == old(readBuf) + got && received == old(received) + got
        invariant closeAfterFlush == old(closeAfterFlush) && sawEnd == old(sawEnd) && !broken
      {
        FlattenSnoc(arrivals[..i], arrivals[i]);
        assert arrivals[..i + 1] == arrivals[..i] + [arrivals[i]];
        readBuf := readBuf + arrivals[i];
        received := received + arrivals[i];
        got := got + arrivals[i];
      }
      assert arrivals[..|arrivals|] == arrivals;
      if end.EndOfStream? {
        closeAfterFlush := true;
        sawEnd := true;
      }
      if end.ReadFailed? {
        broken := true;
      }
      return !end.ReadFailed?;
    }

    /** Takes the next complete line off the buffer, trimmed. */
    method TakeLine() returns (line: Option<seq<byte>>)
      modifies `readBuf
      ensures line.None? <==> NEWLINE !in old(readBuf)
      ensures line.None? ==> readBuf == old(readBuf)
      ensures line.Some? ==>
                && |readBuf| < |old(readBuf)|
                && RequestsIn(old(readBuf)) == (if line.value == [] then [] else [line.value]) + RequestsIn(readBuf)
                && Leftover(old(readBuf)) == Leftover(readBuf)
    {
      var pos := IndexOf(readBuf, NEWLINE);
      if pos.None? {
        return None;
      }
      NextLine(readBuf);
      var taken := readBuf[..pos.value + 1];
      readBuf := readBuf[pos.value + 1..];
      return Some(Trim(taken));
    }

    /** Queues the reply line to a request; fails if the response cannot be encoded. */
    method QueueResponse(ghost line: seq<byte>, response: Response, codec: Codec) returns (ok: bool)
      requires !broken
      modifies `writeBuf, `lines, `responses, `closeAfterFlush, `broken
      ensures ok <==> codec.encode(response).Some?
      ensures Now() == if ok then old(Now()).Handle(codec, readBuf, [line], [response])
                       else old(Now()).(broken := true)
      ensures ok ==> writeBuf == old(writeBuf) + (codec.encode(response).value + [10])
    {
      AnsweredNothing(codec);
      AnsweredMore(codec, [], response);
      var encoded := codec.encode(response);
      if encoded.None? {
        broken := true;
        return false;
      }
      writeBuf := writeBuf + (encoded.value + [NEWLINE]);
      lines, responses := lines + [line], responses + [response];
      closeAfterFlush := true;
      assert [] + [response] == [response] && [] + ReplyTo(codec, response) == ReplyTo(codec, response);
      return true;
    }

    /** Writes queued output until it is all gone or the socket will take no more. */
    method Flush(outlet: Kernel.Outlet) returns (ok: bool)
      requires !broken
      modifies `writeBuf, `sent, `broken
      ensures Now() == old(Now()).Flush(outlet) && (ok <==> !broken)
    {
      var left := outlet;
      while writeBuf != []
        invariant Now().Flush(left) == old(Now()).Flush(outlet) && !broken
        decreases |writeBuf|
      {
        var front :| 1 <= front <= |writeBuf|;
        var written := Kernel.SocketWrite(writeBuf[..front], left);
        match written {
          case Accepted(n) =>
            Now().FlushOn(left, n);
            assert writeBuf[..front][..n] == writeBuf[..n];
            sent := sent + writeBuf[..n];
            writeBuf := writeBuf[n..];
            left := left.After(n);
          case WriteWouldBlock => return true;
          case WriteFailed =>
            broken := true;
            return false;
        }
      }
      return true;
    }

    /** The registered interest follows whether output is pending, if the system accepts the change. */
    method Reregister(accepts: bool)
      modifies `writableRegistered, `refused
      ensures Now() == old(Now()).Reregister(accepts)
    {
      refused := false;
      var wantsWritable := writeBuf != [];
      if wantsWritable != writableRegistered {
        if accepts {
          writableRegistered := wantsWritable;
        } else {
          refused := true;
        }
      }
    }
  }

  type Sessions = map<ControlConnection, Session>

  lemma SessionNow(conn: ControlConnection)
    ensures conn.Now().buf == conn.readBuf && conn.Now().broken == conn.broken
  {
  }

  class Server {
    var connections: map<Token, ControlConnection>
    const maxConnections: nat
    /** The connection objects ever created. */
    ghost var repr: set<ControlConnection>
    const codec: Codec

    constructor (maxConnections: nat, codec: Codec)
      ensures connections == map[] && repr == {} && this.maxConnections == maxConnections && this.codec == codec
    {
      connections, repr, this.maxConnections, this.codec := map[], {}, maxConnections, codec;
    }

    /** Every connection is filed under its own token. */
    ghost predicate Filed()
      reads this, repr
    {
      forall t :: t in connections ==> connections[t] in repr && connections[t].token == t
    }

    /** All connections but perhaps one are between events. */
    ghost predicate OrderlyBut(token: Token)
      reads this, repr
    {
      Filed() && forall t :: t in connections && t != token ==> connections[t].Now().Orderly(codec)
    }

    /** All connections are between events. */
    ghost predicate AllOrderly()
      reads this, repr
    {
      Filed() && forall t :: t in connections ==> connections[t].Now().Orderly(codec)
    }

    lemma BackInOrder(token: Token)
      requires OrderlyBut(token) && (token in connections ==> connections[token].Now().Orderly(codec))
      ensures AllOrderly()
    {
      hide Session.Orderly;
    }

    predicate IsKnown(token: Token)
      reads this
    {
      token in connections
    }

    /** Files a new connection under its token. */
    method File(conn: ControlConnection)
      requires conn.token !in connections
      modifies this
      ensures connections == old(connections)[conn.token := conn]
      ensures connections.Keys == old(connections).Keys + {conn.token} && |connections| == |old(connections)| + 1
      ensures repr == old(repr) + {conn}
    {
      connections := connections[conn.token := conn];
      repr := repr + {conn};
    }

    ghost function RoomIn(slab: MioTokenSlab): (room: Room)
      reads this, slab
      ensures room.connected == |connections| && room.pool == slab.Now()
    {
      Room(|connections|, slab.Now())
    }

    /** The connections ever created. */
    ghost function Sessions(): (sessions: Sessions)
      reads this, repr
      ensures sessions.Keys == repr && forall c :: c in repr ==> sessions[c] == c.Now()
    {
      map c | c in repr :: c.Now()
    }

    /** Takes in one connection, unless there are too many or no token is left; if its socket cannot be
        registered that is an error and leaks the token. */
    method AcceptOne(registers: bool, slab: MioTokenSlab) returns (ok: bool, ghost added: ControlConnection?)
      requires slab.Valid() && ConnClaims(slab.owner, connections.Keys, ControlConn)
      modifies this, slab
      ensures slab.Valid() && ConnClaims(slab.owner, connections.Keys, ControlConn)
      ensures OthersKept(old(slab.owner), slab.owner, ControlParty)
      ensures RoomIn(slab) == Admission([registers], maxConnections, old(RoomIn(slab)))
      ensures ok <==> Admitted([registers], maxConnections, old(RoomIn(slab)))
      ensures added == null ==> connections == old(connections) && repr == old(repr)
      ensures added != null ==>
                && fresh(added) && added.Now() == NEW_SESSION && added.token !in old(connections)
                && connections == old(connections)[added.token := added] && repr == old(repr) + {added}
    {
      hide ConnClaims, OthersKept, LeakedTokens, MioTokenSlab.Valid, MioTokenSlab.Now, Admission, Admitted;
      OthersKeptSelf(slab.owner, ControlParty);
      AdmissionOfOne(registers, maxConnections, RoomIn(slab));
      added, ok := null, true;
      if |connections| < maxConnections {
        var token;
        token, ok := RegisterConnection(slab, registers, connections.Keys, ControlConn, ControlParty);
        if token.Some? {
          var conn := new ControlConnection(token.value);
          added := conn;
          File(conn);
        }
      }
    }

    /** The connections of `before` are all still there, and any other is new. */
    ghost predicate AllNew(before: map<Token, ControlConnection>)
      reads this, repr
    {
      && Kept(before, connections)
      && forall t :: t in connections && t !in before ==>
          connections[t] in repr && connections[t].Now() == NEW_SESSION
    }

    /** New connections are in order. */
    lemma StillOrderly(before: map<Token, ControlConnection>)
      requires Filed() && AllNew(before)
      requires forall t :: t in before ==> before[t].Now().Orderly(codec)
      ensures AllOrderly()
    {
      hide ControlConnection.Now, Session.Orderly;
      NewIsOrderly(codec);
    }

    lemma AreNew(before: map<Token, ControlConnection>)
      requires AllNew(before)
      ensures Kept(before, connections)
      ensures forall t :: t in connections && t !in before ==>
                connections[t] in Sessions() && Sessions()[connections[t]] == NEW_SESSION
    {
      hide ControlConnection.Now;
    }

    lemma NobodyNew()
      ensures AllNew(connections)
    {
    }

    /** Takes in the next connection; all the others stay as they are. */
    method AcceptNext(registers: bool, ghost before: map<Token, ControlConnection>, slab: MioTokenSlab)
      returns (ok: bool)
      requires Filed() && AllNew(before)
      requires slab.Valid() && ConnClaims(slab.owner, connections.Keys, ControlConn)
      modifies this, slab
      ensures Filed() && AllNew(before)
      ensures slab.Valid() && ConnClaims(slab.owner, connections.Keys, ControlConn)
      ensures OthersKept(old(slab.owner), slab.owner, ControlParty)
      ensures RoomIn(slab) == Admission([registers], maxConnections, old(RoomIn(slab)))
      ensures ok <==> Admitted([registers], maxConnections, old(RoomIn(slab)))
      ensures old(repr) <= repr && fresh(repr - old(repr))
    {
      hide ConnClaims, OthersKept, LeakedTokens, MioTokenSlab.Valid, MioTokenSlab.Now, Admission,
        Admitted, Server.RoomIn, ControlConnection.Now;
      ghost var olds := connections;
      ghost var conn;
      ok, conn := AcceptOne(registers, slab);
      assert forall t :: t in connections ==>
          (conn != null && t == conn.token) || (t in olds && connections[t] == olds[t]);
    }

    /** A round of taking in connections, for each of which the system says whether its socket can be
        registered. */
    method AcceptAll(pending: seq<bool>, slab: MioTokenSlab) returns (ok: bool)
      requires AllOrderly()
      requires slab.Valid() && ConnClaims(slab.owner, connections.Keys, ControlConn)
      modifies this, slab
      ensures AllOrderly()
      ensures slab.Valid() && ConnClaims(slab.owner, connections.Keys, ControlConn)
      ensures OthersKept(old(slab.owner), slab.owner, ControlParty)
      ensures RoomIn(slab) == Admission(pending, maxConnections, old(RoomIn(slab)))
      ensures ok <==> Admitted(pending, maxConnections, old(RoomIn(slab)))
      ensures AllNew(old(connections))
      ensures Kept(old(Sessions()), Sessions())
      ensures old(repr) <= repr && fresh(repr - old(repr))
    {
      hide ConnClaims, OthersKept, MioTokenSlab.Valid, MioTokenSlab.Now, Session.Orderly, Admission, Admitted,
        Server.RoomIn, Server.AllNew, ControlConnection.Now, Session.Orderly;
      NobodyNew();
      OthersKeptSelf(slab.owner, ControlParty);
      ghost var before, room := connections, RoomIn(slab);
      AdmissionBegins(pending, maxConnections, room);
      for i := 0 to |pending|
        invariant Filed()
        invariant slab.Valid() && ConnClaims(slab.owner, connections.Keys, ControlConn)
        invariant OthersKept(old(slab.owner), slab.owner, ControlParty)
        invariant RoomIn(slab) == Admission(pending[..i], maxConnections, room)
        invariant Admitted(pending[..i], maxConnections, room)
        invariant AllNew(before)
        invariant old(repr) <= repr && fresh(repr - old(repr))
      {
        ghost var ledger := slab.owner;
        ok := AcceptNext(pending[i], before, slab);
        AdmissionGoesOn(pending, i, maxConnections, room);
        OthersKeptTransitive(old(slab.owner), ledger, slab.owner, ControlParty);
        if !ok {
          AdmissionEnds(pending, i + 1, maxConnections, room);
          StillOrderly(before);
          return;
        }
      }
      assert pending[..|pending|] == pending;
      StillOrderly(before);
      return true;
    }

    /** Carries out the next complete line, if there is one, and queues its reply; blank lines are
        passed over. */
    method HandleLine(conn: ControlConnection, apps: seq<App>, slab: MioTokenSlab)
      returns (ok: bool, more: bool, ghost done: seq<seq<byte>>, ghost answers: seq<Response>)
      requires !conn.broken
      requires InPlace(apps) && AllValid(apps) && AllClaim(apps, slab.owner) && slab.Valid()
      modifies apps, slab, conn`readBuf, conn`writeBuf, conn`lines, conn`responses, conn`closeAfterFlush, conn`broken
      ensures AllValid(apps) && AllClaim(apps, slab.owner) && slab.Valid()
      ensures ConnsKept(old(slab.owner), slab.owner, |apps|)
      ensures |done| == |answers|
      ensures CarriedOut(codec, AppNames(apps), done, answers, old(EstateOf(apps, slab)), EstateOf(apps, slab))
      ensures ok <==> !conn.broken
      ensures if ok then HandledSome(old(conn.Now()), conn.Now(), codec, done, answers)
              else GaveUp(old(conn.Now()), conn.Now(), codec, done, answers)
      ensures if more then |conn.readBuf| < |old(conn.readBuf)| else ok ==> NEWLINE !in conn.readBuf
    {
      hide InPlace, AllValid, AllClaim, ConnsKept, MioTokenSlab.Valid, Effect, CarriedOut, App.Snap, MioTokenSlab.Now,
        RequestsIn, Leftover, HandledSome, GaveUp;
      ConnsKeptSelf(slab.owner, |apps|);
      ghost var names, estate, before := AppNames(apps), EstateOf(apps, slab), conn.Now();
      NothingCarriedOut(codec, names, estate);
      done, answers := [], [];
      var line := conn.TakeLine();
      if line.None? {
        HandledNone(before, codec);
        return true, false, [], [];
      }
      if line.value == [] {
        HandledBlank(before, conn.Now(), codec);
        return true, true, [], [];
      }
      var request := codec.decode(line.value);
      var response := HandleRequest(request, apps, slab);
      OneCarriedOut(codec, names, line.value, response, estate, EstateOf(apps, slab));
      done, answers := [line.value], [response];
      ok := conn.QueueResponse(line.value, response, codec);
      HandledOne(before, conn.Now(), codec, line.value, response);
      more := true;
    }

    /** Carries out every complete line in a connection's buffer, up to one whose response cannot be
        encoded. */
    method HandleLines(conn: ControlConnection, apps: seq<App>, slab: MioTokenSlab)
      returns (ok: bool, ghost done: seq<seq<byte>>, ghost answers: seq<Response>)
      requires !conn.broken
      requires InPlace(apps) && AllValid(apps) && AllClaim(apps, slab.owner) && slab.Valid()
      modifies apps, slab, conn`readBuf, conn`writeBuf, conn`lines, conn`responses, conn`closeAfterFlush, conn`broken
      ensures AllValid(apps) && AllClaim(apps, slab.owner) && slab.Valid()
      ensures ConnsKept(old(slab.owner), slab.owner, |apps|)
      ensures |done| == |answers|
      ensures CarriedOut(codec, AppNames(apps), done, answers, old(EstateOf(apps, slab)), EstateOf(apps, slab))
      ensures ok <==> !conn.broken
      ensures if ok then
                && AllEncode(codec, answers) && done == RequestsIn(old(conn.readBuf))
                && conn.Now() == old(conn.Now()).Handle(codec, Leftover(old(conn.readBuf)), done, answers)
              else GaveUp(old(conn.Now()), conn.Now(), codec, done, answers)
    {
      hide App.Valid, App.Snap, Claims, ConnsKept, MioTokenSlab.Valid, MioTokenSlab.Now, Effect, CarriedOut,
        RequestsIn, Leftover, HandledSome, GaveUp, ControlConnection.Now;
      ghost var names, estate, ledger, before := AppNames(apps), EstateOf(apps, slab), slab.owner, conn.Now();
      ConnsKeptSelf(ledger, |apps|);
      NothingCarriedOut(codec, names, estate);
      SessionNow(conn);
      HandledNone(before, codec);
      done, answers := [], [];
      var more := true;
      while more
        invariant AllValid(apps) && AllClaim(apps, slab.owner) && slab.Valid() && !conn.broken
        invariant ConnsKept(ledger, slab.owner, |apps|)
        invariant |done| == |answers| && CarriedOut(codec, names, done, answers, estate, EstateOf(apps, slab))
        invariant HandledSome(before, conn.Now(), codec, done, answers)
        invariant !more ==> NEWLINE !in conn.readBuf
        decreases more, |conn.readBuf|
      {
        ghost var now, ledgerNow, mid := EstateOf(apps, slab), slab.owner, conn.Now();
        ghost var line, answer;
        ok, more, line, answer := HandleLine(conn, apps, slab);
        ConnsKeptTransitive(ledger, ledgerNow, slab.owner, |apps|);
        CarriedOutThen(codec, names, done, answers, line, answer, estate, now, EstateOf(apps, slab));
        if !ok {
          GaveUpLater(before, mid, conn.Now(), codec, done, answers, line, answer);
          done, answers := done + line, answers + answer;
          return;
        }
        HandledMore(before, mid, conn.Now(), codec, done, answers, line, answer);
        done, answers := done + line, answers + answer;
      }
      SessionNow(conn);
      HandledAll(before, conn.Now(), codec, done, answers);
      ok := true;
    }

    /** The readable half of an event: what is read is buffered, and the requests that have become
        complete are carried out. */
    method HandleReadable(token: Token, arrivals: seq<seq<byte>>, end: Kernel.ReadEnd, apps: seq<App>,
        slab: MioTokenSlab)
      returns (ok: bool, ghost done: seq<seq<byte>>, ghost answers: seq<Response>)
      requires token in connections ==> !connections[token].broken
      requires InPlace(apps) && AllValid(apps) && AllClaim(apps, slab.owner) && slab.Valid()
      modifies apps, slab
      modifies if token in connections then {connections[token]} else {}
      ensures old(OrderlyBut(token)) ==> OrderlyBut(token)
      ensures AllValid(apps) && AllClaim(apps, slab.owner) && slab.Valid()
      ensures ConnsKept(old(slab.owner), slab.owner, |apps|)
      ensures |done| == |answers|
      ensures CarriedOut(codec, AppNames(apps), done, answers, old(EstateOf(apps, slab)), EstateOf(apps, slab))
      ensures token in connections ==>
                var conn := connections[token];
                && (ok <==> !conn.broken)
                && ReadHalf(old(conn.Now()), conn.Now(), codec, arrivals, end, done, answers)
    {
      hide Session.Orderly, App.Valid, App.Snap, Claims, ConnsKept, MioTokenSlab.Valid, MioTokenSlab.Now, Effect,
        CarriedOut,
        RequestsIn, Leftover, Flatten, Answered;
      ConnsKeptSelf(slab.owner, |apps|);
      NothingCarriedOut(codec, AppNames(apps), EstateOf(apps, slab));
      done, answers := [], [];
      if token !in connections {
        return true, [], [];
      }
      var conn := connections[token];
      ok := conn.Receive(arrivals, end);
      if !ok {
        return;
      }
      ok, done, answers := HandleLines(conn, apps, slab);
    }

    /** A writable event: sends on what is queued. */
    method HandleWritable(token: Token, outlet: Kernel.Outlet) returns (ok: bool)
      requires token in connections ==> !connections[token].broken
      modifies if token in connections then {connections[token]} else {}
      ensures token in connections ==>
                var conn := connections[token];
                conn.Now() == old(conn.Now()).Flush(outlet) && (ok <==> !conn.broken)
    {
      if token !in connections {
        return true;
      }
      ok := connections[token].Flush(outlet);
    }

    /** Drops a connection and returns its token. */
    method Close(token: Token, slab: MioTokenSlab)
      requires slab.Valid() && ConnClaims(slab.owner, connections.Keys, ControlConn)
      modifies this, slab
      ensures connections == old(connections) - {token} && repr == old(repr)
      ensures old(OrderlyBut(token)) ==> AllOrderly()
      ensures slab.Valid() && ConnClaims(slab.owner, connections.Keys, ControlConn)
      ensures OthersKept(old(slab.owner), slab.owner, ControlParty)
      ensures (if token in old(connections) then slab.Now().Take(1) else slab.Now()) == old(slab.Now())
    {
      hide Session.Orderly, ControlConnection.Now, ConnClaims, OthersKept, LeakedTokens, MioTokenSlab.Valid;
      OthersKeptSelf(slab.owner, ControlParty);
      ghost var before := connections;
      if token in connections {
        ClaimDropped(slab.owner, connections.Keys, token, ControlConn, ControlParty);
        connections := connections - {token};
        assert connections.Keys == before.Keys - {token};
        slab.Free(token);
      } else {
        assert connections == before - {token};
      }
    }

    /** What follows an event: the end of a connection that is over, or new interest. */
    method Reconcile(token: Token, accepts: bool, slab: MioTokenSlab)
      requires slab.Valid() && ConnClaims(slab.owner, connections.Keys, ControlConn)
      modifies this, slab
      modifies if token in connections then {connections[token]} else {}
      ensures old(OrderlyBut(token)) ==> OrderlyBut(token)
      ensures slab.Valid() && ConnClaims(slab.owner, connections.Keys, ControlConn)
      ensures OthersKept(old(slab.owner), slab.owner, ControlParty)
      ensures repr == old(repr)
      ensures token in old(connections) ==>
                var conn, before := old(connections)[token], old(connections[token].Now());
                if before.Over() then
                  && connections == old(connections) - {token} && conn.Now() == before
                  && slab.Now().Take(1) == old(slab.Now())
                else
                  && connections == old(connections) && conn.Now() == before.Reregister(accepts)
                  && slab.Now() == old(slab.Now())
      ensures token !in old(connections) ==> connections == old(connections) && slab.Now() == old(slab.Now())
    {
      hide Session.Orderly, ConnClaims, OthersKept, LeakedTokens, MioTokenSlab.Valid;
      OthersKeptSelf(slab.owner, ControlParty);
      if token !in connections {
        return;
      }
      var conn := connections[token];
      if conn.closeAfterFlush && conn.writeBuf == [] {
        Close(token, slab);
        return;
      }
      conn.Reregister(accepts);
    }
  }
}
