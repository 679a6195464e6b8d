/** The log-streaming socket: any number of connections, each reading one app's ring with a plain
    cursor and writing to its socket as much as the socket takes. */
module LogIpc {
  import opened Basics
  import opened LogRing
  import opened LogReader
  import opened LogWire
  import opened TokenSlab
  import opened Apps
  import Kernel

  /** A connection's stream: the app it asked for and the offset to send next. A dump, which is a
      request without follow, also remembers how much had been written when it came in. */
  datatype Subscription = Subscription(name: seq<byte>, follow: bool, cursor: nat, dumpUntil: Option<nat>)

  datatype ConnState = AwaitingRequest | Streaming(sub: Subscription)

  /** How one round of sending ends: more may follow, all is sent, or the socket blocked or broke. */
  datatype SendStep = More | AllSent | Blocked | Broken

  /** What the connections see of an app: its name and its log. */
  datatype LogView = LogView(name: seq<byte>, history: seq<byte>, capacity: nat)

  /** The names of logs; a request is for the first log under the name it gives. */
  function LogNames(logs: seq<LogView>): (names: seq<seq<byte>>)
    ensures |names| == |logs|
  {
    seq(|logs|, i requires 0 <= i < |logs| => logs[i].name)
  }

  /** Index of the first log under a name. */
  function FindLog(logs: seq<LogView>, name: seq<byte>): (r: Option<nat>)
    ensures r.Some? ==> r.value < |logs| && logs[r.value].name == name
  {
    IndexOf(LogNames(logs), name)
  }

  /** The rings of the apps are in order and hold these logs. */
  ghost predicate Reflects(apps: seq<App>, logs: seq<LogView>)
    reads set a: App | a in apps :: a.log, set a: App | a in apps :: a.log.mmap.file
  {
    && |logs| == |apps|
    && forall i :: 0 <= i < |apps| ==>
        apps[i].log.Valid() && logs[i] == LogView(apps[i].params.name, apps[i].log.history, apps[i].log.capacity)
  }

  /** The logs of the apps. */
  ghost function LogsOf(apps: seq<App>): (logs: seq<LogView>)
    reads set a: App | a in apps :: a.log
    ensures |logs| == |apps|
    ensures forall i :: 0 <= i < |apps| ==>
        logs[i] == LogView(apps[i].params.name, apps[i].log.history, apps[i].log.capacity)
  {
    seq(|apps|, i requires 0 <= i < |apps| reads set a: App | a in apps :: a.log =>
      LogView(apps[i].params.name, apps[i].log.history, apps[i].log.capacity))
  }

  /** Logs stay the same as long as nobody touches them. */
  twostate lemma LogsStay(apps: seq<App>)
    requires forall a :: a in apps ==> unchanged(a.log)
    ensures LogsOf(apps) == old(LogsOf(apps))
  {
  }

  lemma ReflectsLogs(apps: seq<App>)
    requires forall i :: 0 <= i < |apps| ==> apps[i].Valid()
    ensures Reflects(apps, LogsOf(apps))
  {
  }

  lemma FindSame(apps: seq<App>, logs: seq<LogView>, name: seq<byte>)
    requires Reflects(apps, logs)
    ensures IndexOf(AppNames(apps), name) == FindLog(logs, name)
  {
    assert AppNames(apps) == LogNames(logs);
  }

  /** Logs only grow. */
  ghost predicate Grown(before: seq<LogView>, after: seq<LogView>) {
    && |before| == |after|
    && forall i :: 0 <= i < |before| ==>
        before[i].name == after[i].name && before[i].capacity == after[i].capacity
            && before[i].history <= after[i].history
  }

  lemma FindGrown(before: seq<LogView>, after: seq<LogView>, name: seq<byte>)
    requires Grown(before, after)
    ensures FindLog(before, name) == FindLog(after, name)
  {
    assert LogNames(before) == LogNames(after);
  }

  // One connection as a value

  /** All there is to say about a connection at one moment: everything received and what of it is still
      buffered, what it is streaming and what its reader has seen, whether it is to be closed, whether
      the peer has finished, whether its socket has blocked, whether it is registered as writable and
      the last change of that was refused, and whether reading or writing failed. */
  datatype Feed = Feed(
    received: seq<byte>,
    buf: seq<byte>,
    state: ConnState,
    reader: Reader,
    closing: bool,
    sawEnd: bool,
    blocked: bool,
    registered: bool,
    refused: bool,
    broken: bool)
  {
    /** The stream is of a log there is. */
    predicate CanSend(logs: seq<LogView>) {
      && state.Streaming?
      && var found := FindLog(logs, state.sub.name);
         found.Some? && reader.cursor <= |logs[found.value].history|
    }

    /** The log that is streamed. */
    function Source(logs: seq<LogView>): LogView
      requires CanSend(logs)
    {
      logs[FindLog(logs, state.sub.name).value]
    }

    /** A streaming connection follows the request in the bytes it received, and its reader's trace is
        honest about the app's log. */
    ghost predicate StreamSound(logs: seq<LogView>) {
      && CanSend(logs)
      && var sub, log := state.sub, Source(logs);
         && Take(received) == Parsed(Request(sub.follow, sub.name), buf)
         && reader.cursor == sub.cursor
         && Faithful(reader, log.history, log.capacity)
         && (sub.dumpUntil.Some? <==> !sub.follow)
         && (sub.dumpUntil.Some? ==> sub.dumpUntil.value <= |log.history|)
    }

    /** A connection is to be closed only if the peer has finished, its request was turned down, or it
        is a dump. */
    ghost predicate Sound(logs: seq<LogView>) {
      && (sawEnd ==> closing)
      && if state.Streaming? then StreamSound(logs) && (closing ==> sawEnd || !state.sub.follow)
         else
           && !blocked && reader == NEW_READER
           && (closing ==> sawEnd || Complete(received))
           && (closing || Take(received) == Partial(buf))
    }

    /** A streaming connection has been sent everything there is. */
    ghost predicate CaughtUp(logs: seq<LogView>) {
      StreamSound(logs) && reader.cursor == |Source(logs).history|
    }

    /** Nothing is left to do. */
    predicate Over() {
      closing && !blocked
    }

    /** A connection is dropped once it has failed or is over. */
    predicate Dropped() {
      broken || Over()
    }

    predicate Follows() {
      state.Streaming? && state.sub.follow
    }

    /** Between events: whoever waits for a writable event is registered for it, unless the system
        refused that the last time; a connection that is to be closed waits for one, and so does a dump. */
    ghost predicate Orderly(logs: seq<LogView>) {
      && Sound(logs) && !broken
      && (closing ==> blocked)
      && (registered == blocked || refused)
      && (state.Streaming? && !state.sub.follow ==> blocked)
    }

    /** Just served: unless its socket blocked, a streaming connection is caught up, and a dump is to be
        closed. */
    ghost predicate Served(logs: seq<LogView>) {
      && Sound(logs) && !broken
      && (state.Streaming? && !blocked ==> CaughtUp(logs) && (state.sub.follow || closing))
    }

    /** Not stuck: the connection awaits the rest of its request, or is blocked and will get a writable
        event, unless the system refused that the last time, or follows and has been sent everything. */
    ghost predicate Settled(logs: seq<LogView>) {
      && Orderly(logs)
      && (|| (state.AwaitingRequest? && !Complete(received))
          || (blocked && (registered || refused))
          || (CaughtUp(logs) && Follows()))
    }

    /** What was read is buffered, and how the reading ended is noted. */
    function Read(arrivals: seq<seq<byte>>, end: Kernel.ReadEnd): Feed {
      this.(received := received + Flatten(arrivals), buf := buf + Flatten(arrivals),
            closing := closing || end.EndOfStream?, sawEnd := sawEnd || end.EndOfStream?,
            broken := broken || end.ReadFailed?)
    }

    /** A request is taken up as soon as all of it is there: a stream of the log it names begins at
        offset 0, for a dump with the end of the log as its bound; without a name, or with one that
        nobody has, the connection is to be closed. */
    function Ask(logs: seq<LogView>): Feed {
      if state.Streaming? then this
      else
        match Take(buf)
        case Partial(_) => this
        case Parsed(request, rest) =>
          var found := FindLog(logs, request.name);
          if request.name == [] || found.None? then this.(buf := rest, closing := true)
          else
            var bound := if request.follow then None else Some(|logs[found.value].history|);
            this.(buf := rest, state := Streaming(Subscription(request.name, request.follow, 0, bound)))
    }

    /** A stream goes on from where it was, as far as the socket takes it. When all has been sent, a
        dump that has reached its bound is to be closed. */
    function Send(logs: seq<LogView>, outlet: Kernel.Outlet): Feed {
      if !CanSend(logs) then this
      else
        var log := Source(logs);
        var r := LogReader.Served(reader, log.history, log.capacity, outlet);
        var sub, all := state.sub.(cursor := r.cursor), r.cursor == |log.history|;
        if !all && outlet.breaks then this.(state := Streaming(sub), reader := r, broken := true)
        else
          this.(state := Streaming(sub), reader := r, blocked := !all,
                closing := closing || (all && sub.dumpUntil.Some? && sub.dumpUntil.value <= sub.cursor))
    }

    /** The readable half of an event: what is read is buffered, and unless reading failed, a request
        that has become complete is taken up and the stream is sent on. */
    function ReadHalf(arrivals: seq<seq<byte>>, end: Kernel.ReadEnd, logs: seq<LogView>,
        outlet: Kernel.Outlet): Feed
    {
      var read := Read(arrivals, end);
      if read.broken then read else read.Ask(logs).Send(logs, outlet)
    }

    /** The registered interest follows whether the socket has blocked, if the system accepts the
        change. */
    function Reregister(accepts: bool): (f: Feed)
      ensures f.Over() == Over() && f.broken == broken
    {
      if registered == blocked then this.(refused := false)
      else if accepts then this.(registered := blocked, refused := false)
      else this.(refused := true)
    }

    /** The end of an event: the writable half, and a change of interest unless it is all over. */
    function Finish(writable: bool, logs: seq<LogView>, link: Kernel.Link): Feed {
      var f := if writable then Send(logs, link.outlet) else this;
      if f.Dropped() then f else f.Reregister(link.accepts)
    }
  }

  const NEW_FEED := Feed([], [], AwaitingRequest, NEW_READER, false, false, false, false, false, false)

  lemma NewIsOrderly(logs: seq<LogView>)
    ensures NEW_FEED.Orderly(logs)
  {
  }

  lemma OrderlyIsSound(f: Feed, logs: seq<LogView>)
    requires f.Orderly(logs)
    ensures f.Sound(logs) && !f.broken
  {
  }

  lemma SettledIsOrderly(f: Feed, logs: seq<LogView>)
    requires f.Settled(logs)
    ensures f.Orderly(logs)
  {
  }

  lemma TakenIsComplete(buf: seq<byte>)
    ensures Take(buf).Parsed? <==> Complete(buf)
    ensures Take(buf).Partial? ==> Take(buf) == Partial(buf)
  {
  }

  lemma AskReceives(f: Feed, logs: seq<LogView>)
    ensures f.Ask(logs).received == f.received && f.Ask(logs).reader == f.reader
  {
  }

  /** Between events only followers can lag behind their log. */
  lemma OthersAreSettled(f: Feed, logs: seq<LogView>)
    requires f.Orderly(logs) && !f.Follows()
    ensures f.Settled(logs)
  {
  }

  /** When the logs grow, a connection between events stays in order. */
  lemma OrderlyGrows(f: Feed, before: seq<LogView>, after: seq<LogView>)
    requires f.Orderly(before) && Grown(before, after)
    ensures f.Orderly(after)
  {
    if f.state.Streaming? {
      FindGrown(before, after, f.state.sub.name);
      var i := FindLog(before, f.state.sub.name).value;
      AppendKeepsFaithful(f.reader, before[i].history, after[i].history, before[i].capacity);
    }
  }

  /** What is sent goes on from what was sent before without a gap; unless the socket broke, it has then
      blocked or the reader is caught up. */
  lemma SendServes(f: Feed, logs: seq<LogView>, outlet: Kernel.Outlet)
    requires f.Sound(logs) && !f.broken
    ensures var after := f.Send(logs, outlet);
            && after.Sound(logs) && (!after.broken ==> after.Served(logs))
            && after.received == f.received && Extends(f.reader, after.reader)
            && (f.state.Streaming? ==>
                  ReceivedSince(f.reader, after.reader, f.Source(logs).history, f.Source(logs).capacity))
            && (outlet.room.None? ==> !after.broken && !after.blocked)
  {
    hide Faithful, ReceivedSince, Take, Complete, LogReader.Served, Extends;
    ExtendsSelf(f.reader);
    if f.state.Streaming? {
      ServedIsReceived(f.reader, f.Source(logs).history, f.Source(logs).capacity, outlet);
    }
  }

  /** Whatever arrives on a streaming connection leaves its request as it is. */
  lemma MoreReceived(f: Feed, logs: seq<LogView>, more: seq<byte>)
    requires f.Orderly(logs)
    ensures f.state.Streaming? ==>
              Take(f.received + more) == Parsed(Request(f.state.sub.follow, f.state.sub.name), f.buf + more)
    ensures f.state.AwaitingRequest? ==> f.received == f.buf
  {
    TakeMore(f.received, more);
  }

  /** A connection that has read on, and has taken up its request if it could, is sound. */
  lemma AskSound(f: Feed, logs: seq<LogView>, arrivals: seq<seq<byte>>, end: Kernel.ReadEnd)
    requires f.Orderly(logs) && !end.ReadFailed?
    ensures var asked := f.Read(arrivals, end).Ask(logs);
            asked.Sound(logs) && !asked.broken && asked.reader == f.reader
  {
    hide Take, Complete, Flatten, Faithful;
    MoreReceived(f, logs, Flatten(arrivals));
    TakenIsComplete(f.received + Flatten(arrivals));
    if f.state.AwaitingRequest? {
      var request := Take(f.received + Flatten(arrivals));
      if request.Parsed? && FindLog(logs, request.request.name).Some? {
        var log := logs[FindLog(logs, request.request.name).value];
        NewReaderFaithful(log.history, log.capacity);
      }
    }
  }

  /** After the readable half of an event a connection is served, unless reading or writing failed. */
  lemma ReadHalfServes(f: Feed, logs: seq<LogView>, arrivals: seq<seq<byte>>, end: Kernel.ReadEnd,
      outlet: Kernel.Outlet)
    requires f.Orderly(logs)
    ensures var after := f.ReadHalf(arrivals, end, logs, outlet);
            && (!after.broken ==> after.Served(logs))
            && after.received == f.received + Flatten(arrivals) && Extends(f.reader, after.reader)
  {
    hide Feed.Ask, Feed.Sound, Feed.Orderly, Feed.Served, Feed.Send, Extends, Flatten;
    ExtendsSelf(f.reader);
    var read := f.Read(arrivals, end);
    OrderlyIsSound(f, logs);
    if !end.ReadFailed? {
      AskSound(f, logs, arrivals, end);
      AskReceives(read, logs);
      SendServes(read.Ask(logs), logs, outlet);
    }
  }

  /** The end of an event leaves a connection broken, over, or between events; just served, it is not
      stuck. An interest is refused only if the system refuses it now. */
  lemma FinishSettles(f: Feed, writable: bool, logs: seq<LogView>, link: Kernel.Link)
    requires f.Sound(logs) && !f.broken && (f.Served(logs) || f.Orderly(logs))
    ensures var after := f.Finish(writable, logs, link);
            && after.Sound(logs) && Extends(f.reader, after.reader) && after.received == f.received
            && (after.broken || after.Over() || after.Orderly(logs))
            && (!after.broken && !after.Over() && (writable || f.Served(logs)) ==> after.Settled(logs))
            && (!after.broken && !after.Over() && after.refused ==> !link.accepts)
  {
    hide Faithful, Take, Complete, Extends, ReceivedSince, Feed.Send;
    ExtendsSelf(f.reader);
    TakenIsComplete(f.received);
    if writable {
      SendServes(f, logs, link.outlet);
    }
  }

  /** The same for a connection that has just been served. */
  lemma FinishServes(f: Feed, writable: bool, logs: seq<LogView>, link: Kernel.Link)
    requires f.Served(logs)
    ensures var after := f.Finish(writable, logs, link);
            && Extends(f.reader, after.reader)
            && (after.broken || after.Over() || (after.Settled(logs) && (after.refused ==> !link.accepts)))
  {
    hide Feed.Sound, Feed.Finish, Feed.Settled, Extends;
    FinishSettles(f, writable, logs, link);
  }

  /** A follower whose turn to be pushed it is, and whose socket takes everything, has been sent all of
      its log and stays. */
  lemma PushedInFull(f: Feed, logs: seq<LogView>, link: Kernel.Link)
    requires f.Orderly(logs) && f.Follows() && link.outlet.room.None?
    ensures var after := f.Finish(true, logs, link);
            !after.broken && after.CaughtUp(logs) && (after.Over() <==> f.closing)
  {
    hide Faithful, Take, Complete, Extends, ReceivedSince, LogReader.Served;
    SendServes(f, logs, link.outlet);
  }

  /** A request that arrives in full at a socket that takes everything is answered with exactly the bytes
      its log retains; a dump is then over, and a follower stays. */
  lemma UnblockedRequestIsComplete(f: Feed, logs: seq<LogView>, arrivals: seq<seq<byte>>, end: Kernel.ReadEnd,
      outlet: Kernel.Outlet)
    requires f.Orderly(logs) && f.state.AwaitingRequest? && !end.ReadFailed? && outlet.room.None?
    requires Complete(f.received + Flatten(arrivals))
    ensures var after := f.ReadHalf(arrivals, end, logs, outlet);
            var request := Take(f.received + Flatten(arrivals)).request;
            var found := FindLog(logs, request.name);
            && !after.broken && !after.blocked
            && if request.name == [] || found.None? then
                 after.state.AwaitingRequest? && after.reader == NEW_READER && after.Over()
               else
                 var log := logs[found.value];
                 && after.Follows() == request.follow
                 && after.reader.delivered == log.history[StartPos(|log.history|, log.capacity)..]
                 && (after.Over() <==> end.EndOfStream? || !request.follow)
  {
    hide Faithful, Extends, Flatten, LogReader.Served, CatchUp, Deliver;
    AskSound(f, logs, arrivals, end);
    MoreReceived(f, logs, Flatten(arrivals));
    var asked := f.Read(arrivals, end).Ask(logs);
    SendServes(asked, logs, outlet);
    if asked.state.Streaming? {
      var log := asked.Source(logs);
      ServedIsReceived(asked.reader, log.history, log.capacity, outlet);
      DumpDeliversRetained(asked.Send(logs, outlet).reader, log.history, log.capacity);
    }
  }

  /** A connection that has just been sent everything stays as it is when it is served again. */
  lemma SentAlready(f: Feed, logs: seq<LogView>, outlet: Kernel.Outlet)
    requires f.Served(logs) && !f.blocked
    ensures f.Send(logs, outlet) == f
  {
    hide Faithful, Take, Complete, LogReader.Served;
    if f.state.Streaming? {
      var log := f.Source(logs);
      FaithfulIsPrompt(f.reader, log.history, log.capacity);
      NothingServed(f.reader, log.history, log.capacity, outlet);
    }
  }

  lemma NothingToSend(f: Feed, logs: seq<LogView>, outlet: Kernel.Outlet)
    requires f.state.AwaitingRequest?
    ensures f.Send(logs, outlet) == f
  {
  }

  lemma AskedTwice(f: Feed, logs: seq<LogView>)
    ensures f.state.Streaming? ==> f.Ask(logs) == f
  {
  }

  /** A push leaves a connection not stuck, or dropped. */
  lemma PushedInOrder(f: Feed, logs: seq<LogView>, link: Kernel.Link)
    requires f.Orderly(logs)
    ensures var after := f.Finish(true, logs, link);
            && Extends(f.reader, after.reader)
            && (after.broken || after.Over()
                || (after.Orderly(logs) && after.Settled(logs) && (after.refused ==> !link.accepts)))
  {
    hide Feed.Sound, Feed.Finish, Feed.Served, Extends;
    OrderlyIsSound(f, logs);
    FinishSettles(f, true, logs, link);
  }

  class LogConnection {
    const token: Token
    var readBuf: seq<byte>
    var state: ConnState
    var closeAfterFlush: bool
    /** There is more to send than the socket would take. */
    var writeBlocked: bool
    var writableRegistered: bool

    /** Everything received, what the reader behind the socket has seen, whether the peer finished,
        whether the last change of interest was refused, and whether reading or writing failed. */
    ghost var received: seq<byte>
    ghost var reader: Reader
    ghost var sawEnd: bool
    ghost var refused: bool
    ghost var broken: bool

    constructor (token: Token)
      ensures this.token == token && Now() == NEW_FEED
    {
      this.token := token;
      readBuf, state := [], AwaitingRequest;
      closeAfterFlush, writeBlocked, writableRegistered := false, false, false;
      received, reader, sawEnd, refused, broken := [], NEW_READER, false, false, false;
    }

    ghost function Now(): Feed
      reads this
    {
      Feed(received, readBuf, state, reader, closeAfterFlush, sawEnd, writeBlocked, writableRegistered, refused,
        broken)
    }

    predicate IsFollower()
      reads this
      ensures IsFollower() <==> Now().Follows()
    {
      state.Streaming? && state.sub.follow
    }

    /** Takes in what the socket had to read, and how the reading ended. */
    method Receive(arrivals: seq<seq<byte>>, end: Kernel.ReadEnd) returns (ok: bool)
      requires !broken
      modifies `readBuf, `received, `closeAfterFlush, `sawEnd, `broken
      ensures Now() == old(Now()).Read(arrivals, end) && (ok <==> !broken)
    {
      hide Flatten;
      ghost var got: seq<byte> := [];
      NothingYet<byte>();
      for i := 0 to |arrivals|
        invariant got == Flatten(arrivals[..i])
        invariant readBuf == old(readBuf) + got && received == old(received) + got
        invariant closeAfterFlush == old(closeAfterFlush) && sawEnd == old(sawEnd) && !broken
      {
        FlattenSnoc(arrivals[..i], arrivals[i]);
        assert arrivals[..i + 1] == arrivals[..i] + [arrivals[i]];
        readBuf := readBuf + arrivals[i];
        received := received + arrivals[i];
        got := got + arrivals[i];
      }
      assert arrivals[..|arrivals|] == arrivals;
      if end.EndOfStream? {
        closeAfterFlush := true;
        sawEnd := true;
      }
      if end.ReadFailed? {
        broken := true;
      }
      return !end.ReadFailed?;
    }

    /** Starts streaming once a whole request is buffered; an unknown name ends the connection.
        Says whether there is anything to send. */
    method ParseRequest(apps: seq<App>, ghost logs: seq<LogView>) returns (streaming: bool)
      requires Reflects(apps, logs) && state.AwaitingRequest?
      modifies `readBuf, `state, `closeAfterFlush
      ensures Now() == old(Now()).Ask(logs) && (streaming <==> state.Streaming?)
    {
      hide CircularBuffer.Valid;
      if |readBuf| < 2 {
        return false;
      }
      var n := 2 + readBuf[1] as int;
      if |readBuf| < n {
        return false;
      }
      var follow := readBuf[0] != 0;
      var name := readBuf[..n][2..];
      assert name == readBuf[2..n];
      readBuf := readBuf[n..];
      FindSame(apps, logs, name);
      var found := if name == [] then None else IndexOf(AppNames(apps), name);
      if found.None? {
        closeAfterFlush := true;
        return false;
      }
      var writePos := apps[found.value].log.WritePos();
      state := Streaming(Subscription(name, follow, 0, if follow then None else Some(writePos)));
      return true;
    }

    /** One look at the ring: skips what was overwritten and finds the next piece to send. */
    method Look(ring: CircularBuffer) returns (data: Option<seq<byte>>)
      requires ring.Valid() && state.Streaming? && reader.cursor == state.sub.cursor <= |ring.history|
      modifies `state, `reader
      ensures state == Streaming(old(state.sub).(cursor := reader.cursor))
      ensures reader == CatchUp(old(reader), |ring.history|, ring.capacity) && reader.cursor <= |ring.history|
      ensures data.None? ==> reader.cursor == |ring.history|
      ensures data.Some? ==>
                && data.value != [] && reader.cursor + |data.value| <= |ring.history|
                && data.value == ring.history[reader.cursor..reader.cursor + |data.value|]
    {
      var chunk := ring.ReadFromCursor(state.sub.cursor);
      state := Streaming(state.sub.(cursor := state.sub.cursor + chunk.missed));
      reader := CatchUp(reader, |ring.history|, ring.capacity);
      return chunk.buffer;
    }

    /** One write of the log's next bytes to the socket. */
    method WriteOut(data: seq<byte>, outlet: Kernel.Outlet, ghost log: seq<byte>, ghost capacity: nat)
      returns (r: SendStep, left: Kernel.Outlet)
      requires state.Streaming? && reader.cursor == state.sub.cursor
      requires data != [] && reader.cursor + |data| <= |log| && data == log[reader.cursor..reader.cursor + |data|]
      requires CatchUp(reader, |log|, capacity) == reader
      modifies `state, `reader
      ensures state == Streaming(old(state.sub).(cursor := reader.cursor)) && reader.cursor <= |log|
      ensures Served(reader, log, capacity, left) == Served(old(reader), log, capacity, outlet)
      ensures left.breaks == outlet.breaks && !r.AllSent?
      ensures if r.More? then reader.cursor > old(reader.cursor)
              else reader == old(reader) && left.room == Some(0) && (r.Broken? <==> outlet.breaks)
    {
      hide Served, Deliver, CatchUp;
      var written := Kernel.SocketWrite(data, outlet);
      left := outlet;
      match written {
        case Accepted(n) =>
          DeliverMoves(reader, log, n);
          ServedOn(reader, log, capacity, outlet, n);
          reader := Deliver(reader, log, n);
          state := Streaming(state.sub.(cursor := state.sub.cursor + n));
          return More, outlet.After(n);
        case WriteWouldBlock =>
          return Blocked, outlet;
        case WriteFailed =>
          return Broken, outlet;
      }
    }

    /** One look at the ring and, if there is anything to send, one write to the socket. */
    method SendChunk(ring: CircularBuffer, outlet: Kernel.Outlet) returns (r: SendStep, left: Kernel.Outlet)
      requires ring.Valid() && state.Streaming? && reader.cursor == state.sub.cursor <= |ring.history|
      modifies `state, `reader
      ensures state == Streaming(old(state.sub).(cursor := reader.cursor)) && reader.cursor <= |ring.history|
      ensures Served(reader, ring.history, ring.capacity, left)
              == Served(old(reader), ring.history, ring.capacity, outlet)
      ensures left.breaks == outlet.breaks
      ensures match r
              case More => reader.cursor > old(reader.cursor)
              case AllSent =>
                reader.cursor == |ring.history| && CatchUp(reader, |ring.history|, ring.capacity) == reader
              case _ =>
                && reader.cursor < |ring.history| && CatchUp(reader, |ring.history|, ring.capacity) == reader
                && left.room == Some(0) && (r.Broken? <==> outlet.breaks)
    {
      hide CircularBuffer.Valid, Served, CatchUp;
      LookAgain(reader, ring.history, ring.capacity);
      LookForward(reader, ring.history, ring.capacity);
      ServedFromThere(reader, ring.history, ring.capacity, outlet);
      var data := Look(ring);
      if data.None? {
        return AllSent, outlet;
      }
      r, left := WriteOut(data.value, outlet, ring.history, ring.capacity);
    }

    /** Alternates looking at the ring and writing to the socket, until all is sent or the socket takes
        no more. */
    method SendLog(ring: CircularBuffer, outlet: Kernel.Outlet) returns (ok: bool)
      requires ring.Valid() && state.Streaming? && reader.cursor == state.sub.cursor <= |ring.history| && !broken
      modifies `state, `writeBlocked, `reader, `broken
      ensures state == Streaming(old(state.sub).(cursor := reader.cursor)) && (ok <==> !broken)
      ensures reader == Served(old(reader), ring.history, ring.capacity, outlet)
      ensures broken <==> reader.cursor < |ring.history| && outlet.breaks
      ensures writeBlocked == if broken then old(writeBlocked) else reader.cursor < |ring.history|
    {
      hide CircularBuffer.Valid, Served, CatchUp;
      var step, left := More, outlet;
      while step.More?
        invariant state == Streaming(old(state.sub).(cursor := reader.cursor)) && reader.cursor <= |ring.history|
        invariant Served(reader, ring.history, ring.capacity, left)
                  == Served(old(reader), ring.history, ring.capacity, outlet)
        invariant left.breaks == outlet.breaks && !broken && writeBlocked == old(writeBlocked)
        invariant step.AllSent? ==> reader.cursor == |ring.history|
        invariant step.Blocked? || step.Broken? ==>
                    reader.cursor < |ring.history| && left.room == Some(0) && (step.Broken? <==> outlet.breaks)
        invariant !step.More? ==> CatchUp(reader, |ring.history|, ring.capacity) == reader
        decreases step.More?, |ring.history| - reader.cursor
      {
        step, left := SendChunk(ring, left);
      }
      NothingServed(reader, ring.history, ring.capacity, left);
      if step.Broken? {
        broken := true;
        return false;
      }
      writeBlocked := step.Blocked?;
      return true;
    }

    /** The streaming half of the server's sending: send, then mark a finished dump for closing. */
    method SendTo(ring: CircularBuffer, outlet: Kernel.Outlet, ghost logs: seq<LogView>) returns (ok: bool)
      requires ring.Valid() && !broken && Now().CanSend(logs) && reader.cursor == state.sub.cursor
      requires Now().Source(logs) == LogView(state.sub.name, ring.history, ring.capacity)
      modifies `state, `writeBlocked, `reader, `closeAfterFlush, `broken
      ensures Now() == old(Now()).Send(logs, outlet) && (ok <==> !broken)
    {
      hide CircularBuffer.Valid, Served;
      ok := SendLog(ring, outlet);
      if !ok {
        return;
      }
      if !writeBlocked && state.sub.dumpUntil.Some? {
        if state.sub.cursor >= state.sub.dumpUntil.value {
          closeAfterFlush := true;
        }
      }
    }

    /** The registered interest follows whether a write is blocked, if the system accepts the change. */
    method Reregister(accepts: bool)
      modifies `writableRegistered, `refused
      ensures Now() == old(Now()).Reregister(accepts)
    {
      refused := false;
      if writeBlocked != writableRegistered {
        if accepts {
          writableRegistered := writeBlocked;
        } else {
          refused := true;
        }
      }
    }
  }

  type Feeds = map<LogConnection, Feed>

  /** Every connection there was is still on record, and its reader has only gone on. */
  ghost predicate AllExtend(before: Feeds, after: Feeds) {
    forall c :: c in before ==> c in after && Extends(before[c].reader, after[c].reader)
  }

  lemma AllExtendSelf(feeds: Feeds)
    ensures AllExtend(feeds, feeds)
  {
  }

  lemma AllExtendTransitive(a: Feeds, b: Feeds, c: Feeds)
    requires AllExtend(a, b) && AllExtend(b, c)
    ensures AllExtend(a, c)
  {
    forall conn | conn in a ensures conn in c && Extends(a[conn].reader, c[conn].reader) {
      ExtendsTransitive(a[conn].reader, b[conn].reader, c[conn].reader);
    }
  }

  /** What pushing makes of a connection: a follower is sent what is new to it. */
  function Refreshed(f: Feed, logs: seq<LogView>, link: Kernel.Link): Feed {
    if f.Follows() then f.Finish(true, logs, link) else f
  }

  /** The state of pushing updates with the followers `todo` still to come: everyone else has had its
      turn with its own socket, and those who were dropped then, and nobody else, are gone. */
  ghost predicate Pushed(before: map<Token, LogConnection>, open: map<Token, LogConnection>, todo: set<Token>,
      feeds: Feeds, now: Feeds, logs: seq<LogView>, links: Token -> Kernel.Link)
  {
    && Kept(open, before) && feeds.Keys == now.Keys && todo <= open.Keys
    && (forall t :: t in before ==>
          && before[t] in feeds && (t in todo ==> feeds[before[t]].Follows())
          && now[before[t]] == (if t in todo then feeds[before[t]] else Refreshed(feeds[before[t]], logs, links(t)))
          && (t in open <==> t in todo || !feeds[before[t]].Follows() || !now[before[t]].Dropped()))
    && (forall c :: c in feeds && c !in before.Values ==> now[c] == feeds[c])
  }

  /** Connections on record, each filed under its own token and between events. */
  ghost predicate InOrder(open: map<Token, LogConnection>, feeds: Feeds, logs: seq<LogView>) {
    forall t :: t in open ==> open[t].token == t && open[t] in feeds && feeds[open[t]].Orderly(logs)
  }

  lemma PushBegins(open: map<Token, LogConnection>, todo: set<Token>, feeds: Feeds, logs: seq<LogView>,
      links: Token -> Kernel.Link)
    requires todo <= open.Keys
    requires forall t :: t in open ==> open[t] in feeds && (t in todo <==> feeds[open[t]].Follows())
    ensures Pushed(open, open, todo, feeds, feeds, logs, links)
  {
  }

  /** A follower whose turn is still to come is as it was. */
  lemma PushTurn(before: map<Token, LogConnection>, open: map<Token, LogConnection>, todo: set<Token>, token: Token,
      feeds: Feeds, now: Feeds, logs: seq<LogView>, links: Token -> Kernel.Link)
    requires Pushed(before, open, todo, feeds, now, logs, links) && token in todo && InOrder(before, feeds, logs)
    ensures token in open && token in before && before[token] == open[token]
    ensures open[token] in feeds && open[token] in now
    ensures now[open[token]] == feeds[open[token]] && now[open[token]].Orderly(logs)
  {
    hide Feed.Finish, Feed.Dropped, Feed.Follows, Feed.Orderly;
  }

  /** The turn of one more follower. */
  lemma PushGoesOn(before: map<Token, LogConnection>, open: map<Token, LogConnection>, next: map<Token, LogConnection>,
      todo: set<Token>, token: Token, feeds: Feeds, now: Feeds, after: Feeds, logs: seq<LogView>,
      links: Token -> Kernel.Link)
    requires Pushed(before, open, todo, feeds, now, logs, links) && token in todo && InOrder(before, feeds, logs)
    requires token in open && open[token] in now
    requires var f := now[open[token]].Finish(true, logs, links(token));
             && after == now[open[token] := f]
             && next == if f.Dropped() then open - {token} else open
    ensures Pushed(before, next, todo - {token}, feeds, after, logs, links)
  {
    hide Feed.Finish, Feed.Dropped, Feed.Follows, Feed.Orderly;
    assert token in before && before[token] == open[token];
    assert open[token] in before.Values;
  }

  /** Pushing never takes back what a reader has seen. */
  lemma PushedExtends(before: map<Token, LogConnection>, open: map<Token, LogConnection>, feeds: Feeds, now: Feeds,
      logs: seq<LogView>, links: Token -> Kernel.Link)
    requires Pushed(before, open, {}, feeds, now, logs, links) && InOrder(before, feeds, logs)
    ensures AllExtend(feeds, now)
  {
    hide Feed.Orderly, Feed.Finish, Extends;
    forall c | c in feeds ensures Extends(feeds[c].reader, now[c].reader) {
      ExtendsSelf(feeds[c].reader);
      if t :| t in before && before[t] == c {
        PushedInOrder(feeds[c], logs, links(t));
      }
    }
  }

  /** After a push no connection is stuck, and none is left without the interest it wants unless the
      system refused that just now. */
  lemma PushedSettles(before: map<Token, LogConnection>, open: map<Token, LogConnection>, feeds: Feeds, now: Feeds,
      logs: seq<LogView>, links: Token -> Kernel.Link, t: Token)
    requires Pushed(before, open, {}, feeds, now, logs, links) && InOrder(before, feeds, logs) && t in open
    ensures open[t] in now && now[open[t]].Settled(logs)
    ensures now[open[t]].Follows() && now[open[t]].refused ==> !links(t).accepts
  {
    hide Feed.Orderly, Feed.Finish, Feed.Settled;
    assert t in before && before[t] == open[t];
    var f := feeds[open[t]];
    if f.Follows() {
      PushedInOrder(f, logs, links(t));
    } else {
      OthersAreSettled(f, logs);
    }
  }

  /** A push leaves nobody without an interest if the system accepts them all. */
  lemma PushRefuses(before: map<Token, LogConnection>, open: map<Token, LogConnection>, feeds: Feeds, now: Feeds,
      logs: seq<LogView>, links: Token -> Kernel.Link, t: Token)
    requires Pushed(before, open, {}, feeds, now, logs, links) && InOrder(before, feeds, logs) && t in open
    requires t in before && before[t] in feeds && !feeds[before[t]].refused && links(t).accepts
    ensures open[t] in now && !now[open[t]].refused
  {
    hide Feed.Orderly, Feed.Finish, Feed.Settled, Feed.Follows;
    PushedInOrder(feeds[before[t]], logs, links(t));
  }

  class LogServer {
    var connections: map<Token, LogConnection>
    const maxConnections: nat
    /** The connection objects ever created. */
    ghost var repr: set<LogConnection>

    constructor (maxConnections: nat)
      ensures connections == map[] && repr == {} && this.maxConnections == maxConnections
    {
      connections, repr, this.maxConnections := map[], {}, maxConnections;
    }

    /** Every connection is filed under its own token. */
    ghost predicate Filed()
      reads this, repr
    {
      forall t :: t in connections ==> connections[t] in repr && connections[t].token == t
    }

    /** All connections but perhaps one are between events. */
    ghost predicate OrderlyBut(logs: seq<LogView>, token: Token)
      reads this, repr
    {
      Filed() && forall t :: t in connections && t != token ==> connections[t].Now().Orderly(logs)
    }

    /** All connections are between events. */
    ghost predicate AllOrderly(logs: seq<LogView>)
      reads this, repr
    {
      Filed() && forall t :: t in connections ==> connections[t].Now().Orderly(logs)
    }

    /** When logs grow, all connections stay in order. */
    lemma AllOrderlyGrows(before: seq<LogView>, after: seq<LogView>)
      requires AllOrderly(before) && Grown(before, after)
      ensures AllOrderly(after)
    {
      hide Feed.Orderly, Grown;
      forall t | t in connections ensures connections[t].Now().Orderly(after) {
        OrderlyGrows(connections[t].Now(), before, after);
      }
    }

    lemma BackInOrder(logs: seq<LogView>, token: Token)
      requires OrderlyBut(logs, token) && (token in connections ==> connections[token].Now().Orderly(logs))
      ensures AllOrderly(logs)
    {
      hide Feed.Orderly;
    }

    predicate IsKnown(token: Token)
      reads this
    {
      token in connections
    }

    /** Files a new connection under its token. */
    method File(conn: LogConnection)
      requires conn.token !in connections
      modifies this
      ensures connections == old(connections)[conn.token := conn]
      ensures connections.Keys == old(connections).Keys + {conn.token} && |connections| == |old(connections)| + 1
      ensures repr == old(repr) + {conn}
    {
      connections := connections[conn.token := conn];
      repr := repr + {conn};
    }

    ghost function RoomIn(slab: MioTokenSlab): (room: Room)
      reads this, slab
      ensures room.connected == |connections| && room.pool == slab.Now()
    {
      Room(|connections|, slab.Now())
    }

    /** The connections ever created. */
    ghost function Feeds(): (feeds: Feeds)
      reads this, repr
      ensures feeds.Keys == repr && forall c :: c in repr ==> feeds[c] == c.Now()
    {
      map c | c in repr :: c.Now()
    }

    /** Takes in one connection, unless there are too many or no token is left; if its socket cannot be
        registered that is an error and leaks the token. */
    method AcceptOne(registers: bool, slab: MioTokenSlab) returns (ok: bool, ghost added: LogConnection?)
      requires slab.Valid() && ConnClaims(slab.owner, connections.Keys, LogConn)
      modifies this, slab
      ensures slab.Valid() && ConnClaims(slab.owner, connections.Keys, LogConn)
      ensures OthersKept(old(slab.owner), slab.owner, LogParty)
      ensures RoomIn(slab) == Admission([registers], maxConnections, old(RoomIn(slab)))
      ensures ok <==> Admitted([registers], maxConnections, old(RoomIn(slab)))
      ensures added == null ==> connections == old(connections) && repr == old(repr)
      ensures added != null ==>
                && fresh(added) && added.Now() == NEW_FEED && added.token !in old(connections)
                && connections == old(connections)[added.token := added] && repr == old(repr) + {added}
    {
      hide ConnClaims, OthersKept, LeakedTokens, MioTokenSlab.Valid, MioTokenSlab.Now, Admission, Admitted;
      OthersKeptSelf(slab.owner, LogParty);
      AdmissionOfOne(registers, maxConnections, RoomIn(slab));
      added, ok := null, true;
      if |connections| < maxConnections {
        var token;
        token, ok := RegisterConnection(slab, registers, connections.Keys, LogConn, LogParty);
        if token.Some? {
          var conn := new LogConnection(token.value);
          added := conn;
          File(conn);
        }
      }
    }

    /** The connections of `before` are all still there, and any other is new. */
    ghost predicate AllNew(before: map<Token, LogConnection>)
      reads this, repr
    {
      && Kept(before, connections)
      && forall t :: t in connections && t !in before ==> connections[t] in repr && connections[t].Now() == NEW_FEED
    }

    /** New connections are in order. */
    lemma StillOrderly(before: map<Token, LogConnection>, logs: seq<LogView>)
      requires Filed() && AllNew(before)
      requires forall t :: t in before ==> before[t].Now().Orderly(logs)
      ensures AllOrderly(logs)
    {
      hide LogConnection.Now, Feed.Orderly;
      NewIsOrderly(logs);
    }

    lemma AreNew(before: map<Token, LogConnection>)
      requires AllNew(before)
      ensures Kept(before, connections)
      ensures forall t :: t in connections && t !in before ==>
                connections[t] in Feeds() && Feeds()[connections[t]] == NEW_FEED
    {
      hide LogConnection.Now;
    }

    lemma NobodyNew()
      ensures AllNew(connections)
    {
    }

    /** Takes in the next connection; all the others stay as they are. */
    method AcceptNext(registers: bool, ghost before: map<Token, LogConnection>, slab: MioTokenSlab)
      returns (ok: bool)
      requires Filed() && AllNew(before)
      requires slab.Valid() && ConnClaims(slab.owner, connections.Keys, LogConn)
      modifies this, slab
      ensures Filed() && AllNew(before)
      ensures slab.Valid() && ConnClaims(slab.owner, connections.Keys, LogConn)
      ensures OthersKept(old(slab.owner), slab.owner, LogParty)
      ensures RoomIn(slab) == Admission([registers], maxConnections, old(RoomIn(slab)))
      ensures ok <==> Admitted([registers], maxConnections, old(RoomIn(slab)))
      ensures old(repr) <= repr && fresh(repr - old(repr))
    {
      hide ConnClaims, OthersKept, LeakedTokens, MioTokenSlab.Valid, MioTokenSlab.Now, Admission,
        Admitted, LogServer.RoomIn, LogConnection.Now;
      ghost var olds := connections;
      ghost var conn;
      ok, conn := AcceptOne(registers, slab);
      assert forall t :: t in connections ==>
          (conn != null && t == conn.token) || (t in olds && connections[t] == olds[t]);
    }

    /** A round of taking in connections, for each of which the system says whether its socket can be
        registered. */
    method AcceptAll(pending: seq<bool>, slab: MioTokenSlab, ghost logs: seq<LogView>) returns (ok: bool)
      requires AllOrderly(logs)
      requires slab.Valid() && ConnClaims(slab.owner, connections.Keys, LogConn)
      modifies this, slab
      ensures AllOrderly(logs)
      ensures slab.Valid() && ConnClaims(slab.owner, connections.Keys, LogConn)
      ensures OthersKept(old(slab.owner), slab.owner, LogParty)
      ensures RoomIn(slab) == Admission(pending, maxConnections, old(RoomIn(slab)))
      ensures ok <==> Admitted(pending, maxConnections, old(RoomIn(slab)))
      ensures AllNew(old(connections))
      ensures Kept(old(Feeds()), Feeds())
      ensures old(repr) <= repr && fresh(repr - old(repr))
    {
      hide ConnClaims, OthersKept, MioTokenSlab.Valid, MioTokenSlab.Now, Admission, Admitted,
        LogServer.RoomIn, LogServer.AllNew, LogConnection.Now, Feed.Orderly;
      NobodyNew();
      OthersKeptSelf(slab.owner, LogParty);
      ghost var before, room := connections, RoomIn(slab);
      AdmissionBegins(pending, maxConnections, room);
      for i := 0 to |pending|
        invariant Filed()
        invariant slab.Valid() && ConnClaims(slab.owner, connections.Keys, LogConn)
        invariant OthersKept(old(slab.owner), slab.owner, LogParty)
        invariant RoomIn(slab) == Admission(pending[..i], maxConnections, room)
        invariant Admitted(pending[..i], maxConnections, room)
        invariant AllNew(before)
        invariant old(repr) <= repr && fresh(repr - old(repr))
      {
        ghost var ledger := slab.owner;
        ok := AcceptNext(pending[i], before, slab);
        AdmissionGoesOn(pending, i, maxConnections, room);
        OthersKeptTransitive(old(slab.owner), ledger, slab.owner, LogParty);
        if !ok {
          AdmissionEnds(pending, i + 1, maxConnections, room);
          StillOrderly(before, logs);
          return;
        }
      }
      assert pending[..|pending|] == pending;
      StillOrderly(before, logs);
      return true;
    }

    /** Sends a connection what its app's ring holds for it, as far as its socket takes it. */
    method TrySend(token: Token, outlet: Kernel.Outlet, apps: seq<App>, ghost logs: seq<LogView>) returns (ok: bool)
      requires Reflects(apps, logs)
      requires token in connections ==> connections[token].Now().Sound(logs) && !connections[token].Now().broken
      modifies if token in connections then {connections[token]} else {}
      ensures token in connections ==>
                var conn := connections[token];
                conn.Now() == old(conn.Now()).Send(logs, outlet) && (ok <==> !conn.Now().broken)
    {
      hide Faithful, CircularBuffer.Valid, Take, Feed.Send;
      if token !in connections {
        return true;
      }
      var conn := connections[token];
      if conn.state.AwaitingRequest? {
        NothingToSend(conn.Now(), logs, outlet);
        return true;
      }
      FindSame(apps, logs, conn.state.sub.name);
      ok := conn.SendTo(apps[IndexOf(AppNames(apps), conn.state.sub.name).value].log, outlet, logs);
    }

    /** The readable half of an event. A connection still without a request may get one this way, and
        then has its first bytes sent to it at once. */
    method HandleReadable(token: Token, arrivals: seq<seq<byte>>, end: Kernel.ReadEnd, outlet: Kernel.Outlet,
        apps: seq<App>, ghost logs: seq<LogView>)
      returns (ok: bool)
      requires Reflects(apps, logs)
      requires token in connections ==> connections[token].Now().Orderly(logs)
      modifies if token in connections then {connections[token]} else {}
      ensures token in connections ==>
                var conn := connections[token];
                && conn.Now() == old(conn.Now()).ReadHalf(arrivals, end, logs, outlet)
                && (ok <==> !conn.Now().broken)
    {
      hide Flatten, Feed.Sound, Feed.Ask, Feed.Send, Take;
      if token !in connections {
        return true;
      }
      var conn := connections[token];
      ghost var was := conn.Now();
      ok := conn.Receive(arrivals, end);
      if !ok {
        return;
      }
      AskSound(was, logs, arrivals, end);
      AskedTwice(conn.Now(), logs);
      if conn.state.AwaitingRequest? {
        var streaming := conn.ParseRequest(apps, logs);
        if !streaming {
          NothingToSend(conn.Now(), logs, outlet);
          return true;
        }
      }
      ok := TrySend(token, outlet, apps, logs);
    }

    /** A writable event: sends on. */
    method HandleWritable(token: Token, outlet: Kernel.Outlet, apps: seq<App>, ghost logs: seq<LogView>)
      returns (ok: bool)
      requires Reflects(apps, logs)
      requires token in connections ==> connections[token].Now().Sound(logs) && !connections[token].Now().broken
      modifies if token in connections then {connections[token]} else {}
      ensures token in connections ==>
                var conn := connections[token];
                conn.Now() == old(conn.Now()).Send(logs, outlet) && (ok <==> !conn.Now().broken)
    {
      ok := TrySend(token, outlet, apps, logs);
    }

    /** Drops a connection and returns its token. */
    method Close(token: Token, slab: MioTokenSlab, ghost logs: seq<LogView>)
      requires slab.Valid() && ConnClaims(slab.owner, connections.Keys, LogConn)
      modifies this, slab
      ensures connections == old(connections) - {token} && repr == old(repr)
      ensures old(OrderlyBut(logs, token)) ==> AllOrderly(logs)
      ensures slab.Valid() && ConnClaims(slab.owner, connections.Keys, LogConn)
      ensures OthersKept(old(slab.owner), slab.owner, LogParty)
      ensures (if token in old(connections) then slab.Now().Take(1) else slab.Now()) == old(slab.Now())
    {
      hide Feed.Orderly, LogConnection.Now, ConnClaims, OthersKept, LeakedTokens, MioTokenSlab.Valid;
      OthersKeptSelf(slab.owner, LogParty);
      ghost var before := connections;
      if token in connections {
        ClaimDropped(slab.owner, connections.Keys, token, LogConn, LogParty);
        connections := connections - {token};
        assert connections.Keys == before.Keys - {token};
        slab.Free(token);
      } else {
        assert connections == before - {token};
      }
    }

    /** What follows an event: the end of a connection that is over, or new interest. */
    method Reconcile(token: Token, accepts: bool, slab: MioTokenSlab, ghost logs: seq<LogView>)
      requires slab.Valid() && ConnClaims(slab.owner, connections.Keys, LogConn)
      modifies this, slab
      modifies if token in connections then {connections[token]} else {}
      ensures old(OrderlyBut(logs, token)) ==> OrderlyBut(logs, token)
      ensures slab.Valid() && ConnClaims(slab.owner, connections.Keys, LogConn)
      ensures OthersKept(old(slab.owner), slab.owner, LogParty)
      ensures repr == old(repr)
      ensures token in old(connections) ==>
                var conn, before := old(connections)[token], old(connections[token].Now());
                if before.Over() then
                  && connections == old(connections) - {token} && conn.Now() == before
                  && slab.Now().Take(1) == old(slab.Now())
                else
                  && connections == old(connections) && conn.Now() == before.Reregister(accepts)
                  && slab.Now() == old(slab.Now())
      ensures token !in old(connections) ==> connections == old(connections) && slab.Now() == old(slab.Now())
    {
      hide Feed.Orderly, ConnClaims, OthersKept, LeakedTokens, MioTokenSlab.Valid;
      OthersKeptSelf(slab.owner, LogParty);
      if token !in connections {
        return;
      }
      var conn := connections[token];
      if conn.closeAfterFlush && !conn.writeBlocked {
        Close(token, slab, logs);
        return;
      }
      conn.Reregister(accepts);
    }

    lemma AreInOrder(logs: seq<LogView>)
      ensures AllOrderly(logs) <==> Filed() && InOrder(connections, Feeds(), logs)
    {
      hide Feed.Orderly;
    }

    /** One follower's turn. */
    method PushOne(token: Token, link: Kernel.Link, apps: seq<App>, slab: MioTokenSlab, ghost logs: seq<LogView>)
      requires Reflects(apps, logs) && token in connections && connections[token].Now().Orderly(logs)
      requires slab.Valid() && ConnClaims(slab.owner, connections.Keys, LogConn)
      modifies this, connections[token], slab
      ensures repr == old(repr)
      ensures var conn, f := old(connections)[token], old(connections[token].Now()).Finish(true, logs, link);
              && conn.Now() == f
              && connections == if f.Dropped() then old(connections) - {token} else old(connections)
      ensures slab.Valid() && ConnClaims(slab.owner, connections.Keys, LogConn)
      ensures OthersKept(old(slab.owner), slab.owner, LogParty)
      ensures slab.Now().lost == old(slab.Now().lost)
    {
      hide ConnClaims, OthersKept, MioTokenSlab.Valid, MioTokenSlab.Now, Reflects, Feed.Sound, Feed.Send, Feed.Orderly,
        LogConnection.Now, Feed.Over, Feed.Reregister;
      OrderlyIsSound(connections[token].Now(), logs);
      var ok := TrySend(token, link.outlet, apps, logs);
      if !ok {
        Close(token, slab, logs);
        return;
      }
      Reconcile(token, link.accepts, slab, logs);
    }

    /** The same, on record. */
    method RecordPush(token: Token, link: Kernel.Link, apps: seq<App>, slab: MioTokenSlab, ghost logs: seq<LogView>)
      requires Reflects(apps, logs) && Filed() && token in connections && connections[token].Now().Orderly(logs)
      requires slab.Valid() && ConnClaims(slab.owner, connections.Keys, LogConn)
      modifies this, connections[token], slab
      ensures Filed() && repr == old(repr)
      ensures var conn, f := old(connections)[token], old(connections[token].Now()).Finish(true, logs, link);
              && conn in old(Feeds()) && Feeds() == old(Feeds())[conn := f]
              && connections == if f.Dropped() then old(connections) - {token} else old(connections)
      ensures slab.Valid() && ConnClaims(slab.owner, connections.Keys, LogConn)
      ensures OthersKept(old(slab.owner), slab.owner, LogParty)
      ensures slab.Now().lost == old(slab.Now().lost)
    {
      hide ConnClaims, OthersKept, MioTokenSlab.Valid, MioTokenSlab.Now, Reflects, Feed.Orderly, Feed.Finish,
        Feed.Dropped,
        LogConnection.Now;
      PushOne(token, link, apps, slab, logs);
    }

    /** Pushes what the apps have produced to every follower, each with its own socket. */
    method PushUpdates(links: Token -> Kernel.Link, apps: seq<App>, slab: MioTokenSlab, ghost logs: seq<LogView>)
      requires Reflects(apps, logs) && AllOrderly(logs)
      requires slab.Valid() && ConnClaims(slab.owner, connections.Keys, LogConn)
      modifies this, repr, slab
      ensures AllOrderly(logs) && repr == old(repr)
      ensures Pushed(old(connections), connections, {}, old(Feeds()), Feeds(), logs, links)
      ensures slab.Valid() && ConnClaims(slab.owner, connections.Keys, LogConn)
      ensures OthersKept(old(slab.owner), slab.owner, LogParty)
      ensures slab.Now().lost == old(slab.Now().lost)
    {
      hide Feed.Orderly, Feed.Finish, ConnClaims, OthersKept, MioTokenSlab.Valid, MioTokenSlab.Now, Reflects,
        Pushed, Feed.Dropped, LogConnection.Now, Feed.Follows, InOrder;
      OthersKeptSelf(slab.owner, LogParty);
      ghost var before, feeds := connections, Feeds();
      var todo := set t | t in connections && connections[t].IsFollower();
      AreInOrder(logs);
      PushBegins(connections, todo, feeds, logs, links);
      while todo != {}
        invariant Filed() && repr == old(repr)
        invariant slab.Valid() && ConnClaims(slab.owner, connections.Keys, LogConn)
        invariant OthersKept(old(slab.owner), slab.owner, LogParty)
        invariant slab.Now().lost == old(slab.Now().lost)
        invariant Pushed(before, connections, todo, feeds, Feeds(), logs, links)
        decreases todo
      {
        var token :| token in todo;
        ghost var ledger, nowOpen, nowFeeds := slab.owner, connections, Feeds();
        PushTurn(before, nowOpen, todo, token, feeds, nowFeeds, logs, links);
        RecordPush(token, links(token), apps, slab, logs);
        OthersKeptTransitive(old(slab.owner), ledger, slab.owner, LogParty);
        PushGoesOn(before, nowOpen, connections, todo, token, feeds, nowFeeds, Feeds(), logs, links);
        todo := todo - {token};
      }
      forall t | t in connections ensures connections[t].Now().Orderly(logs) {
        PushedSettles(before, connections, feeds, Feeds(), logs, links, t);
        SettledIsOrderly(connections[t].Now(), logs);
      }
    }
  }
}
