/** What the log socket comes to, written out in bytes and numbers: requests, and how streams go on. */
module DaemonStreams {
  import opened Basics
  import opened Apps
  import opened LogReader
  import LogWire
  import opened LogIpc
  import opened ControlIpc
  import opened DaemonSteps
  import opened DaemonService
  import opened DaemonEvents
  import Kernel

  // Requests

  lemma LogsAreFound(setup: Setup, w: World, name: seq<byte>)
    requires |w.apps| == |setup.names| == |setup.rings|
    ensures FindLog(LogsIn(setup, w), name) == IndexOf(setup.names, name)
  {
    assert LogNames(LogsIn(setup, w)) == setup.names;
  }

  lemma RequestInBytes(data: seq<byte>, flag: byte, name: seq<byte>)
    requires |name| < 256 && data == [flag, |name| as byte] + name
    ensures LogWire.Take(data) == LogWire.Parsed(LogWire.Request(flag != 0, name), [])
  {
    assert data[2..] == name && data[2 + |name|..] == [];
  }

  /** A log connection whose request has come in full, in however many pieces: a flag, the length of a name,
      and the name. If its socket takes everything it has then been sent the last `rings[i]` bytes of the log
      of the app at position `i`, the first with that name, and stays exactly if the flag is not 0 and its
      peer has not finished. */
  lemma LogIsSent(setup: Setup, w: World, ev: IoEvent, after: World, flag: byte, name: Name, i: nat)
    requires SoundWorld(setup, w) && EventStep(setup, w, ev, after) && ev.token in w.logs
    requires ev.readable && !ev.end.ReadFailed? && ev.outlet.room.None?
    requires w.logs[ev.token] in w.feeds && w.feeds[w.logs[ev.token]].state.AwaitingRequest?
    requires 0 < |name| < 256
    requires w.feeds[w.logs[ev.token]].received + Flatten(ev.arrivals) == [flag, |name| as byte] + name
    requires i < |setup.names| && setup.names[i] == name && name !in setup.names[..i]
    ensures |w.apps| == |setup.names| == |setup.rings|
    ensures var c, log, capacity := w.logs[ev.token], w.apps[i].log, setup.rings[i];
            && c in after.feeds && !after.feeds[c].broken
            && after.feeds[c].reader.delivered == (if |log| <= capacity then log else log[|log| - capacity..])
            && (ev.token in after.logs <==> flag != 0 && !ev.end.EndOfStream?)
  {
    hide EventStep, Flatten, SoundSnapshot, TokensApart, SessionsInOrder, InOrder, LogsIn, FindLog, LogWire.Take;
    var data := w.feeds[w.logs[ev.token]].received + Flatten(ev.arrivals);
    RequestInBytes(data, flag, name);
    LogRequestIsAnswered(setup, w, ev, after);
    IndexIs(setup.names, name, i);
    LogsAreFound(setup, w, name);
  }

  /** If nobody has the name, or there is none, nothing is sent and the connection is dropped. */
  lemma UnknownLogIsRefused(setup: Setup, w: World, ev: IoEvent, after: World, flag: byte, name: Name)
    requires SoundWorld(setup, w) && EventStep(setup, w, ev, after) && ev.token in w.logs
    requires ev.readable && !ev.end.ReadFailed? && ev.outlet.room.None?
    requires w.logs[ev.token] in w.feeds && w.feeds[w.logs[ev.token]].state.AwaitingRequest?
    requires |name| < 256
    requires w.feeds[w.logs[ev.token]].received + Flatten(ev.arrivals) == [flag, |name| as byte] + name
    requires name == [] || name !in setup.names
    ensures w.logs[ev.token] in after.feeds && after.feeds[w.logs[ev.token]].reader.delivered == []
    ensures ev.token !in after.logs
  {
    hide EventStep, Flatten, SoundSnapshot, TokensApart, SessionsInOrder, InOrder, LogsIn, FindLog, LogWire.Take;
    var data := w.feeds[w.logs[ev.token]].received + Flatten(ev.arrivals);
    RequestInBytes(data, flag, name);
    LogRequestIsAnswered(setup, w, ev, after);
    LogsAreFound(setup, w, name);
  }

  lemma SourceAt(f: Feed, logs: seq<LogView>, i: nat)
    requires f.state.Streaming? && i < |logs| && logs[i].name == f.state.sub.name
    requires (forall j :: 0 <= j < i ==> logs[j].name != logs[i].name) && f.reader.cursor <= |logs[i].history|
    ensures f.CanSend(logs) && f.Source(logs) == logs[i]
  {
    IndexIs(LogNames(logs), f.state.sub.name, i);
  }

  lemma ServedInNumbers(r: Reader, log: seq<byte>, capacity: nat, outlet: Kernel.Outlet)
    requires r.cursor <= |log|
    ensures var after := LogReader.Served(r, log, capacity, outlet);
            var start := if |log| - r.cursor <= capacity then r.cursor else |log| - capacity;
            var n := Takable(|log| - start, outlet);
            && after.delivered == r.delivered + log[start..start + n] && after.cursor == start + n
            && (forall k :: k in after.skipped <==> k in r.skipped || r.cursor <= k < start)
  {
  }

  /** A stream goes on, in numbers: it jumps to the oldest byte retained if it is behind that, and from there
      is sent as much as the socket takes. It is blocked, or has failed if the socket breaks, exactly if that
      is not all there is; a dump is to be closed once it has been sent all there is. */
  lemma StreamGoesOn(f: Feed, logs: seq<LogView>, outlet: Kernel.Outlet, i: nat)
    requires f.state.Streaming? && i < |logs| && logs[i].name == f.state.sub.name
    requires (forall j :: 0 <= j < i ==> logs[j].name != logs[i].name) && f.reader.cursor <= |logs[i].history|
    ensures var after, from, log := f.Send(logs, outlet), f.reader.cursor, logs[i].history;
            var start := if |log| - from <= logs[i].capacity then from else |log| - logs[i].capacity;
            var n := Takable(|log| - start, outlet);
            && after.reader.delivered == f.reader.delivered + log[start..start + n]
            && after.reader.cursor == start + n && after.state == Streaming(f.state.sub.(cursor := start + n))
            && (forall k :: k in after.reader.skipped <==> k in f.reader.skipped || from <= k < start)
            && (after.broken <==> f.broken || (start + n < |log| && outlet.breaks))
            && (!(start + n < |log| && outlet.breaks) ==>
                  && (after.blocked <==> start + n < |log|)
                  && (after.closing <==> f.closing || (start + n == |log| && f.state.sub.dumpUntil.Some?
                                                       && f.state.sub.dumpUntil.value <= |log|)))
  {
    hide LogReader.Served, Takable, Feed.CanSend, Feed.Source;
    SourceAt(f, logs, i);
    ServedInNumbers(f.reader, logs[i].history, logs[i].capacity, outlet);
  }

  // Streams

  lemma FinishSendsOn(f: Feed, logs: seq<LogView>, link: Kernel.Link)
    ensures var sent, after := f.Send(logs, link.outlet), f.Finish(true, logs, link);
            && after.reader == sent.reader && after.broken == sent.broken && after.blocked == sent.blocked
            && after.Dropped() == sent.Dropped()
  {
    hide Feed.Send;
  }

  lemma StreamIsSound(f: Feed, logs: seq<LogView>, i: nat)
    requires f.Orderly(logs) && f.state.Streaming? && i < |logs| && logs[i].name == f.state.sub.name
    requires forall j :: 0 <= j < i ==> logs[j].name != logs[i].name
    ensures f.reader.cursor <= |logs[i].history| && !f.broken
    ensures f.state.sub.follow ==> f.state.sub.dumpUntil.None?
  {
    IndexIs(LogNames(logs), f.state.sub.name, i);
  }

  lemma LogIsReached(setup: Setup, w: World, ev: IoEvent, after: World)
    requires SoundWorld(setup, w) && EventStep(setup, w, ev, after) && ev.token in w.logs
    ensures |w.apps| == |setup.names| == |setup.rings| && after.apps == w.apps
    ensures w.logs[ev.token] in w.feeds && w.logs[ev.token] in after.feeds
    ensures var f, g := w.feeds[w.logs[ev.token]], after.feeds[w.logs[ev.token]];
            && f.Orderly(LogsIn(setup, w)) && g == FeedAfter(f, ev, LogsIn(setup, w))
            && (ev.token !in after.logs <==> g.Dropped())
  {
    hide SoundSnapshot, TokensApart, SessionsInOrder, FeedAfter, Feed.Orderly, Feed.Dropped, LogsIn;
    LogIsNotReserved(w, ev.token);
  }

  lemma AwaitingIsNew(f: Feed, logs: seq<LogView>)
    requires f.Orderly(logs) && f.state.AwaitingRequest?
    ensures !f.closing && !f.blocked && !f.broken && f.reader == NEW_READER && f.received == f.buf
  {
  }

  lemma RestIsAwaited(f: Feed, logs: seq<LogView>, ev: IoEvent)
    requires f.state.AwaitingRequest? && !f.closing && !f.blocked && !f.broken && ev.readable
    requires LogWire.Take(f.buf + Flatten(ev.arrivals)).Partial?
    ensures var g := FeedAfter(f, ev, logs);
            && g.received == f.received + Flatten(ev.arrivals) && g.reader == f.reader
            && (g.Dropped() <==> !ev.end.WouldBlock?)
  {
    hide LogWire.Take, Flatten;
    var read := f.Read(ev.arrivals, ev.end);
    NothingToSend(read, logs, ev.outlet);
    NothingToSend(read, logs, ev.link.outlet);
  }

  /** As long as a request is not there in full, nothing is sent. The connection waits for the rest, unless its
      peer has finished or reading from it fails. */
  lemma PartOfALogRequestWaits(setup: Setup, w: World, ev: IoEvent, after: World, data: seq<byte>)
    requires SoundWorld(setup, w) && EventStep(setup, w, ev, after) && ev.token in w.logs && ev.readable
    requires w.logs[ev.token] in w.feeds && w.feeds[w.logs[ev.token]].state.AwaitingRequest?
    requires data == w.feeds[w.logs[ev.token]].received + Flatten(ev.arrivals)
    requires |data| < 2 || |data| < 2 + data[1] as int
    ensures w.logs[ev.token] in after.feeds && after.feeds[w.logs[ev.token]].received == data
    ensures after.feeds[w.logs[ev.token]].reader.delivered == []
    ensures ev.token in after.logs <==> ev.end.WouldBlock?
  {
    hide SoundWorld, EventStep, Flatten, FeedAfter, Feed.Orderly, Feed.Dropped, LogsIn;
    LogIsReached(setup, w, ev, after);
    AwaitingIsNew(w.feeds[w.logs[ev.token]], LogsIn(setup, w));
    RestIsAwaited(w.feeds[w.logs[ev.token]], LogsIn(setup, w), ev);
  }

  lemma RequestIsTaken(f: Feed, logs: seq<LogView>, ev: IoEvent, flag: byte, name: seq<byte>, i: nat)
    requires f.state.AwaitingRequest? && !f.closing && !f.blocked && !f.broken && !ev.end.ReadFailed?
    requires 0 < |name| < 256 && f.buf + Flatten(ev.arrivals) == [flag, |name| as byte] + name
    requires i < |logs| && logs[i].name == name && forall j :: 0 <= j < i ==> logs[j].name != logs[i].name
    ensures var asked := f.Read(ev.arrivals, ev.end).Ask(logs);
            && asked.state.Streaming? && asked.state.sub.name == name && asked.state.sub.cursor == 0
            && (asked.state.sub.follow <==> flag != 0)
            && asked.state.sub.dumpUntil == (if flag != 0 then None else Some(|logs[i].history|))
            && asked.reader == f.reader && !asked.broken && (asked.closing <==> ev.end.EndOfStream?)
  {
    hide Flatten, LogWire.Take;
    RequestInBytes(f.buf + Flatten(ev.arrivals), flag, name);
    IndexIs(LogNames(logs), name, i);
  }

  lemma AskKeeps(f: Feed, logs: seq<LogView>)
    ensures f.Ask(logs).broken == f.broken
  {
  }

  lemma NotWritable(f: Feed, ev: IoEvent, logs: seq<LogView>)
    requires ev.readable && !ev.writable && !ev.end.ReadFailed? && !f.broken
    ensures var sent, g := f.Read(ev.arrivals, ev.end).Ask(logs).Send(logs, ev.outlet), FeedAfter(f, ev, logs);
            g.reader == sent.reader && (g.Dropped() <==> sent.Dropped())
  {
    hide Flatten, Feed.Ask, Feed.Send;
    AskKeeps(f.Read(ev.arrivals, ev.end), logs);
  }

  /** A readable or a writable event sends a stream on, from where it was or from the oldest byte retained, as
      far as the socket takes it; what comes in on it does not matter. The connection is dropped if that was
      not all and the socket breaks; or if it was all, and the stream is a dump that has passed the end its log
      had when it was asked for, or the peer has finished or had before. */
  lemma StreamIsSentOn(setup: Setup, w: World, ev: IoEvent, after: World, f: Feed, i: nat, outlet: Kernel.Outlet)
    requires SoundWorld(setup, w) && EventStep(setup, w, ev, after) && ev.token in w.logs
    requires ev.readable != ev.writable && outlet == (if ev.readable then ev.outlet else ev.link.outlet)
    requires ev.readable ==> !ev.end.ReadFailed?
    requires w.logs[ev.token] in w.feeds && f == w.feeds[w.logs[ev.token]]
    requires f.state.Streaming? && i < |setup.names| && f.state.sub.name == setup.names[i]
    requires setup.names[i] !in setup.names[..i]
    ensures |w.apps| == |setup.names| == |setup.rings| && f.reader.cursor <= |w.apps[i].log|
    ensures w.logs[ev.token] in after.feeds
    ensures var g, from, log := after.feeds[w.logs[ev.token]], f.reader.cursor, w.apps[i].log;
            var start := if |log| - from <= setup.rings[i] then from else |log| - setup.rings[i];
            var n := Takable(|log| - start, outlet);
            && g.reader.delivered == f.reader.delivered + log[start..start + n] && g.reader.cursor == start + n
            && (ev.token !in after.logs <==>
                  if start + n < |log| then outlet.breaks
                  else
                    || f.closing || (ev.readable && ev.end.EndOfStream?)
                    || (f.state.sub.dumpUntil.Some? && f.state.sub.dumpUntil.value <= |log|))
  {
    hide SoundWorld, EventStep, LogsIn, Feed.Orderly, Feed.Finish, Feed.Send, Feed.Ask, Takable, Flatten;
    LogIsReached(setup, w, ev, after);
    assert forall j :: 0 <= j < i ==> setup.names[j] == setup.names[..i][j];
    var logs := LogsIn(setup, w);
    StreamIsSound(f, logs, i);
    if ev.readable {
      NotWritable(f, ev, logs);
      AskedTwice(f.Read(ev.arrivals, ev.end), logs);
      StreamGoesOn(f.Read(ev.arrivals, ev.end), logs, outlet, i);
    } else {
      FinishSendsOn(f, logs, ev.link);
      StreamGoesOn(f, logs, outlet, i);
    }
  }

  /** A log request that has come in full, in however many pieces, at a socket with any room: the stream begins
      with the oldest byte retained and goes on as far as the socket takes it. The connection is dropped if
      that was not all and the socket breaks, or if it was all and the flag is 0 or the peer has finished. */
  lemma LogRequestIsTakenUp(setup: Setup, w: World, ev: IoEvent, after: World, flag: byte, name: Name, i: nat)
    requires SoundWorld(setup, w) && EventStep(setup, w, ev, after) && ev.token in w.logs
    requires ev.readable && !ev.writable && !ev.end.ReadFailed?
    requires w.logs[ev.token] in w.feeds && w.feeds[w.logs[ev.token]].state.AwaitingRequest?
    requires 0 < |name| < 256
    requires w.feeds[w.logs[ev.token]].received + Flatten(ev.arrivals) == [flag, |name| as byte] + name
    requires i < |setup.names| && setup.names[i] == name && name !in setup.names[..i]
    ensures |w.apps| == |setup.names| == |setup.rings| && w.logs[ev.token] in after.feeds
    ensures var g, log, capacity := after.feeds[w.logs[ev.token]], w.apps[i].log, setup.rings[i];
            var start := if |log| <= capacity then 0 else |log| - capacity;
            var n := Takable(|log| - start, ev.outlet);
            && g.reader.delivered == log[start..start + n] && g.reader.cursor == start + n
            && (ev.token in after.logs <==>
                  if start + n < |log| then !ev.outlet.breaks else flag != 0 && !ev.end.EndOfStream?)
  {
    hide SoundWorld, EventStep, Flatten, FeedAfter, Feed.Orderly, Feed.Ask, Feed.Send, LogsIn, Takable;
    LogIsReached(setup, w, ev, after);
    var f, logs := w.feeds[w.logs[ev.token]], LogsIn(setup, w);
    AwaitingIsNew(f, logs);
    assert forall j :: 0 <= j < i ==> setup.names[j] == setup.names[..i][j];
    RequestIsTaken(f, logs, ev, flag, name, i);
    NotWritable(f, ev, logs);
    StreamGoesOn(f.Read(ev.arrivals, ev.end).Ask(logs), logs, ev.outlet, i);
    assert logs[i].history == w.apps[i].log && logs[i].capacity == setup.rings[i];
  }
}
