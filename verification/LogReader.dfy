/** What a slow reader of the ring has seen: the trace of one log connection, and the laws it
    obeys whatever the interleaving of appends, subscriptions and partial writes. */
module LogReader {
  import opened Basics
  import opened LogRing
  import Kernel

  /** The trace of a reader: next offset to send, everything delivered so far, the offsets it
      lost to overwriting, and the largest lag the server found it with. */
  datatype Reader = Reader(cursor: nat, delivered: seq<byte>, skipped: set<nat>, maxLag: nat)

  const NEW_READER := Reader(0, [], {}, 0)

  /** The offsets from `lo` up to, not including, `hi`. */
  function Range(lo: nat, hi: nat): (r: set<nat>)
    ensures forall i :: i in r <==> lo <= i < hi
    ensures |r| == Max(0, hi - lo)
    decreases hi
  {
    if lo < hi then Range(lo, hi - 1) + {hi - 1} else {}
  }

  /** The first `n` bytes of the log without the skipped ones. */
  function Surviving(log: seq<byte>, skipped: set<nat>, n: nat): seq<byte>
    requires n <= |log|
  {
    if n == 0 then []
    else Surviving(log, skipped, n - 1) + (if n - 1 in skipped then [] else [log[n - 1]])
  }

  /** A reader's trace is honest about a log and the window of it still retained. */
  ghost predicate Faithful(r: Reader, log: seq<byte>, capacity: nat) {
    && r.cursor <= |log|
    && r.delivered == Surviving(log, r.skipped, r.cursor)
    && |r.delivered| + |r.skipped| == r.cursor
    && (forall i :: i in r.skipped ==> i < r.cursor && i < StartPos(|log|, capacity))
    && (r.skipped == {} <==> r.maxLag <= capacity)
  }

  /** Where the next byte for a reader is: its cursor, or the oldest retained byte. */
  function Resume(r: Reader, written: nat, capacity: nat): nat {
    Max(r.cursor, StartPos(written, capacity))
  }

  /** One look at the ring: a reader that fell behind jumps to the oldest retained byte. */
  function CatchUp(r: Reader, written: nat, capacity: nat): Reader
    requires r.cursor <= written
  {
    var start := Resume(r, written, capacity);
    r.(cursor := start, skipped := r.skipped + Range(r.cursor, start), maxLag := Max(r.maxLag, written - r.cursor))
  }

  /** The socket accepted the next `n` bytes. */
  function Deliver(r: Reader, log: seq<byte>, n: nat): Reader
    requires r.cursor + n <= |log|
  {
    r.(cursor := r.cursor + n, delivered := r.delivered + log[r.cursor..r.cursor + n])
  }

  /** What survives of a prefix depends only on that prefix and the skips inside it. */
  lemma {:induction false} SurvivingLocal(a: seq<byte>, b: seq<byte>, s: set<nat>, t: set<nat>, n: nat)
    requires n <= |a| && n <= |b| && a[..n] == b[..n]
    requires forall i :: 0 <= i < n ==> (i in s <==> i in t)
    ensures Surviving(a, s, n) == Surviving(b, t, n)
  {
    if n > 0 {
      assert a[..n - 1] == a[..n][..n - 1] && a[n - 1] == a[..n][n - 1] == b[..n][n - 1];
      SurvivingLocal(a, b, s, t, n - 1);
    }
  }

  /** Skipping all the offsets from `n` to `m` adds nothing to what survives. */
  lemma {:induction false} SurvivingSkips(log: seq<byte>, skipped: set<nat>, more: set<nat>, n: nat, m: nat)
    requires n <= m <= |log|
    requires forall i :: 0 <= i < n ==> (i in skipped <==> i in more)
    requires forall i :: n <= i < m ==> i in more
    ensures Surviving(log, more, m) == Surviving(log, skipped, n)
    decreases m
  {
    if n < m {
      SurvivingSkips(log, skipped, more, n, m - 1);
    } else {
      SurvivingLocal(log, log, more, skipped, n);
    }
  }

  /** Without skips from `n` on, the log survives as it is. */
  lemma {:induction false} SurvivingExtends(log: seq<byte>, skipped: set<nat>, n: nat, m: nat)
    requires n <= m <= |log|
    requires forall i :: i in skipped ==> i < n
    ensures Surviving(log, skipped, m) == Surviving(log, skipped, n) + log[n..m]
    decreases m
  {
    if n < m {
      SurvivingExtends(log, skipped, n, m - 1);
      assert log[n..m] == log[n..m - 1] + [log[m - 1]];
    }
  }

  lemma NewReaderFaithful(log: seq<byte>, capacity: nat)
    ensures Faithful(NEW_READER, log, capacity)
  {
  }

  lemma AppendKeepsFaithful(r: Reader, log: seq<byte>, grown: seq<byte>, capacity: nat)
    requires Faithful(r, log, capacity) && log <= grown
    ensures Faithful(r, grown, capacity)
  {
    SurvivingLocal(log, grown, r.skipped, r.skipped, r.cursor);
  }

  lemma CatchUpKeepsFaithful(r: Reader, log: seq<byte>, capacity: nat)
    requires Faithful(r, log, capacity)
    ensures Faithful(CatchUp(r, |log|, capacity), log, capacity)
  {
    var start := Resume(r, |log|, capacity);
    SurvivingSkips(log, r.skipped, r.skipped + Range(r.cursor, start), r.cursor, start);
    assert r.skipped !! Range(r.cursor, start);
    assert |r.skipped + Range(r.cursor, start)| == |r.skipped| + (start - r.cursor);
    assert Range(r.cursor, start) == {} <==> start == r.cursor;
  }

  lemma DeliverKeepsFaithful(r: Reader, log: seq<byte>, n: nat, capacity: nat)
    requires Faithful(r, log, capacity) && r.cursor + n <= |log|
    ensures Faithful(Deliver(r, log, n), log, capacity)
  {
    SurvivingExtends(log, r.skipped, r.cursor, r.cursor + n);
  }

  /** Between two states of a reader of an unchanged ring: it jumped over what was overwritten,
      then received the log from there without a gap. */
  ghost predicate ReceivedSince(before: Reader, r: Reader, log: seq<byte>, capacity: nat)
    requires before.cursor <= |log|
  {
    var start := CatchUp(before, |log|, capacity);
    start.cursor <= r.cursor <= |log| && r == Deliver(start, log, r.cursor - start.cursor)
  }

  /** What a reader has seen stays seen. */
  ghost predicate Extends(before: Reader, after: Reader) {
    && before.cursor <= after.cursor && before.maxLag <= after.maxLag
    && before.delivered <= after.delivered && before.skipped <= after.skipped
  }

  lemma ExtendsSelf(r: Reader)
    ensures Extends(r, r)
  {
  }

  lemma ExtendsTransitive(a: Reader, b: Reader, c: Reader)
    requires Extends(a, b) && Extends(b, c)
    ensures Extends(a, c)
  {
  }

  lemma LookSafe(r: Reader, log: seq<byte>, capacity: nat)
    requires Faithful(r, log, capacity)
    ensures r.cursor <= |log|
    ensures CatchUp(r, |log|, capacity).cursor == Resume(r, |log|, capacity)
    ensures Faithful(CatchUp(r, |log|, capacity), log, capacity)
  {
    CatchUpKeepsFaithful(r, log, capacity);
  }

  lemma LookForward(r: Reader, log: seq<byte>, capacity: nat)
    requires r.cursor <= |log|
    ensures r.cursor <= CatchUp(r, |log|, capacity).cursor <= |log|
  {
  }

  lemma DeliverMoves(r: Reader, log: seq<byte>, n: nat)
    requires r.cursor + n <= |log|
    ensures Deliver(r, log, n).cursor == r.cursor + n
  {
  }

  /** A second look at an unchanged ring changes nothing. */
  lemma LookAgain(r: Reader, log: seq<byte>, capacity: nat)
    requires r.cursor <= |log|
    ensures var once := CatchUp(r, |log|, capacity);
            once.cursor <= |log| && CatchUp(once, |log|, capacity) == once
  {
    var once := CatchUp(r, |log|, capacity);
    assert Range(once.cursor, once.cursor) == {};
  }

  /** A new reader that is sent everything at once receives exactly the retained bytes. */
  lemma DumpDeliversRetained(r: Reader, log: seq<byte>, capacity: nat)
    requires ReceivedSince(NEW_READER, r, log, capacity) && r.cursor == |log|
    ensures r.delivered == log[StartPos(|log|, capacity)..]
  {
    var start := CatchUp(NEW_READER, |log|, capacity);
    assert log[start.cursor..r.cursor] == log[start.cursor..];
  }

  /** A reader that is not behind the retained window stays as it is. */
  lemma NothingToSkip(r: Reader, written: nat, capacity: nat)
    requires StartPos(written, capacity) <= r.cursor <= written && written - r.cursor <= r.maxLag
    ensures CatchUp(r, written, capacity) == r
  {
    assert Range(r.cursor, r.cursor) == {};
  }

  lemma FaithfulIsPrompt(r: Reader, log: seq<byte>, capacity: nat)
    requires Faithful(r, log, capacity) && r.cursor == |log|
    ensures CatchUp(r, |log|, capacity) == r
  {
    NothingToSkip(r, |log|, capacity);
  }

  /** A round of sending: the reader jumps over what was overwritten, and receives as much of the log
      from there as its socket takes. */
  function Served(r: Reader, log: seq<byte>, capacity: nat, outlet: Kernel.Outlet): (after: Reader)
    requires r.cursor <= |log|
    ensures after.cursor <= |log|
  {
    var start := CatchUp(r, |log|, capacity);
    Deliver(start, log, outlet.Takes(|log| - start.cursor))
  }

  /** A round of sending keeps a reader's trace honest, and leaves no gap. */
  lemma ServedIsReceived(r: Reader, log: seq<byte>, capacity: nat, outlet: Kernel.Outlet)
    requires Faithful(r, log, capacity)
    ensures var after := Served(r, log, capacity, outlet);
            && Faithful(after, log, capacity)
            && ReceivedSince(r, after, log, capacity) && Extends(r, after)
            && (outlet.room.None? ==> after.cursor == |log|)
  {
    hide Faithful;
    LookSafe(r, log, capacity);
    var start := CatchUp(r, |log|, capacity);
    DeliverKeepsFaithful(start, log, outlet.Takes(|log| - start.cursor), capacity);
  }

  /** A look at the ring in between changes nothing about a round of sending. */
  lemma ServedFromThere(r: Reader, log: seq<byte>, capacity: nat, outlet: Kernel.Outlet)
    requires r.cursor <= |log|
    ensures var start := CatchUp(r, |log|, capacity);
            start.cursor <= |log| && Served(start, log, capacity, outlet) == Served(r, log, capacity, outlet)
  {
    LookAgain(r, log, capacity);
  }

  /** A write that takes a part of what is to be sent leaves the rest to be sent on. */
  lemma ServedOn(r: Reader, log: seq<byte>, capacity: nat, outlet: Kernel.Outlet, n: nat)
    requires r.cursor <= |log| && CatchUp(r, |log|, capacity) == r && n <= outlet.Takes(|log| - r.cursor)
    ensures Served(Deliver(r, log, n), log, capacity, outlet.After(n)) == Served(r, log, capacity, outlet)
  {
    hide Range, StartPos;
    var after, all := Deliver(r, log, n), outlet.Takes(|log| - r.cursor);
    NothingToSkip(after, |log|, capacity);
    assert log[r.cursor..r.cursor + n] + log[r.cursor + n..r.cursor + all] == log[r.cursor..r.cursor + all];
  }

  /** A reader that has been sent everything, or whose socket takes nothing, stays as it is. */
  lemma NothingServed(r: Reader, log: seq<byte>, capacity: nat, outlet: Kernel.Outlet)
    requires r.cursor <= |log| && CatchUp(r, |log|, capacity) == r
    requires r.cursor == |log| || outlet.room == Some(0)
    ensures Served(r, log, capacity, outlet) == r
  {
    assert r.delivered + [] == r.delivered;
  }

  /** A reader has received the log itself, without a gap, exactly when the server never found
      it lagging by more than the capacity. */
  lemma CompleteIffPrompt(r: Reader, log: seq<byte>, capacity: nat)
    requires Faithful(r, log, capacity)
    ensures r.delivered == log[..r.cursor] <==> r.maxLag <= capacity
  {
    if r.skipped == {} {
      SurvivingExtends(log, {}, 0, r.cursor);
    }
  }

  // Whole runs over one ring and any number of readers

  datatype Op =
    | Append(bytes: seq<byte>)
    | Subscribe(id: nat)
    | Send(id: nat, accepted: nat)

  datatype Hub = Hub(log: seq<byte>, readers: map<nat, Reader>)

  /** One step: the log grows, a reader joins at offset 0, or one write to a reader's socket
      takes some of the chunk it was offered (none of it when the socket blocks). */
  function Step(hub: Hub, op: Op, capacity: nat): Hub
    requires forall id :: id in hub.readers ==> hub.readers[id].cursor <= |hub.log|
  {
    match op
    case Append(bytes) => hub.(log := hub.log + bytes)
    case Subscribe(id) => if id in hub.readers then hub else hub.(readers := hub.readers[id := NEW_READER])
    case Send(id, accepted) =>
      if id !in hub.readers then hub
      else
        var r := CatchUp(hub.readers[id], |hub.log|, capacity);
        hub.(readers := hub.readers[id := Deliver(r, hub.log, Min(accepted, |hub.log| - r.cursor))])
  }

  ghost predicate AllFaithful(hub: Hub, capacity: nat) {
    forall id :: id in hub.readers ==> Faithful(hub.readers[id], hub.log, capacity)
  }

  lemma StepKeepsAllFaithful(hub: Hub, op: Op, capacity: nat)
    requires AllFaithful(hub, capacity)
    ensures AllFaithful(Step(hub, op, capacity), capacity)
  {
    match op
    case Append(bytes) =>
      forall id | id in hub.readers ensures Faithful(hub.readers[id], hub.log + bytes, capacity) {
        AppendKeepsFaithful(hub.readers[id], hub.log, hub.log + bytes, capacity);
      }
    case Subscribe(id) =>
      NewReaderFaithful(hub.log, capacity);
    case Send(id, accepted) =>
      if id in hub.readers {
        CatchUpKeepsFaithful(hub.readers[id], hub.log, capacity);
        var r := CatchUp(hub.readers[id], |hub.log|, capacity);
        DeliverKeepsFaithful(r, hub.log, Min(accepted, |hub.log| - r.cursor), capacity);
      }
  }

  /** The hub after any sequence of operations on an empty ring: every reader's deliveries are
      the log up to its cursor minus what was overwritten before it could be sent. */
  ghost function Run(ops: seq<Op>, capacity: nat): (hub: Hub)
    ensures AllFaithful(hub, capacity)
  {
    if ops == [] then Hub([], map[])
    else
      var hub := Run(ops[..|ops| - 1], capacity);
      StepKeepsAllFaithful(hub, ops[|ops| - 1], capacity);
      Step(hub, ops[|ops| - 1], capacity)
  }
}
