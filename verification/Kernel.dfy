/** What the daemon gets from the system. The answers of the system are inputs: what a pipe holds and
    when it fails, how much a socket takes, and which calls go through. Whatever is proved holds for
    all of them. Only how a transfer is cut into pieces is left open. */
module Kernel {
  import opened Basics

  /** A pipe at one moment: the bytes in it, and how many more can be moved out before that fails, if
      it does. */
  datatype Pipe = Pipe(avail: seq<byte>, breaksAfter: Option<nat>) {
    /** All that can be moved out. */
    function Yield(): (bytes: seq<byte>)
      ensures bytes <= avail
    {
      if breaksAfter.Some? && breaksAfter.value < |avail| then avail[..breaksAfter.value] else avail
    }

    /** Nothing fails before the pipe is empty. */
    predicate Lasts() {
      breaksAfter.None? || |avail| <= breaksAfter.value
    }

    /** The pipe once the first `n` bytes have been moved out. */
    function After(n: nat): (p: Pipe)
      requires n <= |Yield()|
      ensures Yield() == Yield()[..n] + p.Yield()
    {
      Pipe(avail[n..], match breaksAfter case None => None case Some(k) => Some(k - n))
    }
  }

  datatype SpliceResult = Spliced(n: nat) | SpliceWouldBlock | SpliceFailed

  /** `splice` out of a pipe. Zero bytes (end of file) and "would block" are reported only when there
      is nothing to move. */
  method Splice(pipe: Pipe, len: nat) returns (r: SpliceResult)
    ensures r.SpliceFailed? <==> pipe.breaksAfter == Some(0)
    ensures r.Spliced? ==> r.n <= len && r.n <= |pipe.Yield()| && (r.n == 0 ==> len == 0 || pipe.avail == [])
    ensures r.SpliceWouldBlock? ==> pipe.avail == []
  {
    if pipe.breaksAfter == Some(0) {
      return SpliceFailed;
    }
    var blocked: bool := *;
    if pipe.avail == [] && blocked {
      return SpliceWouldBlock;
    }
    if len == 0 || pipe.avail == [] {
      return Spliced(0);
    }
    var n: nat := *;
    return Spliced(Max(1, Min(n, Min(len, |pipe.Yield()|))));
  }

  /** A socket at one moment: how many more bytes it takes, if there is a limit, and whether it then
      breaks instead of blocking. */
  datatype Outlet = Outlet(room: Option<nat>, breaks: bool) {
    /** How many of `n` bytes the socket takes. */
    function Takes(n: nat): (k: nat)
      ensures k <= n
    {
      if room.Some? && room.value < n then room.value else n
    }

    /** The socket once it has taken `n` bytes. */
    function After(n: nat): (o: Outlet)
      requires room.Some? ==> n <= room.value
      ensures forall m: nat :: n <= m ==> Takes(m) == n + o.Takes(m - n)
    {
      match room
      case None => this
      case Some(k) => Outlet(Some(k - n), breaks)
    }
  }

  datatype WriteResult = Accepted(n: nat) | WriteWouldBlock | WriteFailed

  /** A write of a non-empty slice to a non-blocking socket. */
  method SocketWrite(data: seq<byte>, outlet: Outlet) returns (r: WriteResult)
    requires data != []
    ensures match r
            case Accepted(n) => 1 <= n <= outlet.Takes(|data|)
            case WriteWouldBlock => outlet.room == Some(0) && !outlet.breaks
            case WriteFailed => outlet.room == Some(0) && outlet.breaks
  {
    if outlet.room == Some(0) {
      return if outlet.breaks then WriteFailed else WriteWouldBlock;
    }
    var n: nat := *;
    return Accepted(Max(1, Min(n, outlet.Takes(|data|))));
  }

  /** A socket, and whether a change of the interest in it would be accepted. */
  datatype Link = Link(outlet: Outlet, accepts: bool)

  /** How a run of reads from a socket ends. */
  datatype ReadEnd = WouldBlock | EndOfStream | ReadFailed

  /** One launch of a process: whether the fork goes through, whether its pidfd can be opened, how many
      of its descriptors can be registered, and when it has begun. */
  datatype Launch = Launch(forks: bool, opens: bool, registered: nat, startedAt: real)

  /** What the system has in store for an app: how each of its launches goes, and which of the signals
      sent to it are delivered. */
  datatype Host = Host(launches: nat -> Launch, delivers: nat -> bool)
}
