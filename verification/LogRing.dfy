/** The fixed-capacity log ring that stands in for an unbounded log. */
module LogRing {
  import opened Basics
  import opened Remainders
  import opened DoubledMapping
  import Kernel

  /** A contiguous piece of retained log, and how many bytes were lost before it. */
  datatype LogChunk = LogChunk(buffer: Option<seq<byte>>, missed: nat)

  /** What a splice into the ring came to. */
  datatype Spliced = View(bytes: seq<byte>) | Nothing | WouldBlock | Failed

  /** Oldest logical offset still retained after `written` bytes. */
  function StartPos(written: nat, capacity: nat): (start: nat)
    ensures written - start == Min(written, capacity)
  {
    if written <= capacity then 0 else written - capacity
  }

  /** Length of the largest contiguous piece of the ring from a retained offset on: up to the
      write position or the end of the file, whichever comes first. */
  function ChunkLength(start: nat, written: nat, capacity: nat): int
    requires capacity > 0
  {
    Min(written - start, capacity - start % capacity)
  }

  class CircularBuffer {
    const mmap: MmapRingBuffer
    const capacity: nat
    /** Length of the log; the remainder by the capacity says where in the file the next byte goes. */
    var writePos: nat
    /** The unbounded log this ring stands in for. */
    ghost var history: seq<byte>

    /** The retained window of the log is in the file, each byte in its slot. */
    ghost predicate Valid()
      reads this, mmap.file
    {
      && capacity == mmap.Size() > 0
      && writePos == |history|
      && forall i :: StartPos(writePos, capacity) <= i < writePos ==> history[i] == mmap.file[i % capacity]
    }

    constructor (capacity: nat)
      requires capacity > 0
      ensures Valid() && history == [] && this.capacity == capacity
      ensures fresh(mmap.file)
    {
      this.mmap := new MmapRingBuffer(capacity);
      this.capacity := capacity;
      writePos, history := 0, [];
    }

    /** Total bytes ever written, which is the length of the log. */
    function WritePos(): (n: nat)
      requires Valid()
      reads this, mmap.file
      ensures n == |history|
    {
      writePos
    }

    /** A retained position is not in the slots the next `n` bytes go to. */
    lemma SlotKept(written: nat, n: nat, i: nat)
      requires capacity > 0 && written % capacity + n <= capacity
      requires StartPos(written + n, capacity) <= i < written
      ensures !(written % capacity <= i % capacity < written % capacity + n)
    {
      if written % capacity <= i % capacity < written % capacity + n {
        var k := i % capacity - written % capacity;
        StepWithin(written, k, capacity);
        SlotsDiffer(i, written + k, capacity);
      }
    }

    /** Overwriting the slots after the write position keeps every byte that stays retained. */
    lemma AppendedWindow(log: seq<byte>, before: seq<byte>, bytes: seq<byte>)
      requires capacity == mmap.Size() == |before| > 0
      requires |log| % capacity + |bytes| <= capacity
      requires forall i :: StartPos(|log|, capacity) <= i < |log| ==> log[i] == before[i % capacity]
      requires var at := |log| % capacity;
               forall k :: 0 <= k < capacity ==>
                 mmap.file[k] == if at <= k < at + |bytes| then bytes[k - at] else before[k]
      ensures var grown := log + bytes;
              forall i :: StartPos(|grown|, capacity) <= i < |grown| ==> grown[i] == mmap.file[i % capacity]
    {
      var grown := log + bytes;
      forall i | StartPos(|grown|, capacity) <= i < |grown|
        ensures grown[i] == mmap.file[i % capacity]
      {
        if i >= |log| {
          StepWithin(|log|, i - |log|, capacity);
        } else {
          SlotKept(|log|, |bytes|, i);
        }
      }
    }

    /** Splices at most `len` bytes from a pipe to the end of the log. The view returned is exactly what
        was appended; a call that moves nothing found nothing that could be moved. */
    method SpliceFromAndView(pipe: Kernel.Pipe, len: nat) returns (r: Spliced)
      requires Valid() && len > 0
      modifies this, mmap.file
      ensures Valid()
      ensures r.View? ==>
                r.bytes != [] && r.bytes <= pipe.Yield() && |r.bytes| <= len && history == old(history) + r.bytes
      ensures !r.View? ==> history == old(history) && pipe.Yield() == []
      ensures r.Failed? <==> pipe.breaksAfter == Some(0)
    {
      var physOff := writePos % capacity;
      var chunk := Min(len, capacity - physOff);
      var moved := Kernel.Splice(pipe, chunk);
      match moved {
        case SpliceWouldBlock => return WouldBlock;
        case SpliceFailed => return Failed;
        case Spliced(n) =>
          var bytes := pipe.avail[..n];
          mmap.WriteFile(physOff, bytes);
          AppendedWindow(old(history), old(mmap.file[..]), bytes);
          writePos := writePos + n;
          history := history + bytes;
          if n == 0 {
            return Nothing;
          }
          var view := mmap.Slice(physOff, physOff + n);
          mmap.SliceWithinFile(physOff, n);
          return View(view);
      }
    }

    /** A retained piece of log that does not cross the end of the file, read from the file. */
    lemma RetainedSlice(from: nat, n: nat)
      requires Valid() && StartPos(writePos, capacity) <= from && from + n <= writePos
      requires from % capacity + n <= capacity
      ensures var at := from % capacity; mmap.Slice(at, at + n) == history[from..from + n]
    {
      var at := from % capacity;
      mmap.SliceWithinFile(at, n);
      var stored, logged := mmap.file[at..at + n], history[from..from + n];
      forall k | 0 <= k < n ensures stored[k] == logged[k] {
        StepWithin(from, k, capacity);
        assert logged[k] == history[from + k];
      }
    }

    /** What is left of the file from a position on leads to a multiple of its size. */
    lemma UpToTheEnd(from: nat)
      requires capacity > 0
      ensures (from + (capacity - from % capacity)) % capacity == 0
    {
      RemainderIs(from + (capacity - from % capacity), from / capacity + 1, 0, capacity);
    }

    /** The largest contiguous piece of retained log from a cursor on: nothing if the cursor is
        caught up, otherwise a non-empty slice of the log that starts at the cursor, or at the
        oldest retained byte if the cursor fell behind it, in which case the gap is counted. */
    function ReadFromCursor(from: nat): (r: LogChunk)
      requires Valid() && from <= writePos
      reads this, mmap.file
      ensures var start := Max(from, StartPos(writePos, capacity));
              && r.missed == start - from
              && (r.buffer.None? <==> start == writePos)
              && (r.buffer.Some? ==>
                    && |r.buffer.value| == ChunkLength(start, writePos, capacity) > 0
                    && r.buffer.value == history[start..start + |r.buffer.value|]
                    && (start + |r.buffer.value| == writePos || (start + |r.buffer.value|) % capacity == 0))
    {
      var oldest := if writePos <= capacity then 0 else writePos - capacity;
      var missed := if from < oldest then oldest - from else 0;
      var from' := if from < oldest then oldest else from;
      var len := writePos - from';
      if len == 0 then
        LogChunk(None, missed)
      else
        var startPhys := from' % capacity;
        var chunkLen := Min(len, capacity - startPhys);
        var buf := mmap.Slice(startPhys, startPhys + chunkLen);
        RetainedSlice(from', chunkLen);
        UpToTheEnd(from');
        LogChunk(Some(buf), missed)
    }
  }
}
