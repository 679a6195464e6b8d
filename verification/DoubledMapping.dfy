/** The doubled mapping: one file of `size` bytes mapped twice, back to back, so that every
    window of `size` bytes is contiguous in memory whatever its offset. */
module DoubledMapping {
  import opened Basics
  import opened Remainders

  datatype MapError = NotPageAligned | EmptyMapping

  class MmapRingBuffer {
    const file: array<byte>

    function Size(): nat {
      file.Length
    }

    /** Why a mapping of `size` bytes is refused, if it is. */
    static function Refusal(size: nat, pageSize: nat): (r: Option<MapError>)
      requires pageSize > 0
      ensures r.None? <==> size > 0 && size % pageSize == 0
      ensures r == Some(NotPageAligned) <==> size % pageSize != 0
      ensures r == Some(EmptyMapping) <==> size == 0
    {
      if size % pageSize != 0 then Some(NotPageAligned)
      else if size == 0 then Some(EmptyMapping)
      else None
    }

    /** A fresh, zero-filled memory file and its mapping. */
    constructor (size: nat)
      requires size > 0
      ensures Size() == size && fresh(file)
    {
      file := new byte[size](_ => 0);
    }

    /** The byte at address `addr` of the 2 * Size() bytes of address space. */
    function Cell(addr: nat): byte
      requires Size() > 0 && addr < 2 * Size()
      reads file
    {
      if addr < Size() then file[addr] else file[addr - Size()]
    }

    /** First address and length of the window at a logical offset; the window stays inside
        the doubled address space. */
    function GetBufferInfosAt(offset: nat): (r: (nat, nat))
      requires Size() > 0
      ensures r.0 < Size() && r.1 == Size() && r.0 + r.1 <= 2 * Size()
      ensures r.0 == offset % Size()
    {
      (offset % Size(), Size())
    }

    /** Address `addr + i` of the window at `offset` is the file's slot (offset + i) % Size(). */
    lemma SlotAt(offset: nat, i: nat)
      requires i < Size()
      ensures var a := offset % Size() + i;
              a < 2 * Size() && (offset + i) % Size() == if a < Size() then a else a - Size()
    {
      if offset % Size() + i < Size() {
        StepWithin(offset, i, Size());
      } else {
        StepAcross(offset, i, Size());
      }
    }

    /** The byte at that address is the file's byte in that slot. */
    lemma CellAt(offset: nat, i: nat)
      requires i < Size()
      ensures offset % Size() + i < 2 * Size() && Cell(offset % Size() + i) == file[(offset + i) % Size()]
    {
      SlotAt(offset, i);
    }

    /** The window at a logical offset shows the file cyclically from that offset. */
    function GetAt(offset: nat): (w: seq<byte>)
      requires Size() > 0
      reads file
      ensures |w| == Size()
      ensures forall i :: 0 <= i < |w| ==> w[i] == file[(offset + i) % Size()]
    {
      var (addr, len) := GetBufferInfosAt(offset);
      var w := seq(len, i requires 0 <= i < len reads file => Cell(addr + i));
      assert forall i :: 0 <= i < len ==> w[i] == file[(offset + i) % Size()] by {
        forall i | 0 <= i < len ensures w[i] == file[(offset + i) % Size()] {
          CellAt(offset, i);
          assert w[i] == Cell(offset % Size() + i);
        }
      }
      w
    }

    /** `mapping[start..end]`: a slice that may run over the end of the file into its copy. */
    function Slice(start: nat, end: nat): (s: seq<byte>)
      requires Size() > 0 && start <= end <= start + Size()
      reads file
      ensures |s| == end - start
      ensures forall i :: 0 <= i < |s| ==> s[i] == file[(start + i) % Size()]
    {
      GetAt(start)[..end - start]
    }

    /** A slice that does not run over the end of the file is just that part of the file. */
    lemma SliceWithinFile(at: nat, n: nat)
      requires Size() > 0 && at < Size() && at + n <= Size()
      ensures Slice(at, at + n) == file[at..at + n]
    {
      var s, f := Slice(at, at + n), file[at..at + n];
      forall i | 0 <= i < n ensures s[i] == f[i] {
        RemainderIs(at + i, 0, at + i, Size());
      }
    }

    /** Windows a whole number of laps apart are the same window. */
    lemma WindowRepeats(offset: nat, laps: nat)
      requires Size() > 0
      ensures GetAt(offset + laps * Size()) == GetAt(offset)
    {
      forall i | 0 <= i < Size()
        ensures GetAt(offset + laps * Size())[i] == GetAt(offset)[i]
      {
        LapsVanish(offset + i, laps, Size());
        assert offset + laps * Size() + i == offset + i + laps * Size();
      }
    }

    /** Stores one byte through the mutable window at `offset`. Every window, at every offset,
        sees the new byte at its own place for that slot and nothing else changes. */
    method StoreThrough(offset: nat, i: nat, b: byte)
      requires Size() > 0 && i < Size()
      modifies file
      ensures forall o: nat, j: nat :: j < Size() ==>
                GetAt(o)[j] == if (o + j) % Size() == (offset + i) % Size() then b else old(GetAt(o)[j])
    {
      var (addr, _) := GetBufferInfosAt(offset);
      SlotAt(offset, i);
      if addr + i < Size() {
        file[addr + i] := b;
      } else {
        file[addr + i - Size()] := b;
      }
    }

    /** The kernel writes `data` into the file at a physical offset, not past its end. */
    method WriteFile(at: nat, data: seq<byte>)
      requires at + |data| <= Size()
      modifies file
      ensures forall k :: 0 <= k < Size() ==>
                file[k] == if at <= k < at + |data| then data[k - at] else old(file[k])
    {
      for n := 0 to |data|
        invariant forall k :: 0 <= k < Size() ==>
                    file[k] == if at <= k < at + n then data[k - at] else old(file[k])
      {
        file[at + n] := data[n];
      }
    }
  }
}
