/** Newline framing of the control socket: complete lines are taken off the front of what was
    received, the rest waits. */
module Framing {
  import opened Basics

  const NEWLINE: byte := 10

  /** The complete lines of what was received, newlines included. */
  function CompleteLines(data: seq<byte>): seq<seq<byte>> {
    match IndexOf(data, NEWLINE)
    case None => []
    case Some(i) => [data[..i + 1]] + CompleteLines(data[i + 1..])
  }

  /** What follows the last newline. */
  function Leftover(data: seq<byte>): (rest: seq<byte>)
    ensures NEWLINE !in rest
  {
    match IndexOf(data, NEWLINE)
    case None => data
    case Some(i) => Leftover(data[i + 1..])
  }

  predicate IsLine(line: seq<byte>) {
    line != [] && line[|line| - 1] == NEWLINE && NEWLINE !in line[..|line| - 1]
  }

  function Concat(lines: seq<seq<byte>>): seq<byte> {
    if lines == [] then [] else lines[0] + Concat(lines[1..])
  }

  lemma ConcatNil()
    ensures Concat([]) == []
  {
  }

  lemma ConcatCons(head: seq<byte>, tail: seq<seq<byte>>)
    ensures Concat([head] + tail) == head + Concat(tail)
  {
    assert ([head] + tail)[1..] == tail;
  }

  /** Splitting loses nothing: the lines and the leftover make up the data. */
  lemma {:induction false} LinesPartition(data: seq<byte>)
    ensures Concat(CompleteLines(data)) + Leftover(data) == data
    decreases |data|
  {
    hide IndexOf, Concat;
    match IndexOf(data, NEWLINE)
    case None =>
      ConcatNil();
    case Some(i) =>
      var head, tail := data[..i + 1], data[i + 1..];
      LinesPartition(tail);
      ConcatCons(head, CompleteLines(tail));
      Associative(head, Concat(CompleteLines(tail)), Leftover(tail));
  }

  /** Every line has its newline at the end and nowhere else. */
  lemma {:induction false} LinesAreLines(data: seq<byte>)
    ensures forall i :: 0 <= i < |CompleteLines(data)| ==> IsLine(CompleteLines(data)[i])
    decreases |data|
  {
    match IndexOf(data, NEWLINE)
    case None =>
    case Some(i) =>
      LinesAreLines(data[i + 1..]);
      assert data[..i + 1][..i] == data[..i];
      assert IsLine(data[..i + 1]);
  }

  lemma NoLines(data: seq<byte>)
    requires IndexOf(data, NEWLINE).None?
    ensures CompleteLines(data) == [] && Leftover(data) == data
  {
  }

  lemma FirstLine(data: seq<byte>, i: nat)
    requires IndexOf(data, NEWLINE) == Some(i)
    ensures CompleteLines(data) == [data[..i + 1]] + CompleteLines(data[i + 1..])
    ensures Leftover(data) == Leftover(data[i + 1..])
  {
  }

  lemma FirstNewlineStays(data: seq<byte>, more: seq<byte>)
    requires NEWLINE in data
    ensures IndexOf(data + more, NEWLINE) == IndexOf(data, NEWLINE)
  {
    var i := IndexOf(data, NEWLINE).value;
    assert (data + more)[..i] == data[..i];
    IndexIs(data + more, NEWLINE, i);
  }

  /** More bytes add lines after those already there. */
  lemma {:induction false} MoreData(data: seq<byte>, more: seq<byte>)
    ensures CompleteLines(data + more) == CompleteLines(data) + CompleteLines(Leftover(data) + more)
    ensures Leftover(data + more) == Leftover(Leftover(data) + more)
    decreases |data|
  {
    hide CompleteLines, Leftover;
    match IndexOf(data, NEWLINE)
    case None =>
      NoLines(data);
    case Some(i) =>
      FirstLine(data, i);
      FirstNewlineStays(data, more);
      FirstLine(data + more, i);
      assert (data + more)[i + 1..] == data[i + 1..] + more;
      assert (data + more)[..i + 1] == data[..i + 1];
      MoreData(data[i + 1..], more);
  }

  predicate IsSpace(b: byte) {
    b == 32 || 9 <= b <= 13
  }

  function Trim(line: seq<byte>): (t: seq<byte>)
    ensures t == [] <==> forall i :: 0 <= i < |line| ==> IsSpace(line[i])
    ensures t != [] ==> !IsSpace(t[0]) && !IsSpace(t[|t| - 1])
  {
    if line != [] && IsSpace(line[0]) then Trim(line[1..])
    else if line != [] && IsSpace(line[|line| - 1]) then Trim(line[..|line| - 1])
    else line
  }

  lemma TrimFront(line: seq<byte>)
    requires line != [] && IsSpace(line[0])
    ensures Trim(line) == Trim(line[1..])
  {
  }

  lemma TrimBack(line: seq<byte>)
    requires line != [] && !IsSpace(line[0]) && IsSpace(line[|line| - 1])
    ensures Trim(line) == Trim(line[..|line| - 1])
  {
  }

  lemma TrimNothing(line: seq<byte>)
    requires line != [] ==> !IsSpace(line[0]) && !IsSpace(line[|line| - 1])
    ensures Trim(line) == line
  {
  }

  /** Trimming cuts nothing but white space, and only at the ends. */
  lemma {:induction false} TrimCutsSpace(line: seq<byte>) returns (i: nat, j: nat)
    ensures i <= j <= |line| && Trim(line) == line[i..j]
    ensures forall k :: 0 <= k < i ==> IsSpace(line[k])
    ensures forall k :: j <= k < |line| ==> IsSpace(line[k])
    decreases |line|
  {
    hide Trim;
    if line != [] && IsSpace(line[0]) {
      var rest := line[1..];
      var i', j' := TrimCutsSpace(rest);
      TrimFront(line);
      i, j := i' + 1, j' + 1;
      assert rest[i'..j'] == line[i..j];
      forall k | 0 <= k < i ensures IsSpace(line[k]) {
        assert k > 0 ==> line[k] == rest[k - 1];
      }
      forall k | j <= k < |line| ensures IsSpace(line[k]) {
        assert line[k] == rest[k - 1];
      }
    } else if line != [] && IsSpace(line[|line| - 1]) {
      i, j := TrimCutsSpace(line[..|line| - 1]);
      TrimBack(line);
      assert line[..|line| - 1][i..j] == line[i..j];
    } else {
      TrimNothing(line);
      i, j := 0, |line|;
    }
  }

  /** The trimmed lines that are not blank: the requests among some lines. */
  function Requests(lines: seq<seq<byte>>): seq<seq<byte>> {
    if lines == [] then []
    else (if Trim(lines[0]) == [] then [] else [Trim(lines[0])]) + Requests(lines[1..])
  }

  lemma {:induction false} RequestsConcat(a: seq<seq<byte>>, b: seq<seq<byte>>)
    ensures Requests(a + b) == Requests(a) + Requests(b)
  {
    if a == [] {
      assert a + b == b;
    } else {
      assert (a + b)[1..] == a[1..] + b;
      RequestsConcat(a[1..], b);
    }
  }

  /** The requests in everything received. */
  function RequestsIn(data: seq<byte>): seq<seq<byte>> {
    Requests(CompleteLines(data))
  }

  /** The requests and the leftover of a connection fed chunk by chunk. */
  function FeedAll(chunks: seq<seq<byte>>): (seq<seq<byte>>, seq<byte>) {
    if chunks == [] then ([], [])
    else
      var (requests, rest) := FeedAll(chunks[..|chunks| - 1]);
      var buf := rest + chunks[|chunks| - 1];
      (requests + RequestsIn(buf), Leftover(buf))
  }

  /** The requests seen depend only on the bytes received, not on how reads chunked them. */
  lemma {:induction false} ChunkingDoesNotMatter(chunks: seq<seq<byte>>)
    ensures FeedAll(chunks) == (RequestsIn(Flatten(chunks)), Leftover(Flatten(chunks)))
  {
    if chunks != [] {
      var init, last := chunks[..|chunks| - 1], chunks[|chunks| - 1];
      ChunkingDoesNotMatter(init);
      MoreData(Flatten(init), last);
      RequestsConcat(CompleteLines(Flatten(init)), CompleteLines(Leftover(Flatten(init)) + last));
    }
  }

  /** Taking one line off a buffer. */
  lemma NextLine(buf: seq<byte>)
    requires IndexOf(buf, NEWLINE).Some?
    ensures var n := IndexOf(buf, NEWLINE).value + 1;
            var request := Trim(buf[..n]);
            && RequestsIn(buf) == (if request == [] then [] else [request]) + RequestsIn(buf[n..])
            && Leftover(buf) == Leftover(buf[n..])
  {
    var n := IndexOf(buf, NEWLINE).value + 1;
    assert CompleteLines(buf)[1..] == CompleteLines(buf[n..]);
  }

  lemma NoLineLeft(buf: seq<byte>)
    requires IndexOf(buf, NEWLINE).None?
    ensures RequestsIn(buf) == [] && Leftover(buf) == buf
  {
  }

  /** White space is bytes 32 and 9 to 13. */
  lemma SpaceInNumbers(bytes: seq<byte>)
    ensures (forall b :: b in bytes ==> b == 32 || 9 <= b <= 13) <==> Trim(bytes) == []
  {
    assert forall i :: 0 <= i < |bytes| ==> bytes[i] in bytes;
  }

  /** White space around a line is trimmed, and nothing else. */
  lemma {:induction false} TrimPadded(front: seq<byte>, line: seq<byte>, back: seq<byte>)
    requires (forall b :: b in front ==> b == 32 || 9 <= b <= 13) && forall b :: b in back ==> b == 32 || 9 <= b <= 13
    requires line != [] && line[0] != 32 && !(9 <= line[0] <= 13)
    requires line[|line| - 1] != 32 && !(9 <= line[|line| - 1] <= 13)
    ensures Trim(front + line + back) == line
    decreases |front| + |back|
  {
    hide Trim;
    var padded := front + line + back;
    if front != [] {
      assert front[0] in front && padded[1..] == front[1..] + line + back;
      assert forall b :: b in front[1..] ==> b in front;
      TrimFront(padded);
      TrimPadded(front[1..], line, back);
    } else if back != [] {
      var n := |back| - 1;
      assert back[n] in back && padded[..|padded| - 1] == front + line + back[..n];
      assert forall b :: b in back[..n] ==> b in back;
      TrimBack(padded);
      TrimPadded(front, line, back[..n]);
    } else {
      assert padded == line;
      TrimNothing(line);
    }
  }

  lemma RequestsOfOne(line: seq<byte>)
    ensures Requests([line]) == if Trim(line) == [] then [] else [Trim(line)]
  {
    hide Trim;
    assert [line][1..] == [];
    var first := if Trim(line) == [] then [] else [Trim(line)];
    assert first + [] == first;
  }

  lemma OneLine(line: seq<byte>)
    requires 10 !in line
    ensures CompleteLines(line + [10]) == [line + [10]] && Leftover(line + [10]) == []
    ensures RequestsIn(line + [10]) == if Trim(line + [10]) == [] then [] else [Trim(line + [10])]
  {
    hide CompleteLines, Leftover, Trim, Requests;
    var data := line + [10];
    assert data[..|line|] == line && data[..|line| + 1] == data && data[|line| + 1..] == [];
    IndexIs(data, NEWLINE, |line|);
    FirstLine(data, |line|);
    NoLines([]);
    RequestsOfOne(data);
  }

  /** A line by itself, ended by byte 10, is one request, without the white space around it. */
  lemma OneLineIsOneRequest(front: seq<byte>, line: seq<byte>, back: seq<byte>)
    requires forall b :: b in front ==> b == 32 || b == 9 || 11 <= b <= 13
    requires forall b :: b in back ==> b == 32 || b == 9 || 11 <= b <= 13
    requires 10 !in line && line != [] && line[0] != 32 && !(9 <= line[0] <= 13)
    requires line[|line| - 1] != 32 && !(9 <= line[|line| - 1] <= 13)
    ensures RequestsIn(front + line + back + [10]) == [line]
    ensures Leftover(front + line + back + [10]) == []
  {
    hide Trim, CompleteLines, Leftover, RequestsIn;
    var data := front + line + back + [10];
    OneLine(front + line + back);
    assert data == front + line + (back + [10]);
    TrimPadded(front, line, back + [10]);
  }

  /** A line of nothing but white space is no request. */
  lemma BlankLineIsNoRequest(blank: seq<byte>)
    requires forall b :: b in blank ==> b == 32 || b == 9 || 11 <= b <= 13
    ensures RequestsIn(blank + [10]) == [] && Leftover(blank + [10]) == []
  {
    hide Trim, CompleteLines, Leftover, RequestsIn;
    OneLine(blank);
    SpaceInNumbers(blank + [10]);
  }

  /** A line that neither begins nor ends with white space, and holds no byte 10. */
  predicate IsBare(line: seq<byte>) {
    && line != [] && 10 !in line
    && line[0] != 32 && !(9 <= line[0] <= 13) && line[|line| - 1] != 32 && !(9 <= line[|line| - 1] <= 13)
  }

  /** Lines, each ended by byte 10. */
  function Ended(lines: seq<seq<byte>>): (ended: seq<seq<byte>>)
    ensures |ended| == |lines| && forall i :: 0 <= i < |lines| ==> ended[i] == lines[i] + [10]
  {
    seq(|lines|, i requires 0 <= i < |lines| => lines[i] + [10])
  }

  /** Bare lines one after the other are so many requests, as they are and in order. */
  lemma {:induction false} LinesAreRequests(lines: seq<seq<byte>>)
    requires forall i :: 0 <= i < |lines| ==> IsBare(lines[i])
    ensures RequestsIn(Flatten(Ended(lines))) == lines && Leftover(Flatten(Ended(lines))) == []
  {
    hide Flatten, CompleteLines, Leftover, Requests, Ended;
    if lines == [] {
      NothingYet<byte>();
      NoLineLeft([]);
      assert Ended(lines) == [];
    } else {
      var init, last := lines[..|lines| - 1], lines[|lines| - 1];
      LinesAreRequests(init);
      assert Ended(lines) == Ended(init) + [last + [10]] && lines == init + [last];
      FlattenSnoc(Ended(init), last + [10]);
      MoreData(Flatten(Ended(init)), last + [10]);
      RequestsConcat(CompleteLines(Flatten(Ended(init))), CompleteLines(last + [10]));
      OneLineIsOneRequest([], last, []);
      assert [] + last + [] + [10] == last + [10] == [] + (last + [10]);
    }
  }
}
