/** Vocabulary shared by every module: bytes, options, and a few facts about sequences. */
module Basics {

  newtype byte = x: int | 0 <= x < 256

  datatype Option<+T> = None | Some(value: T)

  function Min(a: int, b: int): int {
    if a <= b then a else b
  }

  function Max(a: int, b: int): int {
    if a >= b then a else b
  }

  /** Index of the first item with a property. */
  function FindFirst<T>(items: seq<T>, p: T -> bool): (r: Option<nat>)
    ensures r.Some? ==> r.value < |items| && p(items[r.value]) && forall i :: 0 <= i < r.value ==> !p(items[i])
    ensures r.None? ==> forall i :: 0 <= i < |items| ==> !p(items[i])
  {
    if items == [] then None
    else if p(items[0]) then Some(0)
    else
      match FindFirst(items[1..], p)
      case Some(i) => Some(i + 1)
      case None => None
  }

  /** Index of the first occurrence. */
  function IndexOf<T(==)>(items: seq<T>, x: T): (r: Option<nat>)
    ensures r.None? <==> x !in items
    ensures r.Some? ==> r.value < |items| && items[r.value] == x && x !in items[..r.value]
  {
    FindFirst(items, (y: T) => y == x)
  }

  lemma IndexIs<T>(items: seq<T>, x: T, n: nat)
    requires n < |items| && items[n] == x && x !in items[..n]
    ensures IndexOf(items, x) == Some(n)
  {
    var i := IndexOf(items, x).value;
    assert forall j :: 0 <= j < n ==> items[j] == items[..n][j];
    assert forall j :: 0 <= j < i ==> items[j] == items[..i][j];
  }

  lemma Associative<T>(a: seq<T>, b: seq<T>, c: seq<T>)
    ensures (a + b) + c == a + (b + c)
  {
  }

  /** Everything in one map is in another as it was. */
  ghost predicate Kept<K, V>(before: map<K, V>, after: map<K, V>) {
    forall k :: k in before ==> k in after && after[k] == before[k]
  }

  /** The parts one after the other. */
  function Flatten<T>(parts: seq<seq<T>>): seq<T> {
    if parts == [] then [] else Flatten(parts[..|parts| - 1]) + parts[|parts| - 1]
  }

  lemma NothingYet<T>()
    ensures Flatten<T>([]) == []
  {
  }

  lemma FlattenSnoc<T>(parts: seq<seq<T>>, last: seq<T>)
    ensures Flatten(parts + [last]) == Flatten(parts) + last
  {
    assert (parts + [last])[..|parts|] == parts;
  }
}

/** Remainders by a variable modulus, the arithmetic of a ring buffer. */
module Remainders {
  lemma ProductAtLeast(d: int, n: int)
    requires d >= 1 && n >= 0
    ensures d * n >= n
  {
  }

  lemma OnlyZeroIsSmall(d: int, n: int)
    requires -n < d * n < n
    ensures d == 0
  {
    if d >= 1 {
      ProductAtLeast(d, n);
    } else if d <= -1 {
      ProductAtLeast(-d, n);
    }
  }

  lemma RemainderIs(x: int, q: int, r: int, n: nat)
    requires 0 <= r < n && x == q * n + r
    ensures x % n == r
  {
    assert (q - x / n) * n == x % n - r;
    OnlyZeroIsSmall(q - x / n, n);
  }

  /** Stepping on from `x` without passing a multiple of `n`. */
  lemma StepWithin(x: nat, k: nat, n: nat)
    requires n > 0 && x % n + k < n
    ensures (x + k) % n == x % n + k
  {
    RemainderIs(x + k, x / n, x % n + k, n);
  }

  /** Stepping on from `x` past exactly one multiple of `n`. */
  lemma StepAcross(x: nat, k: nat, n: nat)
    requires n > 0 && n <= x % n + k < 2 * n
    ensures (x + k) % n == x % n + k - n
  {
    RemainderIs(x + k, x / n + 1, x % n + k - n, n);
  }

  /** Two positions less than one lap apart occupy different slots. */
  lemma SlotsDiffer(a: nat, b: nat, n: nat)
    requires a < b < a + n
    ensures a % n != b % n
  {
    var k := b - a;
    if a % n + k < n {
      StepWithin(a, k, n);
    } else {
      StepAcross(a, k, n);
    }
  }

  /** Whole laps do not change the slot. */
  lemma LapsVanish(x: nat, laps: nat, n: nat)
    requires n > 0
    ensures (x + laps * n) % n == x % n
  {
    RemainderIs(x + laps * n, x / n + laps, x % n, n);
  }
}
