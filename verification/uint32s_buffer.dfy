/**
 * The reusable `uint32` buffer a command queue carves uniform slices from:
 * a bump allocator over a backing array whose capacity grows in powers of
 * two, emptied at the end of every frame.
 *
 * Contents are not modelled, only the bookkeeping: the length and capacity
 * of the buffer and the identity of its backing array. A slice handed out
 * is a range of positions of one backing array.
 */
module Uint32sBuffer {

  /** Powers of two: 1, 2, 4, ... */
  predicate IsPowerOf2(p: int)
    decreases if p > 0 then p else 0
  {
    p == 1 || (p >= 2 && p % 2 == 0 && IsPowerOf2(p / 2))
  }

  /** The doubling loop of `roundUpPower2`, started from `p2`. */
  function RoundUpPower2From(p2: nat, x: int): (r: nat)
    requires IsPowerOf2(p2)
    ensures IsPowerOf2(r)
    ensures r >= x && r >= p2
    ensures r == p2 || r / 2 < x
    decreases x - p2
  {
    if p2 < x then RoundUpPower2From(p2 * 2, x) else p2
  }

  /** The least power of two that is at least `x`; 1 when `x <= 1`. */
  function RoundUpPower2(x: int): (r: nat)
    ensures IsPowerOf2(r) && r >= x
    ensures x <= 1 ==> r == 1
    ensures r == 1 || r / 2 < x
  {
    RoundUpPower2From(1, x)
  }

  /** Of two powers of two, the smaller is at most half the larger. */
  lemma {:induction false} SmallerPowerAtMostHalf(p: int, q: int)
    requires IsPowerOf2(p) && IsPowerOf2(q) && p < q
    ensures p <= q / 2
  {
    if p != 1 {
      SmallerPowerAtMostHalf(p / 2, q / 2);
    }
  }

  /** No power of two lies between `x` and `RoundUpPower2(x)`. */
  lemma RoundUpPower2IsLeast(x: int, q: int)
    requires IsPowerOf2(q) && q >= x
    ensures RoundUpPower2(x) <= q
  {
    var r := RoundUpPower2(x);
    if q < r {
      SmallerPowerAtMostHalf(q, r);
    }
  }

  /** The smallest capacity a backing array is created with. */
  const MinCapacity: nat := 16

  /** The buffer: `len` positions of backing array number `store` are in use,
      out of `cap`. */
  datatype BufferState = BufferState(len: nat, cap: nat, store: nat)

  type Buffer = b: BufferState | b.len <= b.cap witness BufferState(0, 0, 0)

  /** A slice handed out: `count` positions from `start` of backing array
      number `store`. */
  datatype Slice = Slice(store: nat, start: nat, count: nat)

  /** A buffer after an allocation, and the slice handed out. */
  datatype Allocation = Allocation(buffer: Buffer, slice: Slice)

  /** `alloc(n)`: hands out the next `n` positions. When they do not fit, a
      new backing array is made whose capacity is the next power of two (at
      least 16); the new array starts empty, so the slice begins at position
      0 and the buffer length becomes `n`. */
  function Alloc(b: Buffer, n: nat): (r: Allocation)
    ensures r.slice.count == n
    ensures r.slice.store == r.buffer.store && r.slice.start + n == r.buffer.len
    ensures b.len + n <= b.cap ==> r.buffer == b.(len := b.len + n) && r.slice.start == b.len
    ensures b.len + n > b.cap ==>
      && r.buffer.store == b.store + 1
      && r.buffer.len == n
      && r.buffer.cap >= b.len + n && r.buffer.cap >= MinCapacity
      && IsPowerOf2(r.buffer.cap)
  {
    if b.len + n > b.cap then
      var cap := if RoundUpPower2(b.len + n) > MinCapacity then RoundUpPower2(b.len + n) else MinCapacity;
      var grown := BufferState(0, cap, b.store + 1);
      Allocation(grown.(len := n), Slice(grown.store, 0, n))
    else
      Allocation(b.(len := b.len + n), Slice(b.store, b.len, n))
  }

  /** `reset`: the buffer becomes empty and keeps its backing array. */
  function Reset(b: Buffer): (r: Buffer)
    ensures r.len == 0 && r.cap == b.cap && r.store == b.store
  {
    b.(len := 0)
  }

  /** The slices handed out by allocating `ns[0]`, `ns[1]`, ... in turn. */
  function AllocAll(b: Buffer, ns: seq<nat>): (r: (Buffer, seq<Slice>))
    ensures |r.1| == |ns|
    ensures r.0.store >= b.store
    ensures r.0.store == b.store ==> r.0.len >= b.len
    decreases |ns|
  {
    if |ns| == 0 then (b, [])
    else
      var a := Alloc(b, ns[0]);
      var rest := AllocAll(a.buffer, ns[1..]);
      (rest.0, [a.slice] + rest.1)
  }

  /** Two slices that share no position. */
  predicate Disjoint(s: Slice, t: Slice)
  {
    s.store != t.store || s.start + s.count <= t.start || t.start + t.count <= s.start
  }

  /** A slice lies in the used part of `b`, or in an older backing array. */
  predicate Settled(s: Slice, b: Buffer)
  {
    s.store < b.store || (s.store == b.store && s.start + s.count <= b.len)
  }

  /** Every slice handed out lies in the used part of the final buffer or in
      an older backing array, and starts at or after the position the
      buffer had reached when it was handed out. */
  lemma {:induction false} AllocAllSettled(b: Buffer, ns: seq<nat>)
    ensures forall i :: 0 <= i < |ns| ==> Settled(AllocAll(b, ns).1[i], AllocAll(b, ns).0)
    ensures forall i :: 0 <= i < |ns| ==>
      AllocAll(b, ns).1[i].store > b.store || AllocAll(b, ns).1[i].start >= b.len
    ensures forall i :: 0 <= i < |ns| ==> AllocAll(b, ns).1[i].store >= b.store
    decreases |ns|
  {
    if |ns| > 0 {
      var a := Alloc(b, ns[0]);
      AllocAllSettled(a.buffer, ns[1..]);
      var rest := AllocAll(a.buffer, ns[1..]);
      assert AllocAll(b, ns).1 == [a.slice] + rest.1;
      forall i | 0 < i < |ns|
        ensures AllocAll(b, ns).1[i] == rest.1[i - 1]
      {
      }
    }
  }

  /** Between two resets, the slices handed out never overlap: each uniform
      block a frame writes keeps its own positions. */
  lemma {:induction false} AllocAllDisjoint(b: Buffer, ns: seq<nat>)
    ensures forall i, j :: 0 <= i < j < |ns| ==> Disjoint(AllocAll(b, ns).1[i], AllocAll(b, ns).1[j])
    decreases |ns|
  {
    if |ns| > 0 {
      var b1, s := Alloc(b, ns[0]).buffer, Alloc(b, ns[0]).slice;
      var ss := AllocAll(b1, ns[1..]).1;
      AllocAllDisjoint(b1, ns[1..]);
      AllocAllSettled(b1, ns[1..]);
      assert AllocAll(b, ns).1 == [s] + ss;
      forall i, j | 0 <= i < j < |ns|
        ensures Disjoint(AllocAll(b, ns).1[i], AllocAll(b, ns).1[j])
      {
        if i > 0 {
          assert AllocAll(b, ns).1[i] == ss[i - 1];
          assert AllocAll(b, ns).1[j] == ss[j - 1];
        } else {
          assert AllocAll(b, ns).1[j] == ss[j - 1];
          assert Settled(s, b1);
        }
      }
    }
  }
}
