/** A growing array: capacity doubles when it is full. */
module Vectors {
  import opened Wrappers

  const MAX_INT: nat := 0x7fff_ffff

  // ----- How capacity grows -----

  /** Size, capacity and elements copied by growth so far. */
  datatype Growth = Growth(size: nat, capacity: nat, copied: nat)

  function Grown(g: Growth): Growth {
    if g.size == g.capacity then Growth(g.size + 1, if g.capacity == 0 then 1 else g.capacity * 2, g.copied + g.size)
    else g.(size := g.size + 1)
  }

  /** After `n` elements were appended to an empty vector. */
  function Appended(n: nat): Growth {
    if n == 0 then Growth(0, 0, 0) else Grown(Appended(n - 1))
  }

  function Power(k: nat): nat {
    if k == 0 then 1 else 2 * Power(k - 1)
  }

  ghost predicate PowerOfTwo(n: nat) {
    exists k: nat :: n == Power(k)
  }

  ghost predicate InBounds(g: Growth) {
    if g.size == 0 then g == Growth(0, 0, 0) else g.size <= g.capacity < 2 * g.size && g.copied == g.capacity - 1
  }

  lemma GrownInBounds(g: Growth)
    requires InBounds(g)
    ensures InBounds(Grown(g))
  {
  }

  lemma AppendedNext(n: nat)
    ensures Appended(0) == Growth(0, 0, 0) && Appended(n + 1) == Grown(Appended(n))
  {
  }

  lemma {:induction false} AppendedInBounds(n: nat)
    ensures Appended(n).size == n && InBounds(Appended(n))
  {
    if n > 0 {
      AppendedInBounds(n - 1);
      GrownInBounds(Appended(n - 1));
      AppendedNext(n - 1);
    }
  }

  /** Growth leaves a power of two, or doubles it. */
  lemma GrownPower(g: Growth, k: nat) returns (k': nat)
    requires g.capacity == Power(k) > 0
    ensures Grown(g).capacity == Power(k')
  {
    k' := if g.size == g.capacity then k + 1 else k;
  }

  lemma {:induction false} AppendedPower(n: nat) returns (k: nat)
    requires n > 0
    ensures Appended(n).capacity == Power(k)
  {
    AppendedNext(n - 1);
    if n == 1 {
      k := 0;
    } else {
      AppendedInBounds(n - 1);
      k := AppendedPower(n - 1);
      k := GrownPower(Appended(n - 1), k);
    }
  }

  /** The capacity is a power of two, at least the size and below twice the size; and growth has copied one element
      less than the capacity. */
  lemma AppendedBounds(n: nat)
    ensures Appended(n).size == n && InBounds(Appended(n)) && (n > 0 ==> PowerOfTwo(Appended(n).capacity))
  {
    AppendedInBounds(n);
    if n > 0 {
      var k := AppendedPower(n);
    }
  }

  lemma FiveMore(k: nat)
    ensures Power(k + 5) == 32 * Power(k)
  {
    assert Power(k + 1) == 2 * Power(k) && Power(k + 2) == 2 * Power(k + 1);
    assert Power(k + 3) == 2 * Power(k + 2) && Power(k + 4) == 2 * Power(k + 3);
  }

  lemma {:induction false} PowerGrows(j: nat, k: nat)
    requires j < k
    ensures 0 < Power(j) && 2 * Power(j) <= Power(k)
  {
    if j > 0 {
      PowerGrows(j - 1, k - 1);
    } else if k > 1 {
      PowerGrows(0, k - 1);
    }
  }

  /** A power of two between Power(k) and its double is Power(k). */
  lemma OnePowerBetween(n: nat, k: nat)
    requires PowerOfTwo(n) && Power(k) <= n < 2 * Power(k)
    ensures n == Power(k)
  {
    var j: nat :| n == Power(j);
    if j < k {
      PowerGrows(j, k);
    } else if j > k {
      PowerGrows(k, j);
    }
  }

  lemma PowerThirty()
    ensures Power(30) == 0x4000_0000
  {
    assert Power(0) == 1;
    FiveMore(0);
    FiveMore(5);
    FiveMore(10);
    FiveMore(15);
    FiveMore(20);
    FiveMore(25);
  }

  /** No capacity on the way to `n` elements exceeds a 32-bit integer. */
  ghost predicate CapacityFits(n: nat) {
    forall m :: 0 <= m <= n ==> Appended(m).capacity <= MAX_INT
  }

  /** Capacities stay within a 32-bit integer exactly up to 2^30 elements. */
  lemma CapacityFitsIff(n: nat)
    ensures CapacityFits(n) <==> n <= 0x4000_0000
  {
    var full := 0x4000_0000;
    if n <= full {
      forall m | 0 <= m <= n ensures Appended(m).capacity <= MAX_INT {
        AppendedBounds(m);
      }
    } else {
      PowerThirty();
      AppendedBounds(full);
      OnePowerBetween(Appended(full).capacity, 30);
      assert Appended(full + 1) == Grown(Appended(full));
    }
  }

  // ----- The vector as an object -----

  class Vector<T(0)> {
    var elem: array?<T>   // null after the elements were moved away
    var sz: nat
    var cap: nat
    ghost var copied: nat // elements copied by growth

    ghost predicate Valid()
      reads this, elem
    {
      sz <= cap && if elem == null then cap == 0 else elem.Length == cap
    }

    ghost function Contents(): (s: seq<T>)
      requires Valid()
      reads this, elem
      ensures |s| == sz
    {
      if elem == null then [] else elem[..sz]
    }

    ghost function Progress(): Growth
      reads this
    {
      Growth(sz, cap, copied)
    }

    constructor ()
      ensures Valid() && Contents() == [] && Progress() == Growth(0, 0, 0) && fresh(elem)
    {
      elem := new T[0];
      sz, cap, copied := 0, 0, 0;
    }

    method Reserve(newCap: nat)
      requires Valid()
      modifies this
      ensures Valid() && Contents() == old(Contents()) && sz == old(sz)
      ensures if newCap <= old(cap) then elem == old(elem) && cap == old(cap) && copied == old(copied)
              else fresh(elem) && cap == newCap && copied == old(copied) + old(sz)
    {
      if newCap <= cap {
        return;
      }
      var p := new T[newCap];
      for i := 0 to sz
        invariant sz == old(sz) && elem == old(elem) && cap == old(cap) && Valid() && newCap > cap
        invariant copied == old(copied) + i
        invariant forall k :: 0 <= k < i ==> p[k] == old(Contents()[k])
        invariant Contents() == old(Contents())
      {
        p[i] := elem[i];
        copied := copied + 1;
      }
      elem := p;
      cap := newCap;
    }

    method PushBack(value: T)
      requires Valid() && (sz == cap ==> 2 * cap <= MAX_INT)
      modifies this, elem
      ensures Valid() && Contents() == old(Contents()) + [value] && Progress() == Grown(old(Progress()))
      ensures elem == old(elem) || fresh(elem)
    {
      if sz == cap {
        Reserve(if cap == 0 then 1 else cap * 2);
      }
      elem[sz] := value;
      sz := sz + 1;
    }

    /** Copies the elements of another vector into a buffer of their own. */
    method CopyFrom(other: Vector<T>)
      requires Valid() && other.Valid()
      modifies this
      ensures Valid() && Contents() == old(other.Contents())
      ensures if other == this then elem == old(elem) else cap == old(other.cap) && fresh(elem)
      ensures other.elem == old(other.elem) || other == this
    {
      if this != other {
        var p := new T[other.cap];
        for i := 0 to other.sz
          invariant forall k :: 0 <= k < i ==> p[k] == other.elem[k]
        {
          p[i] := other.elem[i];
        }
        sz, cap, elem := other.sz, other.cap, p;
      }
    }

    /** Takes the buffer of another vector, which is left empty. */
    method MoveFrom(other: Vector<T>)
      requires Valid() && other.Valid()
      modifies this, other
      ensures Valid() && other.Valid() && Contents() == old(other.Contents()) && elem == old(other.elem)
      ensures other != this ==> other.Contents() == [] && other.cap == 0 && other.elem == null && cap == old(other.cap)
    {
      if this != other {
        elem, sz, cap := other.elem, other.sz, other.cap;
        other.elem, other.sz, other.cap := null, 0, 0;
      }
    }

    method At(i: int) returns (r: Option<T>)
      requires Valid()
      ensures r == if 0 <= i < sz then Some(Contents()[i]) else None
    {
      if i < 0 || i >= sz {
        return None;
      }
      return Some(elem[i]);
    }
  }

  /** Appending the values one by one to an empty vector: it holds exactly them, its capacity is a power of two below
      twice their number, and fewer than twice their number of elements were copied. */
  method Collect<T(0)>(values: seq<T>) returns (v: Vector<T>)
    requires |values| <= 0x4000_0000 // one more would double a capacity of 2^30
    ensures fresh(v) && v.Valid() && v.Contents() == values
    ensures |values| > 0 ==> PowerOfTwo(v.cap) && v.cap < 2 * |values| && v.copied < 2 * |values|
  {
    v := new Vector<T>();
    for i := 0 to |values|
      invariant fresh(v) && v.Valid() && fresh(v.elem) && v.Contents() == values[..i] && v.Progress() == Appended(i)
    {
      AppendedInBounds(i);
      assert values[..i + 1] == values[..i] + [values[i]];
      v.PushBack(values[i]);
    }
    assert values[..|values|] == values;
    AppendedBounds(|values|);
  }
}
