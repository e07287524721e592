/** A bump allocator over a fixed buffer, with 64-bit addresses and sizes. */
module Arenas {
  import opened Wrappers

  const LIMIT: nat := 0x1_0000_0000_0000_0000

  /** The buffer's address and size, and the address of the first free byte. */
  datatype State = State(base: nat, size: nat, next: nat)

  predicate Ok64(st: State) {
    st.base <= st.next <= st.base + st.size < LIMIT
  }

  function AlignUp(p: nat, alignment: nat): nat
    requires alignment > 0
  {
    if p % alignment == 0 then p else p + alignment - p % alignment
  }

  function Padding(p: nat, alignment: nat): nat
    requires alignment > 0
  {
    if p % alignment == 0 then 0 else alignment - p % alignment
  }

  lemma {:induction false} MultiplesApart(x: nat, y: nat, a: nat)
    ensures x < y ==> x * a + a <= y * a
  {
    if x < y {
      assert y * a == (y - 1) * a + a;
      MultiplesApart(x, y - 1, a);
    }
  }

  lemma MultipleHasNoRemainder(k: nat, a: nat)
    requires a > 0
    ensures (k * a) % a == 0
  {
    var d, m := (k * a) / a, (k * a) % a;
    assert k * a == d * a + m;
    MultiplesApart(d, k, a);
    MultiplesApart(k, d, a);
  }

  /** The least aligned address from `p` on. */
  lemma AlignUpLeast(p: nat, alignment: nat)
    requires alignment > 0
    ensures AlignUp(p, alignment) % alignment == 0
    ensures AlignUp(p, alignment) == p + Padding(p, alignment) < p + alignment
    ensures forall q :: p <= q < AlignUp(p, alignment) ==> q % alignment != 0
  {
    var q := p / alignment;
    assert p == q * alignment + p % alignment;
    if p % alignment != 0 {
      assert p + alignment - p % alignment == (q + 1) * alignment by {
        assert (q + 1) * alignment == q * alignment + alignment;
      }
      MultipleHasNoRemainder(q + 1, alignment);
      forall x | p <= x < AlignUp(p, alignment) ensures x % alignment != 0 {
        BetweenMultiples(q, x, alignment);
      }
    }
  }

  lemma BetweenMultiples(q: nat, x: nat, a: nat)
    requires a > 0 && q * a < x < (q + 1) * a
    ensures x % a != 0
  {
    var d := x / a;
    assert x == d * a + x % a;
    assert (q + 1) * a == q * a + a;
    MultiplesApart(q, d, a);
    MultiplesApart(d, q, a);
  }

  /** What an allocation asks the buffer for; the sum wraps at 64 bits. */
  function TotalNeeded(st: State, n: nat, alignment: nat): nat
    requires alignment > 0
  {
    (n + Padding(st.next, alignment)) % LIMIT
  }

  predicate Succeeds(st: State, n: nat, alignment: nat)
    requires alignment > 0 && Ok64(st)
  {
    st.base + st.size - st.next >= TotalNeeded(st, n, alignment)
  }

  /** The padded size fits 64 bits. */
  predicate Fits(st: State, n: nat, alignment: nat)
    requires alignment > 0
  {
    n + Padding(st.next, alignment) < LIMIT
  }

  function Allocated(st: State, n: nat, alignment: nat): (st': State)
    requires alignment > 0 && Ok64(st)
    ensures Ok64(st') && st'.base == st.base && st'.size == st.size && st'.next >= st.next
  {
    if Succeeds(st, n, alignment) then st.(next := st.next + TotalNeeded(st, n, alignment)) else st
  }

  /** A request and the block it was given. */
  datatype Block = Block(addr: nat, size: nat, alignment: nat, padding: nat)

  function BlockOf(st: State, n: nat, alignment: nat): Block
    requires alignment > 0
  {
    Block(st.next + Padding(st.next, alignment), n, alignment, Padding(st.next, alignment))
  }

  predicate Inside(st: State, b: Block) {
    st.base <= b.addr && b.addr + b.size <= st.base + st.size
  }

  /** A block that was given out lies inside the buffer exactly when its padded size did not wrap. */
  lemma InsideIffFits(st: State, n: nat, alignment: nat)
    requires alignment > 0 && Ok64(st) && n < LIMIT && Succeeds(st, n, alignment)
    ensures Inside(st, BlockOf(st, n, alignment)) <==> Fits(st, n, alignment)
  {
  }

  /** One byte into the buffer, a request of 2^64 - 1 bytes aligned to 2 succeeds: the padded size wraps to 0. */
  lemma HugeRequestSucceeds(base: nat, size: nat)
    requires base % 2 == 0 && size >= 1 && base + size < LIMIT
    ensures var st := State(base, size, base + 1);
            && Ok64(st) && Succeeds(st, LIMIT - 1, 2) && Allocated(st, LIMIT - 1, 2) == st
            && !Inside(st, BlockOf(st, LIMIT - 1, 2))
  {
  }

  // ----- Runs -----

  datatype Request = Request(n: nat, alignment: nat)

  /** The state after the requests and the blocks given out, in order. */
  datatype History = History(st: State, blocks: seq<Block>)

  function Run(st0: State, requests: seq<Request>): (h: History)
    requires Ok64(st0) && forall i :: 0 <= i < |requests| ==> requests[i].alignment > 0
    ensures Ok64(h.st) && h.st.base == st0.base && h.st.size == st0.size
  {
    if requests == [] then History(st0, [])
    else
      var h := Run(st0, requests[..|requests| - 1]);
      var r := requests[|requests| - 1];
      History(Allocated(h.st, r.n, r.alignment),
              if Succeeds(h.st, r.n, r.alignment) then h.blocks + [BlockOf(h.st, r.n, r.alignment)] else h.blocks)
  }

  /** No request that is granted wraps. */
  ghost predicate GrantedFit(st0: State, requests: seq<Request>)
    requires Ok64(st0) && forall i :: 0 <= i < |requests| ==> requests[i].alignment > 0
  {
    forall i :: 0 <= i < |requests| ==> GrantFits(Run(st0, requests[..i]).st, requests[i])
  }

  predicate GrantFits(st: State, r: Request)
    requires Ok64(st) && r.alignment > 0
  {
    Succeeds(st, r.n, r.alignment) ==> Fits(st, r.n, r.alignment)
  }

  function Total(blocks: seq<Block>): nat {
    if blocks == [] then 0
    else Total(blocks[..|blocks| - 1]) + blocks[|blocks| - 1].size + blocks[|blocks| - 1].padding
  }

  /** Blocks are aligned and inside the part of the buffer in use. */
  ghost predicate WellPlaced(st: State, b: Block) {
    b.alignment > 0 && b.addr % b.alignment == 0 && st.base <= b.addr && b.addr + b.size <= st.next
  }

  ghost predicate Disjoint(blocks: seq<Block>) {
    forall i, j :: 0 <= i < j < |blocks| ==> blocks[i].addr + blocks[i].size <= blocks[j].addr
  }

  lemma BlockPlaced(st: State, n: nat, alignment: nat)
    requires alignment > 0 && Ok64(st) && Fits(st, n, alignment) && Succeeds(st, n, alignment)
    ensures var b, st' := BlockOf(st, n, alignment), Allocated(st, n, alignment);
            WellPlaced(st', b) && st.next <= b.addr && st'.next == st.next + b.size + b.padding
  {
    AlignUpLeast(st.next, alignment);
  }

  ghost predicate BlocksApart(h: History) {
    && (forall i :: 0 <= i < |h.blocks| ==> WellPlaced(h.st, h.blocks[i]))
    && Disjoint(h.blocks)
    && h.st.next - h.st.base == Total(h.blocks) <= h.st.size
  }

  lemma BlockAdded(h: History, r: Request)
    requires Ok64(h.st) && BlocksApart(h) && r.alignment > 0
    requires Fits(h.st, r.n, r.alignment) && Succeeds(h.st, r.n, r.alignment)
    ensures BlocksApart(History(Allocated(h.st, r.n, r.alignment), h.blocks + [BlockOf(h.st, r.n, r.alignment)]))
  {
    BlockPlaced(h.st, r.n, r.alignment);
    assert (h.blocks + [BlockOf(h.st, r.n, r.alignment)])[..|h.blocks|] == h.blocks;
  }

  /** From an empty arena, while granted requests fit: blocks are aligned, inside the buffer and disjoint, and the space
      in use is exactly their sizes and paddings. */
  lemma {:induction false} RunKeepsBlocksApart(st0: State, requests: seq<Request>)
    requires Ok64(st0) && st0.next == st0.base
    requires (forall i :: 0 <= i < |requests| ==> requests[i].alignment > 0) && GrantedFit(st0, requests)
    ensures BlocksApart(Run(st0, requests))
  {
    if requests != [] {
      var last := |requests| - 1;
      var init, r := requests[..last], requests[last];
      assert forall i :: 0 <= i < last ==> init[..i] == requests[..i];
      RunKeepsBlocksApart(st0, init);
      var h := Run(st0, init);
      assert GrantFits(h.st, r);
      if Succeeds(h.st, r.n, r.alignment) {
        BlockAdded(h, r);
      }
    }
  }

  /** A block once given out stays in the history. */
  lemma {:induction false} BlockStays(st0: State, requests: seq<Request>, i: nat)
    requires Ok64(st0) && (forall k :: 0 <= k < |requests| ==> requests[k].alignment > 0) && i < |requests|
    requires Succeeds(Run(st0, requests[..i]).st, requests[i].n, requests[i].alignment)
    ensures BlockOf(Run(st0, requests[..i]).st, requests[i].n, requests[i].alignment) in Run(st0, requests).blocks
  {
    var init := requests[..|requests| - 1];
    if i < |init| {
      assert init[..i] == requests[..i] && init[i] == requests[i];
      BlockStays(st0, init, i);
      assert Run(st0, init).blocks <= Run(st0, requests).blocks;
    } else {
      assert requests[..i] == init;
    }
  }

  /** Over every run from an empty arena, the blocks are aligned, disjoint and inside the buffer, with the space used
      exactly their sizes and paddings, if and only if no granted request wrapped. */
  lemma BlocksApartIff(st0: State, requests: seq<Request>)
    requires Ok64(st0) && st0.next == st0.base
    requires forall i :: 0 <= i < |requests| ==> requests[i].alignment > 0 && requests[i].n < LIMIT
    ensures BlocksApart(Run(st0, requests)) <==> GrantedFit(st0, requests)
  {
    if GrantedFit(st0, requests) {
      RunKeepsBlocksApart(st0, requests);
    } else {
      var i :| 0 <= i < |requests| && !GrantFits(Run(st0, requests[..i]).st, requests[i]);
      var st, r, h := Run(st0, requests[..i]).st, requests[i], Run(st0, requests);
      BlockStays(st0, requests, i);
      InsideIffFits(st, r.n, r.alignment);
      var b := BlockOf(st, r.n, r.alignment);
      var k :| 0 <= k < |h.blocks| && h.blocks[k] == b;
      assert !WellPlaced(h.st, h.blocks[k]);
    }
  }

  // ----- The arena as an object -----

  class Arena {
    const base: nat
    const size: nat
    var next: nat

    function St(): State
      reads this
    {
      State(base, size, next)
    }

    constructor (base: nat, size: nat)
      requires base + size < LIMIT
      ensures St() == State(base, size, base) && Ok64(St())
    {
      this.base, this.size, this.next := base, size, base;
    }

    method Used() returns (n: nat)
      requires Ok64(St())
      ensures n == next - base <= size
    {
      n := next - base;
    }

    /** `None` stands for the exception of a failed allocation. */
    method Allocate(n: nat, alignment: nat) returns (r: Option<nat>)
      requires Ok64(St()) && alignment > 0 && n < LIMIT && alignment < LIMIT
      modifies this
      ensures Ok64(St()) && St() == Allocated(old(St()), n, alignment)
      ensures r == if Succeeds(old(St()), n, alignment) then Some(BlockOf(old(St()), n, alignment).addr) else None
    {
      var aligned := AlignUp(next, alignment) % LIMIT;
      var padding := (aligned + LIMIT - next) % LIMIT;
      PaddingUnwrapped(next, alignment);
      var total := (n + padding) % LIMIT;
      var used := Used();
      if size - used >= total {
        r := Some(next + padding);
        next := next + total;
      } else {
        r := None;
      }
    }
  }

  /** The padding is right even where the aligned address itself wraps. */
  lemma PaddingUnwrapped(p: nat, alignment: nat)
    requires 0 < alignment < LIMIT && p < LIMIT
    ensures (AlignUp(p, alignment) % LIMIT + LIMIT - p) % LIMIT == Padding(p, alignment)
  {
    AlignUpLeast(p, alignment);
    var s := AlignUp(p, alignment);
    assert s % LIMIT == if s < LIMIT then s else s - LIMIT;
  }
}
