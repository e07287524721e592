/** The OR-set driver: nodes publish copies of their state under version counters and merge the copies of their peers.
    The merge of two states is any join; a local update only grows a state. */
module Gossip {
  import opened Wrappers

  // ----- Joins -----

  datatype Lattice<!T> = Lattice(leq: (T, T) -> bool, join: (T, T) -> T, bottom: T)

  /** A partial order in which `join` gives the least upper bound of two states, and `bottom` is least. */
  ghost predicate IsSemilattice<T(!new)>(l: Lattice<T>) {
    && (forall a: T :: l.leq(a, a) && l.leq(l.bottom, a))
    && (forall a: T, b: T :: l.leq(a, b) && l.leq(b, a) ==> a == b)
    && (forall a: T, b: T, c: T :: l.leq(a, b) && l.leq(b, c) ==> l.leq(a, c))
    && (forall a: T, b: T :: l.leq(a, l.join(a, b)) && l.leq(b, l.join(a, b)))
    && (forall a: T, b: T, u: T :: l.leq(a, u) && l.leq(b, u) ==> l.leq(l.join(a, b), u))
  }

  predicate Leq<T>(l: Lattice<T>, a: T, b: T) {
    l.leq(a, b)
  }

  lemma LeqTransitive<T(!new)>(l: Lattice<T>, a: T, b: T, c: T)
    requires IsSemilattice(l) && Leq(l, a, b) && Leq(l, b, c)
    ensures Leq(l, a, c)
  {
  }

  lemma JoinIsLeast<T(!new)>(l: Lattice<T>, a: T, b: T)
    requires IsSemilattice(l)
    ensures Leq(l, a, l.join(a, b)) && Leq(l, b, l.join(a, b))
    ensures (Leq(l, b, a) ==> l.join(a, b) == a) && (Leq(l, a, b) ==> l.join(a, b) == b)
    ensures forall u: T :: Leq(l, a, u) && Leq(l, b, u) ==> Leq(l, l.join(a, b), u)
  {
    assert l.leq(a, a) && l.leq(b, b);
  }

  function JoinAll<T>(l: Lattice<T>, xs: seq<T>): T {
    if xs == [] then l.bottom else l.join(JoinAll(l, xs[..|xs| - 1]), xs[|xs| - 1])
  }

  ghost predicate UpperBound<T>(l: Lattice<T>, xs: seq<T>, u: T) {
    forall i :: 0 <= i < |xs| ==> Leq(l, xs[i], u)
  }

  /** The join of a list is its least upper bound. */
  lemma {:induction false} JoinAllIsLeast<T(!new)>(l: Lattice<T>, xs: seq<T>)
    requires IsSemilattice(l)
    ensures UpperBound(l, xs, JoinAll(l, xs))
    ensures forall u: T :: UpperBound(l, xs, u) ==> Leq(l, JoinAll(l, xs), u)
  {
    if xs != [] {
      var init, last := xs[..|xs| - 1], xs[|xs| - 1];
      JoinAllIsLeast(l, init);
      JoinIsLeast(l, JoinAll(l, init), last);
      forall i | 0 <= i < |xs| ensures Leq(l, xs[i], JoinAll(l, xs)) {
        if i < |init| {
          assert Leq(l, init[i], JoinAll(l, init));
          LeqTransitive(l, xs[i], JoinAll(l, init), JoinAll(l, xs));
        }
      }
      forall u: T | UpperBound(l, xs, u) ensures Leq(l, JoinAll(l, xs), u) {
        assert UpperBound(l, init, u);
      }
    }
  }

  // ----- The driver -----

  const WRAP: nat := 0x1_0000_0000

  function Increment(version: nat): nat {
    if version + 1 == WRAP then 0 else version + 1
  }

  /** States of the nodes; per node, the last version read of each peer; saved copies and their 32-bit versions. */
  datatype Net<T> = Net(nodes: seq<T>, lastRead: seq<seq<nat>>, saved: seq<T>, counter: seq<nat>)

  predicate Sized<T>(net: Net<T>) {
    && |net.nodes| == |net.lastRead| == |net.saved| == |net.counter|
    && forall i :: 0 <= i < |net.lastRead| ==> |net.lastRead[i]| == |net.nodes|
  }

  function NewNet<T>(l: Lattice<T>, n: nat): (net: Net<T>)
    ensures Sized(net) && |net.nodes| == n
  {
    Net(seq(n, _ => l.bottom), seq(n, _ => seq(n, _ => 0)), seq(n, _ => l.bottom), seq(n, _ => 0))
  }

  function Saved<T>(net: Net<T>, i: nat): (net': Net<T>)
    requires Sized(net) && i < |net.nodes|
    ensures Sized(net') && |net'.nodes| == |net.nodes|
  {
    net.(saved := net.saved[i := net.nodes[i]], counter := net.counter[i := Increment(net.counter[i])])
  }

  /** Node `i` looks at peer `j`: it merges the saved copy if its version is newer than the last one read. */
  function LoadedPeer<T>(l: Lattice<T>, net: Net<T>, i: nat, j: nat): (net': Net<T>)
    requires Sized(net) && i < |net.nodes| && j < |net.nodes|
    ensures Sized(net') && |net'.nodes| == |net.nodes| && net'.saved == net.saved && net'.counter == net.counter
  {
    if j == i || net.lastRead[i][j] >= net.counter[j] then net
    else net.(nodes := net.nodes[i := l.join(net.nodes[i], net.saved[j])],
              lastRead := net.lastRead[i := net.lastRead[i][j := net.counter[j]]])
  }

  /** Node `i` after it looked at the first `k` peers. */
  function Loading<T>(l: Lattice<T>, net: Net<T>, i: nat, k: nat): (net': Net<T>)
    requires Sized(net) && i < |net.nodes| && k <= |net.nodes|
    ensures Sized(net') && |net'.nodes| == |net.nodes| && net'.saved == net.saved && net'.counter == net.counter
  {
    if k == 0 then net else LoadedPeer(l, Loading(l, net, i, k - 1), i, k - 1)
  }

  function Loaded<T>(l: Lattice<T>, net: Net<T>, i: nat): (net': Net<T>)
    requires Sized(net) && i < |net.nodes|
    ensures Sized(net') && |net'.nodes| == |net.nodes| && net'.saved == net.saved && net'.counter == net.counter
  {
    Loading(l, net, i, |net.nodes|)
  }

  function AllSaved<T>(net: Net<T>, k: nat): (net': Net<T>)
    requires Sized(net) && k <= |net.nodes|
    ensures Sized(net') && |net'.nodes| == |net.nodes|
  {
    if k == 0 then net else Saved(AllSaved(net, k - 1), k - 1)
  }

  function AllLoaded<T>(l: Lattice<T>, net: Net<T>, k: nat): (net': Net<T>)
    requires Sized(net) && k <= |net.nodes|
    ensures Sized(net') && |net'.nodes| == |net.nodes| && net'.saved == net.saved && net'.counter == net.counter
  {
    if k == 0 then net else Loaded(l, AllLoaded(l, net, k - 1), k - 1)
  }

  function Synced<T>(l: Lattice<T>, net: Net<T>): (net': Net<T>)
    requires Sized(net)
    ensures Sized(net') && |net'.nodes| == |net.nodes|
  {
    AllLoaded(l, AllSaved(net, |net.nodes|), |net.nodes|)
  }

  // ----- Runs -----

  datatype Step<T> = Update(i: nat, state: T) | Save(i: nat) | Load(i: nat)

  ghost predicate Enabled<T>(l: Lattice<T>, net: Net<T>, step: Step<T>) {
    step.i < |net.nodes| && (step.Update? ==> Leq(l, net.nodes[step.i], step.state))
  }

  function Do<T>(l: Lattice<T>, net: Net<T>, step: Step<T>): (net': Net<T>)
    requires Sized(net) && step.i < |net.nodes|
    ensures Sized(net') && |net'.nodes| == |net.nodes|
  {
    match step
    case Update(i, x) => net.(nodes := net.nodes[i := x])
    case Save(i) => Saved(net, i)
    case Load(i) => Loaded(l, net, i)
  }

  ghost function Run<T>(l: Lattice<T>, n: nat, steps: seq<Step<T>>): (r: Option<Net<T>>)
    ensures r.Some? ==> Sized(r.value) && |r.value.nodes| == n
  {
    if steps == [] then Some(NewNet(l, n))
    else
      var r := Run(l, n, steps[..|steps| - 1]);
      var step := steps[|steps| - 1];
      if r.Some? && Enabled(l, r.value, step) then Some(Do(l, r.value, step)) else None
  }

  /** How often node `j` saved. */
  function Saves<T>(steps: seq<Step<T>>, j: nat): nat {
    if steps == [] then 0
    else
      var step := steps[|steps| - 1];
      Saves(steps[..|steps| - 1], j) + if step.Save? && step.i == j then 1 else 0
  }

  ghost predicate NoWrap<T>(steps: seq<Step<T>>) {
    forall j :: Saves(steps, j) < WRAP
  }

  // ----- What every run keeps -----

  /** A version that was read and is still the latest has been merged. */
  ghost predicate UpToDate<T>(l: Lattice<T>, net: Net<T>, i: nat, j: nat)
    requires Sized(net) && i < |net.nodes| && j < |net.nodes|
  {
    && net.lastRead[i][j] <= net.counter[j]
    && (net.lastRead[i][j] == net.counter[j] ==> Leq(l, net.saved[j], net.nodes[i]))
  }

  ghost predicate Safe<T>(l: Lattice<T>, net: Net<T>) {
    Sized(net) && forall i, j :: 0 <= i < |net.nodes| && 0 <= j < |net.nodes| && i != j ==> UpToDate(l, net, i, j)
  }

  lemma UpdateSafe<T(!new)>(l: Lattice<T>, net: Net<T>, i: nat, x: T)
    requires IsSemilattice(l) && Safe(l, net) && i < |net.nodes| && Leq(l, net.nodes[i], x)
    ensures Safe(l, net.(nodes := net.nodes[i := x]))
  {
    var net' := net.(nodes := net.nodes[i := x]);
    forall a, j | 0 <= a < |net.nodes| && 0 <= j < |net.nodes| && a != j ensures UpToDate(l, net', a, j) {
      assert UpToDate(l, net, a, j);
      if a == i && Leq(l, net.saved[j], net.nodes[i]) {
        LeqTransitive(l, net.saved[j], net.nodes[i], x);
      }
    }
  }

  lemma SaveSafe<T(!new)>(l: Lattice<T>, net: Net<T>, i: nat)
    requires Safe(l, net) && i < |net.nodes| && net.counter[i] + 1 < WRAP
    ensures Safe(l, Saved(net, i))
  {
    forall a, j | 0 <= a < |net.nodes| && 0 <= j < |net.nodes| && a != j ensures UpToDate(l, Saved(net, i), a, j) {
      assert UpToDate(l, net, a, j);
    }
  }

  /** Skipping a peer whose version has not advanced is the same as merging its copy. */
  lemma PeerSafe<T(!new)>(l: Lattice<T>, net: Net<T>, i: nat, j: nat)
    requires IsSemilattice(l) && Safe(l, net) && i < |net.nodes| && j < |net.nodes|
    ensures Safe(l, LoadedPeer(l, net, i, j))
    ensures j != i ==> LoadedPeer(l, net, i, j).nodes == net.nodes[i := l.join(net.nodes[i], net.saved[j])]
  {
    var net' := LoadedPeer(l, net, i, j);
    var x := l.join(net.nodes[i], net.saved[j]);
    JoinIsLeast(l, net.nodes[i], net.saved[j]);
    if j != i {
      assert UpToDate(l, net, i, j);
    }
    if net' != net {
      forall a, b | 0 <= a < |net.nodes| && 0 <= b < |net.nodes| && a != b ensures UpToDate(l, net', a, b) {
        assert UpToDate(l, net, a, b);
        if a == i && Leq(l, net.saved[b], net.nodes[i]) {
          LeqTransitive(l, net.saved[b], net.nodes[i], x);
        }
      }
    }
  }

  // ----- The driver that always merges -----

  /** Nodes and saved copies alone: what a driver without versions would keep. */
  datatype Plain<T> = Plain(nodes: seq<T>, saved: seq<T>)

  function Merging<T>(l: Lattice<T>, p: Plain<T>, i: nat, k: nat): (p': Plain<T>)
    requires |p.nodes| == |p.saved| && i < |p.nodes| && k <= |p.nodes|
    ensures |p'.nodes| == |p.nodes| && p'.saved == p.saved
  {
    if k == 0 then p
    else
      var q := Merging(l, p, i, k - 1);
      if k - 1 == i then q else q.(nodes := q.nodes[i := l.join(q.nodes[i], p.saved[k - 1])])
  }

  function PlainDo<T>(l: Lattice<T>, p: Plain<T>, step: Step<T>): (p': Plain<T>)
    requires |p.nodes| == |p.saved| && step.i < |p.nodes|
    ensures |p'.nodes| == |p.nodes| == |p'.saved|
  {
    match step
    case Update(i, x) => p.(nodes := p.nodes[i := x])
    case Save(i) => p.(saved := p.saved[i := p.nodes[i]])
    case Load(i) => Merging(l, p, i, |p.nodes|)
  }

  function PlainRun<T>(l: Lattice<T>, n: nat, steps: seq<Step<T>>): (p: Plain<T>)
    requires forall k :: 0 <= k < |steps| ==> steps[k].i < n
    ensures |p.nodes| == |p.saved| == n
  {
    if steps == [] then Plain(seq(n, _ => l.bottom), seq(n, _ => l.bottom))
    else PlainDo(l, PlainRun(l, n, steps[..|steps| - 1]), steps[|steps| - 1])
  }

  function PlainOf<T>(net: Net<T>): Plain<T> {
    Plain(net.nodes, net.saved)
  }

  lemma {:induction false} LoadingMerges<T(!new)>(l: Lattice<T>, net: Net<T>, i: nat, k: nat)
    requires IsSemilattice(l) && Safe(l, net) && i < |net.nodes| && k <= |net.nodes|
    ensures Safe(l, Loading(l, net, i, k)) && PlainOf(Loading(l, net, i, k)) == Merging(l, PlainOf(net), i, k)
  {
    if k > 0 {
      LoadingMerges(l, net, i, k - 1);
      PeerSafe(l, Loading(l, net, i, k - 1), i, k - 1);
    }
  }

  lemma DoMerges<T(!new)>(l: Lattice<T>, net: Net<T>, step: Step<T>)
    requires IsSemilattice(l) && Safe(l, net) && Enabled(l, net, step)
    requires step.Save? ==> net.counter[step.i] + 1 < WRAP
    ensures Safe(l, Do(l, net, step)) && PlainOf(Do(l, net, step)) == PlainDo(l, PlainOf(net), step)
  {
    match step
    case Update(i, x) => UpdateSafe(l, net, i, x);
    case Save(i) => SaveSafe(l, net, i);
    case Load(i) => LoadingMerges(l, net, i, |net.nodes|);
  }

  lemma DoCounts<T>(l: Lattice<T>, net: Net<T>, step: Step<T>)
    requires Sized(net) && step.i < |net.nodes|
    ensures Do(l, net, step).counter ==
              if step.Save? then net.counter[step.i := Increment(net.counter[step.i])] else net.counter
  {
  }

  lemma {:induction false} CounterIsSaves<T(!new)>(l: Lattice<T>, n: nat, steps: seq<Step<T>>, j: nat)
    requires Run(l, n, steps).Some? && j < n && Saves(steps, j) < WRAP
    ensures Run(l, n, steps).value.counter[j] == Saves(steps, j)
  {
    if steps != [] {
      CounterIsSaves(l, n, steps[..|steps| - 1], j);
      DoCounts(l, Run(l, n, steps[..|steps| - 1]).value, steps[|steps| - 1]);
    }
  }

  /** In every run in which no counter wraps, skipping the peers whose version has not advanced leaves every node, and
      every saved copy, as merging all copies at every load would. */
  lemma {:induction false} SkippingIsMerging<T(!new)>(l: Lattice<T>, n: nat, steps: seq<Step<T>>)
    requires IsSemilattice(l) && Run(l, n, steps).Some? && NoWrap(steps)
    ensures forall k :: 0 <= k < |steps| ==> steps[k].i < n
    ensures Safe(l, Run(l, n, steps).value) && PlainOf(Run(l, n, steps).value) == PlainRun(l, n, steps)
  {
    if steps != [] {
      var init, step := steps[..|steps| - 1], steps[|steps| - 1];
      assert forall j :: Saves(init, j) <= Saves(steps, j);
      SkippingIsMerging(l, n, init);
      assert forall k :: 0 <= k < |steps| - 1 ==> steps[k] == init[k];
      CounterIsSaves(l, n, init, step.i);
      DoMerges(l, Run(l, n, init).value, step);
    }
  }

  // ----- Sync -----

  ghost predicate CountersLow<T>(net: Net<T>) {
    forall j :: 0 <= j < |net.counter| ==> net.counter[j] + 1 < WRAP
  }

  lemma {:induction false} AllSavedState<T(!new)>(l: Lattice<T>, net: Net<T>, k: nat)
    requires Safe(l, net) && CountersLow(net) && k <= |net.nodes|
    ensures var net' := AllSaved(net, k);
            && net'.nodes == net.nodes && net'.lastRead == net.lastRead
            && (forall j :: 0 <= j < k ==> net'.saved[j] == net.nodes[j])
            && (forall j :: 0 <= j < |net.nodes| ==> net'.counter[j] == net.counter[j] + if j < k then 1 else 0)
            && Safe(l, net')
  {
    if k > 0 {
      AllSavedState(l, net, k - 1);
      SaveSafe(l, AllSaved(net, k - 1), k - 1);
    }
  }

  /** Merging the copies of all peers gives the least upper bound of the own state and those copies. */
  lemma {:induction false} MergingIsLeast<T(!new)>(l: Lattice<T>, p: Plain<T>, i: nat, k: nat)
    requires IsSemilattice(l) && |p.nodes| == |p.saved| && i < |p.nodes| && k <= |p.nodes| && p.saved[i] == p.nodes[i]
    ensures var p' := Merging(l, p, i, k);
            && Leq(l, p.saved[i], p'.nodes[i]) && UpperBound(l, p.saved[..k], p'.nodes[i])
            && (forall u: T :: UpperBound(l, p.saved, u) ==> Leq(l, p'.nodes[i], u))
            && forall a :: 0 <= a < |p.nodes| && a != i ==> p'.nodes[a] == p.nodes[a]
  {
    assert Leq(l, p.saved[i], p.saved[i]);
    if k > 0 {
      MergingIsLeast(l, p, i, k - 1);
      var q, p' := Merging(l, p, i, k - 1), Merging(l, p, i, k);
      JoinIsLeast(l, q.nodes[i], p.saved[k - 1]);
      forall j | 0 <= j < k ensures Leq(l, p.saved[..k][j], p'.nodes[i]) {
        if j < k - 1 {
          assert Leq(l, p.saved[..k - 1][j], q.nodes[i]);
        }
      }
    }
  }

  lemma MergedIsJoin<T(!new)>(l: Lattice<T>, p: Plain<T>, i: nat)
    requires IsSemilattice(l) && |p.nodes| == |p.saved| && i < |p.nodes| && p.saved[i] == p.nodes[i]
    ensures Merging(l, p, i, |p.nodes|).nodes == p.nodes[i := JoinAll(l, p.saved)]
  {
    MergingIsLeast(l, p, i, |p.nodes|);
    JoinAllIsLeast(l, p.saved);
    var x := Merging(l, p, i, |p.nodes|).nodes[i];
    assert p.saved[..|p.nodes|] == p.saved;
    assert Leq(l, x, JoinAll(l, p.saved)) && Leq(l, JoinAll(l, p.saved), x);
  }

  lemma LoadedState<T(!new)>(l: Lattice<T>, net: Net<T>, i: nat)
    requires IsSemilattice(l) && Safe(l, net) && i < |net.nodes| && net.saved[i] == net.nodes[i]
    ensures Safe(l, Loaded(l, net, i)) && Loaded(l, net, i).nodes == net.nodes[i := JoinAll(l, net.saved)]
  {
    LoadingMerges(l, net, i, |net.nodes|);
    MergedIsJoin(l, PlainOf(net), i);
  }

  lemma {:induction false} AllLoadedState<T(!new)>(l: Lattice<T>, net: Net<T>, k: nat)
    requires IsSemilattice(l) && Safe(l, net) && net.saved == net.nodes && k <= |net.nodes|
    ensures var net' := AllLoaded(l, net, k);
            && Safe(l, net')
            && forall i :: 0 <= i < |net.nodes| ==>
                 net'.nodes[i] == if i < k then JoinAll(l, net.nodes) else net.nodes[i]
  {
    if k > 0 {
      AllLoadedState(l, net, k - 1);
      var mid := AllLoaded(l, net, k - 1);
      LoadedState(l, mid, k - 1);
    }
  }

  /** One Sync, from any state a run can reach, leaves all nodes equal: each holds the join of all node states before.
      */
  lemma SyncConverges<T(!new)>(l: Lattice<T>, n: nat, steps: seq<Step<T>>)
    requires IsSemilattice(l) && Run(l, n, steps).Some? && NoWrap(steps) && CountersLow(Run(l, n, steps).value)
    ensures var net := Run(l, n, steps).value;
            Synced(l, net).nodes == seq(n, _ => JoinAll(l, net.nodes))
  {
    SkippingIsMerging(l, n, steps);
    var net := Run(l, n, steps).value;
    AllSavedState(l, net, n);
    assert AllSaved(net, n).saved == net.nodes;
    AllLoadedState(l, AllSaved(net, n), n);
  }

  // ----- When a counter wraps -----

  /** There is nothing but the bottom state. */
  ghost predicate Trivial<T(!new)>(l: Lattice<T>) {
    forall x: T :: Leq(l, x, l.bottom)
  }

  ghost predicate SavesAtMost<T>(steps: seq<Step<T>>, bound: nat) {
    forall j :: Saves(steps, j) <= bound
  }

  lemma {:induction false} RunInRange<T>(l: Lattice<T>, n: nat, steps: seq<Step<T>>)
    requires Run(l, n, steps).Some?
    ensures forall k :: 0 <= k < |steps| ==> steps[k].i < n
  {
    if steps != [] {
      RunInRange(l, n, steps[..|steps| - 1]);
      assert forall k :: 0 <= k < |steps| - 1 ==> steps[k] == steps[..|steps| - 1][k];
    }
  }

  lemma RunNext<T>(l: Lattice<T>, n: nat, steps: seq<Step<T>>, step: Step<T>)
    requires Run(l, n, steps).Some? && Enabled(l, Run(l, n, steps).value, step)
    requires forall k :: 0 <= k < |steps| ==> steps[k].i < n
    ensures Run(l, n, steps + [step]) == Some(Do(l, Run(l, n, steps).value, step))
    ensures forall k :: 0 <= k < |steps + [step]| ==> (steps + [step])[k].i < n
    ensures PlainRun(l, n, steps + [step]) == PlainDo(l, PlainRun(l, n, steps), step)
    ensures forall j :: Saves(steps + [step], j) == Saves(steps, j) + if step.Save? && step.i == j then 1 else 0
  {
    assert (steps + [step])[..|steps|] == steps;
  }

  /** Two nodes, of which node 1 has read version `read` of node 0. */
  function Pair<T>(l: Lattice<T>, a: T, b: T, read: nat, saved: T, version: nat): Net<T> {
    Net([a, b], [[0, 0], [read, 0]], [saved, l.bottom], [version, 0])
  }

  function Saving<T>(k: nat): (steps: seq<Step<T>>)
    ensures |steps| == k
  {
    seq(k, _ => Save(0))
  }

  lemma NewPair<T>(l: Lattice<T>)
    ensures NewNet(l, 2) == Pair(l, l.bottom, l.bottom, 0, l.bottom, 0)
    ensures Run(l, 2, []) == Some(NewNet(l, 2))
    ensures PlainRun(l, 2, []) == Plain([l.bottom, l.bottom], [l.bottom, l.bottom])
  {
    var net := NewNet(l, 2);
    assert net.lastRead[0] == [0, 0] && net.lastRead[1] == [0, 0];
    assert net.lastRead == [[0, 0], [0, 0]] && net.counter == [0, 0];
    assert net.nodes == [l.bottom, l.bottom] && net.saved == [l.bottom, l.bottom];
  }

  lemma {:induction false} SavesOnly<T>(l: Lattice<T>, k: nat)
    requires k < WRAP
    ensures Run(l, 2, Saving(k)) == Some(Pair(l, l.bottom, l.bottom, 0, l.bottom, k))
    ensures PlainRun(l, 2, Saving(k)) == Plain([l.bottom, l.bottom], [l.bottom, l.bottom])
    ensures forall j :: Saves(Saving<T>(k), j) == if j == 0 then k else 0
  {
    if k == 0 {
      NewPair(l);
      assert Saving<T>(0) == [];
    } else {
      SavesOnly(l, k - 1);
      RunNext(l, 2, Saving(k - 1), Save(0));
      assert Saving<T>(k - 1) + [Save(0)] == Saving(k);
      assert [l.bottom, l.bottom][0 := l.bottom] == [l.bottom, l.bottom] && [k - 1, 0][0 := k] == [k, 0];
    }
  }

  /** What node 1's load does to such a pair, with versions and without. */
  lemma PairLoaded<T>(l: Lattice<T>, a: T, b: T, read: nat, saved: T, version: nat)
    ensures Loaded(l, Pair(l, a, b, read, saved, version), 1) ==
              if read < version then Pair(l, a, l.join(b, saved), version, saved, version)
              else Pair(l, a, b, read, saved, version)
    ensures Merging(l, Plain([a, b], [saved, l.bottom]), 1, 2) == Plain([a, l.join(b, saved)], [saved, l.bottom])
  {
    var net, x := Pair(l, a, b, read, saved, version), l.join(b, saved);
    assert Loading(l, net, 1, 0) == net && Loading(l, net, 1, 1) == LoadedPeer(l, net, 1, 0);
    assert [read, 0][0 := version] == [version, 0] && [a, b][1 := x] == [a, x];
    assert net.lastRead[1 := [version, 0]] == [[0, 0], [version, 0]];
    assert Loading(l, net, 1, 2) == Loading(l, net, 1, 1);
    var p := Plain([a, b], [saved, l.bottom]);
    assert Merging(l, p, 1, 0) == p && Merging(l, p, 1, 1) == p.(nodes := [a, x]);
  }

  /** After 2^32 - 1 saves that the peer has read, an update and one more save bring the counter to 0: the peer takes
      the copy for old and skips it, where merging would have brought the update over. */
  lemma WrapLosesAnUpdate<T(!new)>(l: Lattice<T>, x: T) returns (steps: seq<Step<T>>)
    requires IsSemilattice(l) && x != l.bottom
    ensures Run(l, 2, steps).Some? && (forall k :: 0 <= k < |steps| ==> steps[k].i < 2) && SavesAtMost(steps, WRAP)
    ensures Run(l, 2, steps).value.nodes == [x, l.bottom] && PlainRun(l, 2, steps).nodes == [x, x]
  {
    var bot := l.bottom;
    JoinIsLeast(l, bot, bot);
    JoinIsLeast(l, bot, x);
    steps := Saving(WRAP - 1);
    SavesOnly(l, WRAP - 1);
    PairLoaded(l, bot, bot, 0, bot, WRAP - 1);
    RunNext(l, 2, steps, Load(1));
    steps := steps + [Load(1)];
    RunNext(l, 2, steps, Update(0, x));
    steps := steps + [Update(0, x)];
    assert Run(l, 2, steps).value == Pair(l, x, bot, WRAP - 1, bot, WRAP - 1);
    RunNext(l, 2, steps, Save(0));
    steps := steps + [Save(0)];
    assert Run(l, 2, steps).value == Pair(l, x, bot, WRAP - 1, x, 0);
    PairLoaded(l, x, bot, WRAP - 1, x, 0);
    RunNext(l, 2, steps, Load(1));
    steps := steps + [Load(1)];
  }

  /** After every run with at most `bound` saves per node, nodes and copies are as if every load merged every copy. */
  ghost predicate SkippingSafe<T(!new)>(l: Lattice<T>, bound: nat) {
    forall n: nat, steps: seq<Step<T>> :: Run(l, n, steps).Some? && SavesAtMost(steps, bound) ==>
      (forall k :: 0 <= k < |steps| ==> steps[k].i < n) && PlainOf(Run(l, n, steps).value) == PlainRun(l, n, steps)
  }

  lemma OnlyBottom<T(!new)>(l: Lattice<T>, x: T)
    requires IsSemilattice(l) && Trivial(l)
    ensures x == l.bottom
  {
    assert Leq(l, x, l.bottom) && Leq(l, l.bottom, x);
  }

  lemma TrivialRun<T(!new)>(l: Lattice<T>, n: nat, steps: seq<Step<T>>)
    requires IsSemilattice(l) && Trivial(l) && Run(l, n, steps).Some? && forall k :: 0 <= k < |steps| ==> steps[k].i < n
    ensures PlainOf(Run(l, n, steps).value) == PlainRun(l, n, steps)
  {
    var p, q := PlainOf(Run(l, n, steps).value), PlainRun(l, n, steps);
    forall i | 0 <= i < n ensures p.nodes[i] == q.nodes[i] && p.saved[i] == q.saved[i] {
      OnlyBottom(l, p.nodes[i]);
      OnlyBottom(l, q.nodes[i]);
      OnlyBottom(l, p.saved[i]);
      OnlyBottom(l, q.saved[i]);
    }
    assert p.nodes == q.nodes && p.saved == q.saved;
  }

  /** Skipping is merging exactly as long as no node saves 2^32 times, for every join of more than one state. */
  lemma SkippingSafeIff<T(!new)>(l: Lattice<T>, bound: nat)
    requires IsSemilattice(l)
    ensures SkippingSafe(l, bound) <==> bound < WRAP || Trivial(l)
  {
    if bound < WRAP || Trivial(l) {
      forall n: nat, steps: seq<Step<T>> | Run(l, n, steps).Some? && SavesAtMost(steps, bound)
        ensures (forall k :: 0 <= k < |steps| ==> steps[k].i < n)
                && PlainOf(Run(l, n, steps).value) == PlainRun(l, n, steps)
      {
        RunInRange(l, n, steps);
        if bound < WRAP {
          assert NoWrap(steps);
          SkippingIsMerging(l, n, steps);
        } else {
          TrivialRun(l, n, steps);
        }
      }
    } else {
      var x: T :| !Leq(l, x, l.bottom);
      var steps := WrapLosesAnUpdate(l, x);
      assert SavesAtMost(steps, bound);
      assert PlainOf(Run(l, 2, steps).value).nodes[1] != PlainRun(l, 2, steps).nodes[1];
    }
  }

  /** After every run with at most `bound` saves per node, one Sync leaves the join of all states in every node. */
  ghost predicate SyncSafe<T(!new)>(l: Lattice<T>, bound: nat) {
    forall n: nat, steps: seq<Step<T>> :: Run(l, n, steps).Some? && SavesAtMost(steps, bound) ==>
      var net := Run(l, n, steps).value;
      forall i :: 0 <= i < n ==> Synced(l, net).nodes[i] == JoinAll(l, net.nodes)
  }

  /** A Sync at the wrap: node 0's copy gets version 0, and node 1 skips it. */
  lemma SyncOfPair<T(!new)>(l: Lattice<T>, x: T)
    requires IsSemilattice(l)
    ensures Synced(l, Pair(l, x, l.bottom, 0, l.bottom, WRAP - 1)).nodes[1] == l.bottom
  {
    var net := Pair(l, x, l.bottom, 0, l.bottom, WRAP - 1);
    var one := Saved(net, 0);
    assert AllSaved(net, 0) == net && AllSaved(net, 1) == one;
    var two := Saved(one, 1);
    assert AllSaved(net, 2) == two && two.counter == [0, 1] && two.nodes == net.nodes && two.lastRead == net.lastRead;
    LoadTouchesOwn(l, two, 0, 2);
    var three := Loaded(l, two, 0);
    assert AllLoaded(l, two, 0) == two && AllLoaded(l, two, 1) == three;
    assert Loading(l, three, 1, 0) == three && Loading(l, three, 1, 1) == three && Loading(l, three, 1, 2) == three;
    assert AllLoaded(l, two, 2) == three;
  }

  lemma {:induction false} LoadTouchesOwn<T>(l: Lattice<T>, net: Net<T>, i: nat, k: nat)
    requires Sized(net) && i < |net.nodes| && k <= |net.nodes|
    ensures forall a :: 0 <= a < |net.nodes| && a != i ==>
              Loading(l, net, i, k).nodes[a] == net.nodes[a] && Loading(l, net, i, k).lastRead[a] == net.lastRead[a]
  {
    if k > 0 {
      LoadTouchesOwn(l, net, i, k - 1);
    }
  }

  lemma SyncLosesAnUpdate<T(!new)>(l: Lattice<T>, x: T) returns (steps: seq<Step<T>>)
    requires IsSemilattice(l) && x != l.bottom
    ensures Run(l, 2, steps).Some? && SavesAtMost(steps, WRAP - 1)
    ensures var net := Run(l, 2, steps).value; Synced(l, net).nodes[1] != JoinAll(l, net.nodes)
  {
    steps := Saving(WRAP - 1);
    SavesOnly(l, WRAP - 1);
    RunNext(l, 2, steps, Update(0, x));
    steps := steps + [Update(0, x)];
    var net := Run(l, 2, steps).value;
    assert net == Pair(l, x, l.bottom, 0, l.bottom, WRAP - 1);
    SyncOfPair(l, x);
    JoinAllIsLeast(l, net.nodes);
    assert Leq(l, net.nodes[0], JoinAll(l, net.nodes));
  }

  /** A Sync converges exactly as long as its saves stay below 2^32. */
  lemma SyncSafeIff<T(!new)>(l: Lattice<T>, bound: nat)
    requires IsSemilattice(l)
    ensures SyncSafe(l, bound) <==> bound + 1 < WRAP || Trivial(l)
  {
    if bound + 1 < WRAP || Trivial(l) {
      forall n: nat, steps: seq<Step<T>>, i | Run(l, n, steps).Some? && SavesAtMost(steps, bound) && 0 <= i < n
        ensures Synced(l, Run(l, n, steps).value).nodes[i] == JoinAll(l, Run(l, n, steps).value.nodes)
      {
        if Trivial(l) {
          OnlyBottom(l, Synced(l, Run(l, n, steps).value).nodes[i]);
          OnlyBottom(l, JoinAll(l, Run(l, n, steps).value.nodes));
        } else {
          assert NoWrap(steps);
          forall j | 0 <= j < n ensures Run(l, n, steps).value.counter[j] + 1 < WRAP {
            CounterIsSaves(l, n, steps, j);
          }
          SyncConverges(l, n, steps);
        }
      }
    } else {
      var x: T :| !Leq(l, x, l.bottom);
      var steps := SyncLosesAnUpdate(l, x);
      assert SavesAtMost(steps, bound);
    }
  }

  // ----- The driver as an object -----

  class ORSetDriver<T(!new)> {
    const lattice: Lattice<T>
    var nodes: seq<T>
    var lastRead: seq<seq<nat>>
    var saved: seq<T>
    var counter: seq<nat>

    function State(): Net<T>
      reads this
    {
      Net(nodes, lastRead, saved, counter)
    }

    constructor (l: Lattice<T>, n: nat)
      ensures lattice == l && State() == NewNet(l, n)
    {
      lattice := l;
      nodes, saved := seq(n, _ => l.bottom), seq(n, _ => l.bottom);
      lastRead := seq(n, _ => seq(n, _ => 0));
      counter := seq(n, _ => 0);
    }

    method Save(i: nat)
      requires Sized(State()) && i < |nodes|
      modifies this
      ensures State() == Saved(old(State()), i)
    {
      saved := saved[i := nodes[i]];
      counter := counter[i := Increment(counter[i])];
    }

    method Load(i: nat)
      requires Sized(State()) && i < |nodes|
      modifies this
      ensures State() == Loaded(lattice, old(State()), i)
    {
      for k := 0 to |nodes|
        invariant |nodes| == old(|nodes|) && State() == Loading(lattice, old(State()), i, k)
      {
        if k != i {
          var version := counter[k];
          if lastRead[i][k] < version {
            nodes := nodes[i := lattice.join(nodes[i], saved[k])];
            lastRead := lastRead[i := lastRead[i][k := version]];
          }
        }
      }
    }

    method Sync()
      requires Sized(State())
      modifies this
      ensures State() == Synced(lattice, old(State()))
    {
      for k := 0 to |nodes|
        invariant |nodes| == old(|nodes|) && State() == AllSaved(old(State()), k)
      {
        Save(k);
      }
      for k := 0 to |nodes|
        invariant |nodes| == old(|nodes|)
        invariant State() == AllLoaded(lattice, AllSaved(old(State()), |nodes|), k)
      {
        Load(k);
      }
    }
  }
}
