/** The forest of group merges. Every merge of one group into another is appended
    to a log; following the log gives the group that now stands for any group. */
module MergeForest {

  /** Adder `adder` merged group `src` into group `dst`. */
  datatype Merge = Merge(src: nat, dst: nat, adder: nat)

  type Log = seq<Merge>

  ghost predicate IsSource(log: Log, g: nat) {
    exists k :: 0 <= k < |log| && log[k].src == g
  }

  ghost predicate IsEdge(log: Log, src: nat, dst: nat) {
    exists k :: 0 <= k < |log| && log[k].src == src && log[k].dst == dst
  }

  /** Both ends of a merge were still roots when it happened. */
  ghost predicate WellFormed(log: Log) {
    && (forall k :: 0 <= k < |log| ==> log[k].src != log[k].dst)
    && (forall j, k :: 0 <= j < k < |log| ==> log[j].src != log[k].src && log[j].src != log[k].dst)
  }

  /** The root that stands for g after all merges of the log. */
  function Rep(log: Log, g: nat): nat {
    if log == [] then g
    else
      var last := log[|log| - 1];
      var r := Rep(log[..|log| - 1], g);
      if r == last.src then last.dst else r
  }

  /** The number of merges between g and its root. */
  function Depth(log: Log, g: nat): nat {
    if log == [] then 0
    else
      var last := log[|log| - 1];
      var d := Depth(log[..|log| - 1], g);
      if Rep(log[..|log| - 1], g) == last.src then d + 1 else d
  }

  lemma {:induction false} RepStep(log: Log, m: Merge, g: nat)
    ensures Rep(log + [m], g) == if Rep(log, g) == m.src then m.dst else Rep(log, g)
    ensures Depth(log + [m], g) == Depth(log, g) + if Rep(log, g) == m.src then 1 else 0
  {
    assert (log + [m])[..|log|] == log;
  }

  /** A group that was never merged away stands for itself. */
  lemma {:induction false} RepOfRoot(log: Log, g: nat)
    requires !IsSource(log, g)
    ensures Rep(log, g) == g && Depth(log, g) == 0
  {
    if log != [] {
      var p := log[..|log| - 1];
      assert forall k :: 0 <= k < |p| ==> p[k] == log[k];
      assert log[|log| - 1].src != g;
      RepOfRoot(p, g);
    }
  }

  /** What stands for a group is a group that was never merged away. */
  lemma {:induction false} RepIsRoot(log: Log, g: nat)
    requires WellFormed(log)
    ensures !IsSource(log, Rep(log, g))
    ensures Rep(log, g) == g || exists k :: 0 <= k < |log| && log[k].dst == Rep(log, g)
  {
    if log != [] {
      var n := |log| - 1;
      var p := log[..n];
      assert forall k :: 0 <= k < |p| ==> p[k] == log[k];
      RepIsRoot(p, g);
      var r := Rep(log, g);
      if Rep(p, g) == log[n].src {
        assert log[n].dst == r;
      }
    }
  }

  /** The two ends of a merge share their root for ever, and the source stays one
      merge further from it. */
  lemma {:induction false} EdgeSharesRoot(log: Log, k: nat)
    requires WellFormed(log) && k < |log|
    ensures Rep(log, log[k].src) == Rep(log, log[k].dst)
    ensures Depth(log, log[k].src) == Depth(log, log[k].dst) + 1
  {
    var n := |log| - 1;
    var p := log[..n];
    assert forall j :: 0 <= j < |p| ==> p[j] == log[j];
    if k == n {
      RepOfRoot(p, log[n].src);
      RepOfRoot(p, log[n].dst);
    } else {
      EdgeSharesRoot(p, k);
    }
  }

  /** A chain of merges: each group was merged into the next one. */
  ghost predicate IsChain(log: Log, path: seq<nat>) {
    forall i :: 0 <= i < |path| - 1 ==> IsEdge(log, path[i], path[i + 1])
  }

  lemma {:induction false} ChainDescends(log: Log, path: seq<nat>)
    requires WellFormed(log) && IsChain(log, path) && |path| > 0
    ensures Depth(log, path[0]) == Depth(log, path[|path| - 1]) + |path| - 1
    ensures Rep(log, path[0]) == Rep(log, path[|path| - 1])
  {
    if |path| > 1 {
      var q := path[1..];
      forall i | 0 <= i < |q| - 1
        ensures IsEdge(log, q[i], q[i + 1])
      {
        var j := i + 1;
        assert q[i] == path[j] && q[i + 1] == path[j + 1];
      }
      ChainDescends(log, q);
      assert IsEdge(log, path[0], path[0 + 1]);
      var k :| 0 <= k < |log| && log[k].src == path[0] && log[k].dst == path[1];
      EdgeSharesRoot(log, k);
    }
  }

  /** The forest is acyclic: no chain of merges comes back to where it began, and a
      chain that cannot be extended ends in the group that stands for its start. */
  lemma ForestIsAcyclic(log: Log, path: seq<nat>)
    requires WellFormed(log) && IsChain(log, path) && |path| > 0
    ensures |path| > 1 ==> path[0] != path[|path| - 1]
    ensures !IsSource(log, path[|path| - 1]) ==> path[|path| - 1] == Rep(log, path[0])
  {
    ChainDescends(log, path);
    if !IsSource(log, path[|path| - 1]) {
      RepOfRoot(log, path[|path| - 1]);
    }
  }
}
