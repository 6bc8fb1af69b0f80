/** The history check of the tests: conflict graph, safety, parallelism and order of processed records. */
module History {
  import opened Common

  type Iban = string

  /** One processed payment; times are nanoseconds. */
  datatype Record = Record(ete: string, start: int, end: int, deb: Iban, cred: Iban)

  datatype Edge = Edge(a: string, b: string, shared: seq<Iban>)

  datatype Graph = Graph(records: seq<Record>, edges: seq<Edge>, adj: map<nat, seq<nat>>)

  datatype Overlapping = Overlapping(a: Record, b: Record, shared: seq<Iban>, ms: int)

  const NANOS_PER_MS := 1_000_000

  // ----- what the check is meant to decide -----

  predicate ShareIban(a: Record, b: Record) {
    b.deb == a.deb || b.deb == a.cred || b.cred == a.deb || b.cred == a.cred
  }

  predicate Overlap(a: Record, b: Record) {
    a.start < b.end && b.start < a.end
  }

  /** No two records that share an IBAN overlap in time. */
  ghost predicate Disjoint(rs: seq<Record>) {
    forall i, j :: 0 <= i < j < |rs| && ShareIban(rs[i], rs[j]) ==> !Overlap(rs[i], rs[j])
  }

  ghost predicate DistinctNames(rs: seq<Record>) {
    forall i, j :: 0 <= i < j < |rs| ==> rs[i].ete != rs[j].ete
  }

  // ----- the pairs of records, in the order the nested loops visit them -----

  type Pair = (nat, nat)

  /** Which pairs of records to keep. */
  type Choice = (Record, Record) -> bool

  /** The kept pairs visited before the inner loop of row i reaches column j. */
  function Visited(rs: seq<Record>, keep: Choice, i: nat, j: nat): seq<Pair>
    requires i < |rs| && j <= |rs|
    decreases i + 1, j
  {
    if j <= i + 1 then Rows(rs, keep, i)
    else Visited(rs, keep, i, j - 1) + if keep(rs[i], rs[j - 1]) then [(i, j - 1)] else []
  }

  /** The kept pairs of the first i rows. */
  function Rows(rs: seq<Record>, keep: Choice, i: nat): seq<Pair>
    requires i <= |rs|
    decreases i, |rs| + 1
  {
    if i == 0 then [] else Visited(rs, keep, i - 1, |rs|)
  }

  lemma {:induction false} VisitedMembers(rs: seq<Record>, keep: Choice, i: nat, j: nat)
    requires i < |rs| && j <= |rs|
    ensures forall p :: p in Visited(rs, keep, i, j) <==>
      p.0 <= i && p.0 < p.1 < (if p.0 < i then |rs| else j) && keep(rs[p.0], rs[p.1])
    decreases i, j
  {
    if j > i + 1 {
      VisitedMembers(rs, keep, i, j - 1);
    } else if i > 0 {
      VisitedMembers(rs, keep, i - 1, |rs|);
    }
  }

  /** The nested loops visit every kept pair i < j. */
  lemma RowsMembers(rs: seq<Record>, keep: Choice, i: nat)
    requires i <= |rs|
    ensures forall p :: p in Rows(rs, keep, i) <==> p.0 < i && p.0 < p.1 < |rs| && keep(rs[p.0], rs[p.1])
  {
    if i > 0 {
      VisitedMembers(rs, keep, i - 1, |rs|);
    }
  }

  /** p comes before q in the order of the nested loops. */
  predicate Earlier(p: Pair, q: Pair) {
    p.0 < q.0 || (p.0 == q.0 && p.1 < q.1)
  }

  ghost predicate InLoopOrder(ps: seq<Pair>) {
    forall k, l :: 0 <= k < l < |ps| ==> Earlier(ps[k], ps[l])
  }

  /** They visit each pair once, row by row. */
  lemma {:induction false} VisitedInOrder(rs: seq<Record>, keep: Choice, i: nat, j: nat)
    requires i < |rs| && j <= |rs|
    ensures InLoopOrder(Visited(rs, keep, i, j))
    decreases i, j
  {
    if j > i + 1 {
      VisitedInOrder(rs, keep, i, j - 1);
      VisitedMembers(rs, keep, i, j - 1);
      var ps := Visited(rs, keep, i, j - 1);
      assert forall k :: 0 <= k < |ps| ==> ps[k] in ps;
    } else if i > 0 {
      VisitedInOrder(rs, keep, i - 1, |rs|);
    }
  }

  lemma RowsInOrder(rs: seq<Record>, keep: Choice, i: nat)
    requires i <= |rs|
    ensures InLoopOrder(Rows(rs, keep, i))
  {
    if i > 0 {
      VisitedInOrder(rs, keep, i - 1, |rs|);
    }
  }

  function Conflicting(): Choice {
    (a, b) => ShareIban(a, b)
  }

  function Parallel(): Choice {
    (a, b) => !ShareIban(a, b) && Overlap(a, b)
  }

  /** All pairs i < j of records that share an IBAN. */
  function ConflictPairs(rs: seq<Record>): seq<Pair> {
    Rows(rs, Conflicting(), |rs|)
  }

  /** All pairs i < j of records that overlap without sharing an IBAN. */
  function ParallelPairs(rs: seq<Record>): seq<Pair> {
    Rows(rs, Parallel(), |rs|)
  }

  /** The edges are the pairs of records that share an IBAN, the parallel pairs those of records
      that share none and overlap; each once, in loop order. */
  lemma PairsAreExact(rs: seq<Record>)
    ensures forall p :: p in ConflictPairs(rs) <==> p.0 < p.1 < |rs| && ShareIban(rs[p.0], rs[p.1])
    ensures forall p :: p in ParallelPairs(rs) <==>
      p.0 < p.1 < |rs| && !ShareIban(rs[p.0], rs[p.1]) && Overlap(rs[p.0], rs[p.1])
    ensures InLoopOrder(ConflictPairs(rs)) && InLoopOrder(ParallelPairs(rs))
  {
    RowsMembers(rs, Conflicting(), |rs|);
    RowsMembers(rs, Parallel(), |rs|);
    RowsInOrder(rs, Conflicting(), |rs|);
    RowsInOrder(rs, Parallel(), |rs|);
  }

  // ----- building the conflict graph -----

  function SharedList(a: Record, b: Record): seq<Iban> {
    (if b.deb == a.deb || b.deb == a.cred then [b.deb] else []) +
    (if b.cred == a.deb || b.cred == a.cred then [b.cred] else [])
  }

  method SharedIbans(a: Record, b: Record) returns (shared: seq<Iban>)
    ensures shared == SharedList(a, b)
    ensures shared != [] <==> ShareIban(a, b)
    ensures forall x :: x in shared <==> (x == b.deb || x == b.cred) && (x == a.deb || x == a.cred)
    ensures |shared| > 1 ==> shared == [b.deb, b.cred]
  {
    var setA := {a.deb, a.cred};
    var both := [b.deb, b.cred];
    shared := [];
    for k := 0 to |both|
      invariant shared == (if k > 0 && b.deb in setA then [b.deb] else [])
        + (if k > 1 && b.cred in setA then [b.cred] else [])
    {
      if both[k] in setA {
        shared := shared + [both[k]];
      }
    }
  }

  function EdgeOf(rs: seq<Record>, p: Pair): Edge
    requires p.0 < |rs| && p.1 < |rs|
  {
    Edge(rs[p.0].ete, rs[p.1].ete, SharedList(rs[p.0], rs[p.1]))
  }

  /** es lists the edges of the pairs ps, in order. */
  ghost predicate EdgesOf(rs: seq<Record>, ps: seq<Pair>, es: seq<Edge>) {
    |es| == |ps| && forall k :: 0 <= k < |ps| ==> ps[k].0 < |rs| && ps[k].1 < |rs| && es[k] == EdgeOf(rs, ps[k])
  }

  function Neighbours(adj: map<nat, seq<nat>>, i: nat): seq<nat> {
    if i in adj then adj[i] else []
  }

  /** Exactly the pairs for which done holds are entered, in both directions. */
  ghost predicate Adjacent(adj: map<nat, seq<nat>>, ps: seq<Pair>) {
    forall a: nat, b: nat :: b in Neighbours(adj, a) <==> (a, b) in ps || (b, a) in ps
  }

  /** Record j is a neighbour of record i exactly if they are two records that share an IBAN. */
  ghost predicate LinksConflicts(adj: map<nat, seq<nat>>, rs: seq<Record>) {
    forall i: nat, j: nat :: j in Neighbours(adj, i) <==> InConflict(rs, i, j)
  }

  predicate InConflict(rs: seq<Record>, i: nat, j: nat) {
    i < |rs| && j < |rs| && i != j && ShareIban(rs[i], rs[j])
  }

  ghost predicate IsGraphOf(g: Graph, rs: seq<Record>) {
    && g.records == rs
    && EdgesOf(rs, ConflictPairs(rs), g.edges)
    && LinksConflicts(g.adj, rs)
  }

  lemma AdjacencyMeansConflict(adj: map<nat, seq<nat>>, rs: seq<Record>)
    requires Adjacent(adj, ConflictPairs(rs))
    ensures LinksConflicts(adj, rs)
  {
    RowsMembers(rs, Conflicting(), |rs|);
    forall i: nat, j: nat
      ensures j in Neighbours(adj, i) <==> InConflict(rs, i, j)
    {
      assert (i, j) in ConflictPairs(rs) <==> i < j < |rs| && ShareIban(rs[i], rs[j]);
      assert (j, i) in ConflictPairs(rs) <==> j < i < |rs| && ShareIban(rs[j], rs[i]);
    }
  }

  lemma LinkAdds(adj: map<nat, seq<nat>>, ps: seq<Pair>, i: nat, j: nat)
    requires Adjacent(adj, ps) && i != j
    ensures var one := adj[i := Neighbours(adj, i) + [j]];
      Adjacent(one[j := Neighbours(one, j) + [i]], ps + [(i, j)])
  {
    var one := adj[i := Neighbours(adj, i) + [j]];
    var two := one[j := Neighbours(one, j) + [i]];
    forall a: nat, b: nat
      ensures b in Neighbours(two, a) <==> (a, b) in ps + [(i, j)] || (b, a) in ps + [(i, j)]
    {
      assert b in Neighbours(adj, a) <==> (a, b) in ps || (b, a) in ps;
    }
  }

  /** The body of the inner loop for two records that conflict. */
  method AddEdge(rs: seq<Record>, ghost ps: seq<Pair>, es: seq<Edge>, adj: map<nat, seq<nat>>, i: nat, j: nat,
          shared: seq<Iban>)
    returns (edges: seq<Edge>, links: map<nat, seq<nat>>)
    requires EdgesOf(rs, ps, es) && Adjacent(adj, ps)
    requires i < |rs| && j < |rs| && i != j && shared == SharedList(rs[i], rs[j])
    ensures EdgesOf(rs, ps + [(i, j)], edges)
    ensures Adjacent(links, ps + [(i, j)])
  {
    LinkAdds(adj, ps, i, j);
    edges := es + [Edge(rs[i].ete, rs[j].ete, shared)];
    links := adj[i := Neighbours(adj, i) + [j]];
    links := links[j := Neighbours(links, j) + [i]];
  }

  method BuildConflictGraph(rs: seq<Record>) returns (g: Graph)
    ensures IsGraphOf(g, rs)
  {
    var edges: seq<Edge> := [];
    var adj: map<nat, seq<nat>> := map[];
    for i := 0 to |rs|
      invariant EdgesOf(rs, Rows(rs, Conflicting(), i), edges)
      invariant Adjacent(adj, Rows(rs, Conflicting(), i))
    {
      for j := i + 1 to |rs|
        invariant EdgesOf(rs, Visited(rs, Conflicting(), i, j), edges)
        invariant Adjacent(adj, Visited(rs, Conflicting(), i, j))
      {
        var shared := SharedIbans(rs[i], rs[j]);
        if |shared| > 0 {
          edges, adj := AddEdge(rs, Visited(rs, Conflicting(), i, j), edges, adj, i, j, shared);
        }
      }
    }
    AdjacencyMeansConflict(adj, rs);
    g := Graph(rs, edges, adj);
  }

  /** An edge names an earlier and a later record, and lists the IBANs that they share. */
  lemma EdgeNames(g: Graph, k: nat) returns (i: nat, j: nat)
    requires IsGraphOf(g, g.records) && k < |g.edges|
    ensures i < j < |g.records| && g.edges[k].a == g.records[i].ete && g.edges[k].b == g.records[j].ete
    ensures var (a, b) := (g.records[i], g.records[j]);
      forall x :: x in g.edges[k].shared <==> (x == a.deb || x == a.cred) && (x == b.deb || x == b.cred)
  {
    PairsAreExact(g.records);
    var p := ConflictPairs(g.records)[k];
    assert p in ConflictPairs(g.records);
    i, j := p.0, p.1;
  }

  // ----- looking records up by name -----

  /** The last record with the given name, as a map filled in record order keeps it. */
  function LastNamed(rs: seq<Record>, name: string): (k: nat)
    ensures rs != [] ==> k < |rs|
    ensures (exists i :: 0 <= i < |rs| && rs[i].ete == name) ==> k < |rs| && rs[k].ete == name
    ensures forall i :: k < i < |rs| ==> rs[i].ete != name
  {
    if rs == [] then 0
    else if rs[|rs| - 1].ete == name then |rs| - 1
    else LastNamed(rs[..|rs| - 1], name)
  }

  method IndexByName(rs: seq<Record>) returns (idx: map<string, nat>)
    ensures forall i :: 0 <= i < |rs| ==> rs[i].ete in idx
    ensures forall name :: name in idx ==> idx[name] == LastNamed(rs, name)
  {
    idx := map[];
    for i := 0 to |rs|
      invariant forall k :: 0 <= k < i ==> rs[k].ete in idx
      invariant forall name :: name in idx ==> idx[name] == LastNamed(rs[..i], name)
    {
      assert rs[..i + 1][..i] == rs[..i];
      idx := idx[rs[i].ete := i];
    }
    assert rs[..|rs|] == rs;
  }

  /** The two records that an edge names. */
  function Ends(rs: seq<Record>, p: Pair): (Record, Record)
    requires p.0 < |rs| && p.1 < |rs|
  {
    (rs[LastNamed(rs, rs[p.0].ete)], rs[LastNamed(rs, rs[p.1].ete)])
  }

  lemma NamesAreUnique(rs: seq<Record>, i: nat)
    requires DistinctNames(rs) && i < |rs|
    ensures LastNamed(rs, rs[i].ete) == i
  {
    var k := LastNamed(rs, rs[i].ete);
    assert rs[k].ete == rs[i].ete;
  }

  // ----- the checks -----

  function Ms(a: Record, b: Record): int
    requires Overlap(a, b)
  {
    var start := if b.start > a.start then b.start else a.start;
    var end := if b.end < a.end then b.end else a.end;
    WholeMs(end - start)
  }

  /** Whole milliseconds, cut off towards zero. */
  function WholeMs(nanos: int): int {
    if nanos >= 0 then nanos / NANOS_PER_MS else -(-nanos / NANOS_PER_MS)
  }

  /** From t on, the record lasts for n milliseconds. */
  predicate Lasts(r: Record, t: int, n: nat) {
    r.start <= t && t + n * 1_000_000 <= r.end
  }

  /** From some moment on both records last for n milliseconds. */
  ghost predicate BothLast(a: Record, b: Record, n: nat) {
    exists t: int :: Lasts(a, t, n) && Lasts(b, t, n)
  }

  /** The common time is the longest number of milliseconds that both records last from the same
      moment on. */
  lemma MsIsLongest(a: Record, b: Record, n: nat)
    requires Overlap(a, b) && a.start <= a.end && b.start <= b.end
    ensures n <= Ms(a, b) <==> BothLast(a, b, n)
  {
    var start := if b.start > a.start then b.start else a.start;
    if n <= Ms(a, b) {
      assert Lasts(a, start, n) && Lasts(b, start, n);
    }
    if t: int :| Lasts(a, t, n) && Lasts(b, t, n) {
      assert start <= t;
    }
  }

  function NamesakesOverlap(rs: seq<Record>): Pair -> bool {
    (p: Pair) => p.0 < |rs| && p.1 < |rs| && Overlap(Ends(rs, p).0, Ends(rs, p).1)
  }

  function Filter<T>(xs: seq<T>, keep: T -> bool): seq<T> {
    if xs == [] then []
    else Filter(xs[..|xs| - 1], keep) + if keep(xs[|xs| - 1]) then [xs[|xs| - 1]] else []
  }

  lemma {:induction false} FilterMembers<T>(xs: seq<T>, keep: T -> bool)
    ensures forall x :: x in Filter(xs, keep) <==> x in xs && keep(x)
  {
    if xs != [] {
      FilterMembers(xs[..|xs| - 1], keep);
      assert xs == xs[..|xs| - 1] + [xs[|xs| - 1]];
    }
  }

  lemma FilterNext<T>(xs: seq<T>, keep: T -> bool, k: nat)
    requires k < |xs|
    ensures Filter(xs[..k + 1], keep) == if keep(xs[k]) then Filter(xs[..k], keep) + [xs[k]] else Filter(xs[..k], keep)
  {
    assert xs[..k + 1][..k] == xs[..k];
  }

  /** The length of the common part of two overlapping intervals, in whole milliseconds. */
  method CommonMs(a: Record, b: Record) returns (ms: int)
    requires Overlap(a, b)
    ensures ms == Ms(a, b)
    ensures a.start <= a.end && b.start <= b.end ==>
      forall n: nat :: n <= ms <==> BothLast(a, b, n)
  {
    var start := a.start;
    if b.start > start {
      start := b.start;
    }
    var end := a.end;
    if b.end < end {
      end := b.end;
    }
    forall n: nat | a.start <= a.end && b.start <= b.end
      ensures n <= Ms(a, b) <==> BothLast(a, b, n)
    {
      MsIsLongest(a, b, n);
    }
    ms := WholeMs(end - start);
  }

  function ReportOf(rs: seq<Record>, p: Pair): Overlapping
    requires NamesakesOverlap(rs)(p)
  {
    var (a, b) := Ends(rs, p);
    Overlapping(a, b, SharedList(rs[p.0], rs[p.1]), Ms(a, b))
  }

  /** vs reports the pairs ps, in order. */
  ghost predicate Reports(rs: seq<Record>, ps: seq<Pair>, vs: seq<Overlapping>) {
    |vs| == |ps| && forall k :: 0 <= k < |ps| ==> NamesakesOverlap(rs)(ps[k]) && vs[k] == ReportOf(rs, ps[k])
  }

  lemma ReportAdds(rs: seq<Record>, ps: seq<Pair>, vs: seq<Overlapping>, p: Pair)
    requires Reports(rs, ps, vs) && NamesakesOverlap(rs)(p)
    ensures Reports(rs, ps + [p], vs + [ReportOf(rs, p)])
  {
  }

  /** What the index yields for the k-th edge. */
  lemma EdgeEnds(g: Graph, idx: map<string, nat>, k: nat)
    requires IsGraphOf(g, g.records) && k < |g.edges|
    requires forall i :: 0 <= i < |g.records| ==> g.records[i].ete in idx
    requires forall name :: name in idx ==> idx[name] == LastNamed(g.records, name)
    ensures var p := ConflictPairs(g.records)[k];
      && |g.edges| == |ConflictPairs(g.records)|
      && p.0 < |g.records| && p.1 < |g.records|
      && g.edges[k].shared == SharedList(g.records[p.0], g.records[p.1])
      && g.edges[k].a in idx && idx[g.edges[k].a] < |g.records|
      && g.edges[k].b in idx && idx[g.edges[k].b] < |g.records|
      && Ends(g.records, p) == (g.records[idx[g.edges[k].a]], g.records[idx[g.edges[k].b]])
      && (NamesakesOverlap(g.records)(p) <==> Overlap(Ends(g.records, p).0, Ends(g.records, p).1))
  {
    var p := ConflictPairs(g.records)[k];
    assert g.edges[k] == EdgeOf(g.records, p);
  }

  /** The body of the loop over the edges. */
  method CheckEdge(g: Graph, idx: map<string, nat>, k: nat, before: seq<Overlapping>)
    returns (violations: seq<Overlapping>)
    requires IsGraphOf(g, g.records) && k < |g.edges|
    requires forall i :: 0 <= i < |g.records| ==> g.records[i].ete in idx
    requires forall name :: name in idx ==> idx[name] == LastNamed(g.records, name)
    requires k <= |ConflictPairs(g.records)|
    requires Reports(g.records, Filter(ConflictPairs(g.records)[..k], NamesakesOverlap(g.records)), before)
    ensures k < |ConflictPairs(g.records)|
    ensures Reports(g.records, Filter(ConflictPairs(g.records)[..k + 1], NamesakesOverlap(g.records)), violations)
  {
    ghost var ps := ConflictPairs(g.records);
    EdgeEnds(g, idx, k);
    FilterNext(ps, NamesakesOverlap(g.records), k);
    var edge := g.edges[k];
    var a, b := g.records[idx[edge.a]], g.records[idx[edge.b]];
    violations := before;
    if a.start < b.end && b.start < a.end {
      var ms := CommonMs(a, b);
      ReportAdds(g.records, Filter(ps[..k], NamesakesOverlap(g.records)), before, ps[k]);
      violations := before + [Overlapping(a, b, edge.shared, ms)];
    }
  }

  /** The safety check reports exactly the conflicting pairs whose last namesakes overlap. */
  method CheckSafety(g: Graph) returns (violations: seq<Overlapping>)
    requires IsGraphOf(g, g.records)
    ensures Reports(g.records, Filter(ConflictPairs(g.records), NamesakesOverlap(g.records)), violations)
  {
    var rs := g.records;
    var idx := IndexByName(rs);
    violations := [];
    ghost var ps := ConflictPairs(rs);
    for k := 0 to |g.edges|
      invariant Reports(rs, Filter(ps[..k], NamesakesOverlap(rs)), violations)
    {
      violations := CheckEdge(g, idx, k, violations);
    }
    assert ps[..|g.edges|] == ps;
  }

  /** A violation is about two records, under the names of an earlier and a later record that
      share an IBAN; they overlap, for the time that is given. */
  lemma ViolationNames(rs: seq<Record>, vs: seq<Overlapping>, k: nat) returns (i: nat, j: nat)
    requires Reports(rs, Filter(ConflictPairs(rs), NamesakesOverlap(rs)), vs) && k < |vs|
    ensures i < j < |rs| && ShareIban(rs[i], rs[j])
    ensures vs[k].a in rs && vs[k].b in rs && vs[k].a.ete == rs[i].ete && vs[k].b.ete == rs[j].ete
    ensures Overlap(vs[k].a, vs[k].b) && vs[k].ms == Ms(vs[k].a, vs[k].b)
  {
    var ps := Filter(ConflictPairs(rs), NamesakesOverlap(rs));
    PairsAreExact(rs);
    FilterMembers(ConflictPairs(rs), NamesakesOverlap(rs));
    assert ps[k] in ps;
    i, j := ps[k].0, ps[k].1;
  }

  /** The safety check reports nothing. */
  predicate FindsNothing(rs: seq<Record>) {
    Filter(ConflictPairs(rs), NamesakesOverlap(rs)) == []
  }

  /** The safety check looks at the last namesakes of every two records that share an IBAN. */
  lemma FindsNothingMeans(rs: seq<Record>)
    ensures FindsNothing(rs) <==>
      forall i, j :: 0 <= i < j < |rs| && ShareIban(rs[i], rs[j]) ==> !NamesakesOverlap(rs)((i, j))
  {
    var ps := ConflictPairs(rs);
    var bad := Filter(ps, NamesakesOverlap(rs));
    RowsMembers(rs, Conflicting(), |rs|);
    FilterMembers(ps, NamesakesOverlap(rs));
    assert bad != [] ==> bad[0] in bad;
    forall i, j | 0 <= i < j < |rs| && ShareIban(rs[i], rs[j]) && NamesakesOverlap(rs)((i, j))
      ensures bad != []
    {
      assert (i, j) in ps;
      assert (i, j) in bad;
    }
  }

  /** Whatever shares an IBAN with another record is the last of its name. */
  ghost predicate ConflictsNamedLast(rs: seq<Record>) {
    forall i, j :: 0 <= i < j < |rs| && ShareIban(rs[i], rs[j]) ==>
      LastNamed(rs, rs[i].ete) == i && LastNamed(rs, rs[j].ete) == j
  }

  /** The same payments, processed at other times. */
  ghost predicate Retimed(rs: seq<Record>, qs: seq<Record>) {
    |qs| == |rs| && forall k :: 0 <= k < |rs| ==>
      qs[k].ete == rs[k].ete && qs[k].deb == rs[k].deb && qs[k].cred == rs[k].cred
  }

  lemma {:induction false} RetimedNames(rs: seq<Record>, qs: seq<Record>, name: string)
    requires Retimed(rs, qs)
    ensures LastNamed(qs, name) == LastNamed(rs, name)
  {
    if rs != [] {
      RetimedNames(rs[..|rs| - 1], qs[..|qs| - 1], name);
    }
  }

  lemma NamedLastIsExact(rs: seq<Record>)
    requires ConflictsNamedLast(rs)
    ensures FindsNothing(rs) <==> Disjoint(rs)
  {
    FindsNothingMeans(rs);
    forall i, j | 0 <= i < j < |rs| && ShareIban(rs[i], rs[j])
      ensures NamesakesOverlap(rs)((i, j)) <==> Overlap(rs[i], rs[j])
    {
      assert LastNamed(rs, rs[i].ete) == i && LastNamed(rs, rs[j].ete) == j;
    }
  }

  /** One record after another, each taking some time. */
  function OneByOne(rs: seq<Record>): (qs: seq<Record>)
    ensures Retimed(rs, qs) && forall k :: 0 <= k < |rs| ==> qs[k].start == 2 * k && qs[k].end == 2 * k + 1
  {
    seq(|rs|, k requires 0 <= k < |rs| => rs[k].(start := 2 * k, end := 2 * k + 1))
  }

  /** The same, except that record i lasts until the end of record j. */
  function Stretched(rs: seq<Record>, i: nat, j: nat): (qs: seq<Record>)
    requires i < j < |rs|
    ensures Retimed(rs, qs) && Overlap(qs[i], qs[j])
    ensures forall k :: 0 <= k < |rs| ==> qs[k].start < qs[k].end
    ensures forall k, l :: 0 <= k < |rs| && 0 <= l < |rs| && k != l && Overlap(qs[k], qs[l]) ==>
      (k == i && l == j) || (k == j && l == i)
  {
    var late := 2 * |rs| + 2;
    OneByOne(rs)[i := rs[i].(start := late, end := late + 2)][j := rs[j].(start := late + 1, end := late + 3)]
  }

  /** A record that shares an IBAN with a namesake raises a false alarm: the last of the name
      is compared with itself. */
  lemma NamesakesRaiseAlarm(rs: seq<Record>, i: nat, j: nat) returns (qs: seq<Record>)
    requires i < j < |rs| && ShareIban(rs[i], rs[j]) && rs[i].ete == rs[j].ete
    ensures Retimed(rs, qs) && Disjoint(qs) && !FindsNothing(qs)
    ensures forall k :: 0 <= k < |qs| ==> qs[k].start < qs[k].end
  {
    qs := OneByOne(rs);
    FindsNothingMeans(qs);
    assert ShareIban(qs[i], qs[j]) && NamesakesOverlap(qs)((i, j));
  }

  /** A later namesake that is processed elsewhere hides an overlap. */
  lemma NamesakesHideOverlap(rs: seq<Record>, i: nat, j: nat) returns (qs: seq<Record>)
    requires i < j < |rs| && ShareIban(rs[i], rs[j])
    requires LastNamed(rs, rs[i].ete) != i || LastNamed(rs, rs[j].ete) != j
    requires forall k, l :: 0 <= k < l < |rs| && ShareIban(rs[k], rs[l]) ==> rs[k].ete != rs[l].ete
    ensures Retimed(rs, qs) && !Disjoint(qs) && FindsNothing(qs)
    ensures forall k :: 0 <= k < |qs| ==> qs[k].start < qs[k].end
  {
    qs := Stretched(rs, i, j);
    FindsNothingMeans(qs);
    assert ShareIban(qs[i], qs[j]);
    forall k, l | 0 <= k < l < |qs| && ShareIban(qs[k], qs[l])
      ensures !NamesakesOverlap(qs)((k, l))
    {
      assert rs[k].ete != rs[l].ete;
      NamesakeIsElsewhere(rs, qs, i, j, k, l);
    }
  }

  lemma NamesakeIsElsewhere(rs: seq<Record>, qs: seq<Record>, i: nat, j: nat, k: nat, l: nat)
    requires Retimed(rs, qs) && i < j < |rs| && k < |rs| && l < |rs| && rs[k].ete != rs[l].ete
    requires LastNamed(rs, rs[i].ete) != i || LastNamed(rs, rs[j].ete) != j
    requires forall m, n :: 0 <= m < |rs| && 0 <= n < |rs| && m != n && Overlap(qs[m], qs[n]) ==>
      (m == i && n == j) || (m == j && n == i)
    ensures !NamesakesOverlap(qs)((k, l))
  {
    RetimedNames(rs, qs, rs[k].ete);
    RetimedNames(rs, qs, rs[l].ete);
    LastIsLast(rs, k);
    LastIsLast(rs, l);
  }

  lemma LastIsLast(rs: seq<Record>, k: nat)
    requires k < |rs|
    ensures var m := LastNamed(rs, rs[k].ete);
      m < |rs| && rs[m].ete == rs[k].ete && LastNamed(rs, rs[m].ete) == m
  {
  }

  /** The safety check decides rightly whatever the times exactly if all records that share
      an IBAN with another one are the last of their names. */
  lemma SafetyIsExactWhenNamedLast(rs: seq<Record>)
    ensures (forall qs :: Retimed(rs, qs) ==> (FindsNothing(qs) <==> Disjoint(qs))) <==> ConflictsNamedLast(rs)
  {
    if ConflictsNamedLast(rs) {
      forall qs | Retimed(rs, qs)
        ensures FindsNothing(qs) <==> Disjoint(qs)
      {
        forall name
          ensures LastNamed(qs, name) == LastNamed(rs, name)
        {
          RetimedNames(rs, qs, name);
        }
        NamedLastIsExact(qs);
      }
    } else {
      var qs := Misled(rs);
    }
  }

  lemma Misled(rs: seq<Record>) returns (qs: seq<Record>)
    requires !ConflictsNamedLast(rs)
    ensures Retimed(rs, qs) && !(FindsNothing(qs) <==> Disjoint(qs))
    ensures forall k :: 0 <= k < |qs| ==> qs[k].start < qs[k].end
  {
    if i: nat, j: nat :| i < j < |rs| && ShareIban(rs[i], rs[j]) && rs[i].ete == rs[j].ete {
      qs := NamesakesRaiseAlarm(rs, i, j);
    } else {
      var i: nat, j: nat :| i < j < |rs| && ShareIban(rs[i], rs[j])
        && (LastNamed(rs, rs[i].ete) != i || LastNamed(rs, rs[j].ete) != j);
      qs := NamesakesHideOverlap(rs, i, j);
    }
  }

  /** With distinct names the safety check is empty exactly if no two records that share
      an IBAN overlap. */
  lemma SafetyIsExact(rs: seq<Record>)
    requires DistinctNames(rs)
    ensures FindsNothing(rs) <==> Disjoint(rs)
  {
    forall i | 0 <= i < |rs|
      ensures LastNamed(rs, rs[i].ete) == i
    {
      NamesAreUnique(rs, i);
    }
    NamedLastIsExact(rs);
  }

  /** The order check succeeds exactly if the safety check finds nothing, whatever the names. */
  method VerifyProcessingOrder(rs: seq<Record>) returns (ok: bool)
    ensures ok <==> FindsNothing(rs)
  {
    var idx := IndexByName(rs);
    var g := BuildConflictGraph(rs);
    ok := true;
    for k := 0 to |g.edges|
      invariant k <= |ConflictPairs(rs)|
      invariant ok <==> Filter(ConflictPairs(rs)[..k], NamesakesOverlap(rs)) == []
    {
      EdgeEnds(g, idx, k);
      FilterNext(ConflictPairs(rs), NamesakesOverlap(rs), k);
      var edge := g.edges[k];
      var a, b := rs[idx[edge.a]], rs[idx[edge.b]];
      var aBeforeB := !(a.end > b.start);
      var bBeforeA := !(b.end > a.start);
      if !aBeforeB && !bBeforeA {
        ok := false;
      }
    }
    assert ConflictPairs(rs)[..|g.edges|] == ConflictPairs(rs);
  }

  method IsConflicting(g: Graph, i: nat, j: nat) returns (found: bool)
    requires IsGraphOf(g, g.records)
    ensures found <==> InConflict(g.records, i, j)
  {
    var nbs := Neighbours(g.adj, i);
    for k := 0 to |nbs|
      invariant j !in nbs[..k]
    {
      if nbs[k] == j {
        return true;
      }
    }
    return false;
  }

  /** qs reports the pairs ps, in order. */
  ghost predicate ReportsParallel(rs: seq<Record>, ps: seq<Pair>, qs: seq<Overlapping>) {
    |qs| == |ps| && forall k :: 0 <= k < |ps| ==>
      && ps[k].0 < |rs| && ps[k].1 < |rs| && Overlap(rs[ps[k].0], rs[ps[k].1])
      && qs[k] == Overlapping(rs[ps[k].0], rs[ps[k].1], [], Ms(rs[ps[k].0], rs[ps[k].1]))
  }

  /** The body of the inner loop for two records that do not conflict. */
  method AddIfOverlapping(rs: seq<Record>, ghost ps: seq<Pair>, qs: seq<Overlapping>, i: nat,
          j: nat) returns (pairs: seq<Overlapping>)
    requires ReportsParallel(rs, ps, qs) && i < |rs| && j < |rs|
    ensures ReportsParallel(rs, if Overlap(rs[i], rs[j]) then ps + [(i, j)] else ps, pairs)
  {
    var a, b := rs[i], rs[j];
    pairs := qs;
    if a.start < b.end && b.start < a.end {
      var ms := CommonMs(a, b);
      pairs := pairs + [Overlapping(a, b, [], ms)];
    }
  }

  /** Some pair visited before the inner loop reaches (i, j) shares no IBAN. */
  predicate Independent(rs: seq<Record>, i: nat, j: nat)
    requires i < |rs| && j <= |rs|
    decreases i + 1, j
  {
    if j <= i + 1 then i > 0 && Independent(rs, i - 1, |rs|)
    else Independent(rs, i, j - 1) || !ShareIban(rs[i], rs[j - 1])
  }

  lemma {:induction false} IndependentMeans(rs: seq<Record>, i: nat, j: nat)
    requires i < |rs| && j <= |rs|
    ensures Independent(rs, i, j) <==>
      exists a, b :: 0 <= a <= i && a < b < (if a < i then |rs| else j) && !ShareIban(rs[a], rs[b])
    decreases i + 1, j
  {
    if j > i + 1 {
      IndependentMeans(rs, i, j - 1);
    } else if i > 0 {
      IndependentMeans(rs, i - 1, |rs|);
    }
  }

  /** The body of the inner loop. */
  method ParallelPair(g: Graph, i: nat, j: nat, before: seq<Overlapping>, had: bool)
    returns (pairs: seq<Overlapping>, has: bool)
    requires IsGraphOf(g, g.records) && i < j < |g.records|
    requires ReportsParallel(g.records, Visited(g.records, Parallel(), i, j), before)
    ensures ReportsParallel(g.records, Visited(g.records, Parallel(), i, j + 1), pairs)
    ensures has <==> had || !ShareIban(g.records[i], g.records[j])
  {
    pairs, has := before, had;
    var conflict := IsConflicting(g, i, j);
    if !conflict {
      has := true;
      pairs := AddIfOverlapping(g.records, Visited(g.records, Parallel(), i, j), pairs, i, j);
    }
  }

  /** The inner loop of the parallelism check. */
  method ParallelRow(g: Graph, i: nat, before: seq<Overlapping>, had: bool) returns (pairs: seq<Overlapping>, has: bool)
    requires IsGraphOf(g, g.records) && i < |g.records|
    requires ReportsParallel(g.records, Rows(g.records, Parallel(), i), before)
    requires had <==> i > 0 && Independent(g.records, i - 1, |g.records|)
    ensures ReportsParallel(g.records, Rows(g.records, Parallel(), i + 1), pairs)
    ensures has <==> Independent(g.records, i, |g.records|)
  {
    var rs := g.records;
    pairs, has := before, had;
    for j := i + 1 to |rs|
      invariant ReportsParallel(rs, Visited(rs, Parallel(), i, j), pairs)
      invariant has <==> Independent(rs, i, j)
    {
      pairs, has := ParallelPair(g, i, j, pairs, has);
    }
  }

  /** The parallelism check reports exactly the overlapping pairs that share no IBAN, and
      says whether there are any pairs that share no IBAN at all. */
  method CheckParallelism(g: Graph) returns (pairs: seq<Overlapping>, hasIndependent: bool)
    requires IsGraphOf(g, g.records)
    ensures ReportsParallel(g.records, ParallelPairs(g.records), pairs)
    ensures hasIndependent <==>
      exists i, j :: 0 <= i < j < |g.records| && !ShareIban(g.records[i], g.records[j])
  {
    var rs := g.records;
    pairs, hasIndependent := [], false;
    for i := 0 to |rs|
      invariant ReportsParallel(rs, Rows(rs, Parallel(), i), pairs)
      invariant hasIndependent <==> i > 0 && Independent(rs, i - 1, |rs|)
    {
      pairs, hasIndependent := ParallelRow(g, i, pairs, hasIndependent);
    }
    if |rs| > 0 {
      IndependentMeans(rs, |rs| - 1, |rs|);
    }
  }
}
