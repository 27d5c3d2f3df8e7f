/** The score aggregator the traverser fills during a walk (scoring_api_t).
    Its library is not part of this model: this module gives it a minimal
    concrete semantics consistent with how the traverser uses it. Per
    (subsystem, resource type) it keeps the evaluation groups in the order
    they were added, how many of them the match chose (best_i), whether a
    top-K subset was chosen (best_k) and a cursor for iteration; per
    subsystem the resource types in the order of first addition; and the
    avail, overall score and hierarchical-constraint fields. */
module ScoringApi {
  import opened Wrappers
  import opened ResourceData
  import opened MatcherData

  /** The edge of a root group: there is none. */
  const NO_EDGE: int := -1

  /** One selected edge: how much of its target is taken and whether
      exclusively. */
  datatype EvalEdg = EvalEdg(count: nat, needs: nat, exclusive: bool, edge: int)

  /** A group of edges evaluated together, and its score. */
  datatype EvalEgroup = EvalEgroup(
    score: int,
    count: nat,
    exclusive: bool,
    root: bool,
    edges: seq<EvalEdg>)

  type Key = (Subsystem, string)

  datatype Scoring = Scoring(
    types: map<Subsystem, seq<string>>,
    groups: map<Key, seq<EvalEgroup>>,
    chosen: map<Key, nat>,
    bestK: set<Key>,
    cursor: map<Key, nat>,
    avail: nat,
    overallScore: int,
    hierConstrainNow: bool)

  /** A fresh aggregator: nothing recorded, avail 0, overall score -1, no
      hierarchical constraint. */
  function FreshScoring(): Scoring
  {
    Scoring(map[], map[], map[], {}, map[], 0, -1, false)
  }

  /** The groups recorded for (s, t), none when the pair was never added. */
  function Groups(d: Scoring, s: Subsystem, t: string): seq<EvalEgroup>
  {
    if (s, t) in d.groups then d.groups[(s, t)] else []
  }

  /** `resrc_types`: the types recorded under s, in order of first addition. */
  function ResrcTypes(d: Scoring, s: Subsystem): seq<string>
  {
    if s in d.types then d.types[s] else []
  }

  /** `add`: appends a group for (s, t). */
  function Add(d: Scoring, s: Subsystem, t: string, g: EvalEgroup): Scoring
  {
    var ts := ResrcTypes(d, s);
    d.(types := d.types[s := if t in ts then ts else ts + [t]],
       groups := d.groups[(s, t) := Groups(d, s, t) + [g]])
  }

  /** The count of the groups whose score meets the match. */
  function QualifiedSum(gs: seq<EvalEgroup>): nat
  {
    if |gs| == 0 then 0
    else QualifiedSum(gs[..|gs| - 1])
         + (if gs[|gs| - 1].score >= MATCH_MET then gs[|gs| - 1].count else 0)
  }

  /** `qualified_count`. */
  function QualifiedCount(d: Scoring, s: Subsystem, t: string): nat
  {
    QualifiedSum(Groups(d, s, t))
  }

  /** `best_k`: whether a top-K subset was chosen for (s, t). */
  predicate BestK(d: Scoring, s: Subsystem, t: string)
  {
    (s, t) in d.bestK
  }

  /** `best_i`: how many of the groups of (s, t) are chosen, 0 when none. */
  function BestI(d: Scoring, s: Subsystem, t: string): nat
  {
    if (s, t) in d.chosen then d.chosen[(s, t)] else 0
  }

  /** `choose_accum_all`: every group of (s, t) is chosen. */
  function ChooseAccumAll(d: Scoring, s: Subsystem, t: string): Scoring
  {
    d.(chosen := d.chosen[(s, t) := |Groups(d, s, t)|])
  }

  /** `at`: the i-th group of (s, t); None where the library throws
      std::out_of_range. */
  function At(d: Scoring, s: Subsystem, t: string, i: int): Option<EvalEgroup>
  {
    if 0 <= i < |Groups(d, s, t)| then Some(Groups(d, s, t)[i]) else None
  }

  /** The types of b not yet in a, appended to a in b's order. */
  function AppendNew(a: seq<string>, b: seq<string>): seq<string>
    decreases |b|
  {
    if |b| == 0 then a
    else AppendNew(if b[0] in a then a else a + [b[0]], b[1..])
  }

  /** `merge`: the groups of o are appended after this one's, key by key;
      this one's other fields are kept. */
  function Merge(d: Scoring, o: Scoring): Scoring
  {
    d.(types := map s | s in d.types.Keys + o.types.Keys :: AppendNew(ResrcTypes(d, s), ResrcTypes(o, s)),
       groups := map k | k in d.groups.Keys + o.groups.Keys :: Groups(d, k.0, k.1) + Groups(o, k.0, k.1))
  }

  function SetAvail(d: Scoring, avail: nat): Scoring
  {
    d.(avail := avail)
  }

  function SetOverallScore(d: Scoring, score: int): Scoring
  {
    d.(overallScore := score)
  }

  function Cursor(d: Scoring, s: Subsystem, t: string): nat
  {
    if (s, t) in d.cursor then d.cursor[(s, t)] else 0
  }

  /** `rewind_iter_cur`. */
  function RewindIterCur(d: Scoring, s: Subsystem, t: string): Scoring
  {
    d.(cursor := d.cursor[(s, t) := 0])
  }

  /** `iter_cur`: the group under the cursor, None past the end. */
  function IterCur(d: Scoring, s: Subsystem, t: string): Option<EvalEgroup>
  {
    At(d, s, t, Cursor(d, s, t))
  }

  /** `incr_iter_cur`. */
  function IncrIterCur(d: Scoring, s: Subsystem, t: string): Scoring
  {
    d.(cursor := d.cursor[(s, t) := Cursor(d, s, t) + 1])
  }

  // ---------------------------------------------------------------------
  // Well-formedness and properties
  // ---------------------------------------------------------------------

  /** No more groups are chosen than were recorded. */
  ghost predicate Wf(d: Scoring)
  {
    forall k :: k in d.chosen ==> d.chosen[k] <= |Groups(d, k.0, k.1)|
  }

  /** A group whose edges are all below n. */
  predicate GroupEdgesBelow(g: EvalEgroup, n: nat)
  {
    forall j :: 0 <= j < |g.edges| ==> 0 <= g.edges[j].edge < n
  }

  /** Every non-root group of the list refers to edges below n only. */
  predicate GroupsEdgesBelow(gs: seq<EvalEgroup>, n: nat)
  {
    forall i :: 0 <= i < |gs| ==> gs[i].root || GroupEdgesBelow(gs[i], n)
  }

  /** Every edge a non-root group refers to is an edge of the graph. */
  ghost predicate EdgesBelow(d: Scoring, n: nat)
  {
    forall k :: k in d.groups ==> GroupsEdgesBelow(d.groups[k], n)
  }

  /** Every group of the list is a non-root group whose edges are below n:
      what the walk below the root records. */
  predicate AllGroupsBelow(gs: seq<EvalEgroup>, n: nat)
  {
    forall i :: 0 <= i < |gs| ==> !gs[i].root && GroupEdgesBelow(gs[i], n)
  }

  ghost predicate AllEdgesBelow(d: Scoring, n: nat)
  {
    forall k :: k in d.groups ==> AllGroupsBelow(d.groups[k], n)
  }

  /** The walk invariant holds of a fresh aggregator and implies the weaker
      one enforcement needs. */
  lemma AllEdgesBelowWeakens(d: Scoring, n: nat)
    ensures AllEdgesBelow(FreshScoring(), n)
    ensures AllEdgesBelow(d, n) ==> EdgesBelow(d, n)
    ensures AllEdgesBelow(d, n) ==> forall s, t :: AllGroupsBelow(Groups(d, s, t), n)
  {
  }

  /** Adding a non-root group on existing edges keeps the walk invariant. */
  lemma AddKeepsAllEdgesBelow(d: Scoring, s: Subsystem, t: string, g: EvalEgroup, n: nat)
    requires AllEdgesBelow(d, n) && !g.root && GroupEdgesBelow(g, n)
    ensures AllEdgesBelow(Add(d, s, t, g), n)
  {
    var r := Add(d, s, t, g);
    forall k | k in r.groups
      ensures AllGroupsBelow(r.groups[k], n)
    {
      if k != (s, t) {
        assert r.groups[k] == d.groups[k];
      }
    }
  }

  /** Merging keeps the walk invariant. */
  lemma MergeKeepsAllEdgesBelow(d: Scoring, o: Scoring, n: nat)
    requires AllEdgesBelow(d, n) && AllEdgesBelow(o, n)
    ensures AllEdgesBelow(Merge(d, o), n)
  {
    var r := Merge(d, o);
    forall k | k in r.groups
      ensures AllGroupsBelow(r.groups[k], n)
    {
      var a, b := Groups(d, k.0, k.1), Groups(o, k.0, k.1);
      assert r.groups[k] == a + b;
    }
  }

  lemma FreshScoringWf(n: nat)
    ensures Wf(FreshScoring()) && EdgesBelow(FreshScoring(), n)
    ensures FreshScoring().overallScore == -1 && FreshScoring().avail == 0
  {
  }

  /** Adding appends exactly one group, to (s, t) only, records t under s on
      its first addition, and grows the qualified count of (s, t) by the
      group's count when its score meets the match. */
  lemma AddAppends(d: Scoring, s: Subsystem, t: string, g: EvalEgroup)
    ensures forall s', t' :: Groups(Add(d, s, t, g), s', t')
              == Groups(d, s', t') + (if (s', t') == (s, t) then [g] else [])
    ensures ResrcTypes(Add(d, s, t, g), s) == (if t in ResrcTypes(d, s) then ResrcTypes(d, s) else ResrcTypes(d, s) + [t])
    ensures forall s' :: s' != s ==> ResrcTypes(Add(d, s, t, g), s') == ResrcTypes(d, s')
    ensures QualifiedCount(Add(d, s, t, g), s, t)
            == QualifiedCount(d, s, t) + (if g.score >= MATCH_MET then g.count else 0)
    ensures forall s', t' :: BestI(Add(d, s, t, g), s', t') == BestI(d, s', t')
  {
    var r := Add(d, s, t, g);
    forall s', t'
      ensures Groups(r, s', t') == Groups(d, s', t') + (if (s', t') == (s, t) then [g] else [])
    {
      if (s', t') != (s, t) {
        assert Groups(d, s', t') + [] == Groups(d, s', t');
      }
    }
    forall s' | s' != s
      ensures ResrcTypes(r, s') == ResrcTypes(d, s')
    {
    }
    var gs := Groups(d, s, t) + [g];
    assert gs[..|gs| - 1] == Groups(d, s, t);
    assert QualifiedCount(r, s, t) == QualifiedSum(gs);
  }

  lemma AddWf(d: Scoring, s: Subsystem, t: string, g: EvalEgroup, n: nat)
    ensures Wf(d) ==> Wf(Add(d, s, t, g))
    ensures EdgesBelow(d, n) && (g.root || GroupEdgesBelow(g, n)) ==> EdgesBelow(Add(d, s, t, g), n)
  {
    AddAppends(d, s, t, g);
  }

  /** The qualified count is additive over concatenation. */
  lemma {:induction false} QualifiedSumAppend(a: seq<EvalEgroup>, b: seq<EvalEgroup>)
    ensures QualifiedSum(a + b) == QualifiedSum(a) + QualifiedSum(b)
    decreases |b|
  {
    if |b| > 0 {
      var ab := a + b;
      assert ab[..|ab| - 1] == a + b[..|b| - 1];
      QualifiedSumAppend(a, b[..|b| - 1]);
    } else {
      assert a + b == a;
    }
  }

  /** Merging appends the child's groups after the parent's for every pair,
      so qualified counts add up, and keeps the parent's choices and
      scalars. */
  lemma MergeAppends(d: Scoring, o: Scoring)
    ensures forall s, t :: Groups(Merge(d, o), s, t) == Groups(d, s, t) + Groups(o, s, t)
    ensures forall s, t :: QualifiedCount(Merge(d, o), s, t) == QualifiedCount(d, s, t) + QualifiedCount(o, s, t)
    ensures forall s, t :: BestI(Merge(d, o), s, t) == BestI(d, s, t)
    ensures Merge(d, o).avail == d.avail && Merge(d, o).overallScore == d.overallScore
  {
    forall s, t
      ensures Groups(Merge(d, o), s, t) == Groups(d, s, t) + Groups(o, s, t)
      ensures QualifiedCount(Merge(d, o), s, t) == QualifiedCount(d, s, t) + QualifiedCount(o, s, t)
    {
      QualifiedSumAppend(Groups(d, s, t), Groups(o, s, t));
    }
  }

  /** AppendNew keeps a as a prefix, adds exactly b's new members, and adds
      no duplicate. */
  lemma {:induction false} AppendNewMembers(a: seq<string>, b: seq<string>)
    ensures forall x :: x in AppendNew(a, b) <==> x in a || x in b
    ensures |AppendNew(a, b)| >= |a| && AppendNew(a, b)[..|a|] == a
    ensures (forall i, j :: 0 <= i < j < |a| ==> a[i] != a[j]) ==>
            forall i, j :: 0 <= i < j < |AppendNew(a, b)| ==> AppendNew(a, b)[i] != AppendNew(a, b)[j]
    decreases |b|
  {
    if |b| > 0 {
      var a' := if b[0] in a then a else a + [b[0]];
      AppendNewMembers(a', b[1..]);
      assert forall x :: x in b <==> x == b[0] || x in b[1..];
      assert a'[..|a|] == a;
    }
  }

  lemma MergeWf(d: Scoring, o: Scoring, n: nat)
    ensures Wf(d) ==> Wf(Merge(d, o))
    ensures EdgesBelow(d, n) && EdgesBelow(o, n) ==> EdgesBelow(Merge(d, o), n)
  {
    var r := Merge(d, o);
    MergeAppends(d, o);
    if EdgesBelow(d, n) && EdgesBelow(o, n) {
      forall k | k in r.groups
        ensures GroupsEdgesBelow(r.groups[k], n)
      {
        var a, b := Groups(d, k.0, k.1), Groups(o, k.0, k.1);
        assert r.groups[k] == a + b;
        assert GroupsEdgesBelow(a, n) && GroupsEdgesBelow(b, n);
      }
    }
  }

  /** Accepting all makes every recorded group of (s, t) chosen, and each of
      them can be fetched with `at`. */
  lemma ChooseAccumAllChoosesEvery(d: Scoring, s: Subsystem, t: string)
    ensures BestI(ChooseAccumAll(d, s, t), s, t) == |Groups(d, s, t)|
    ensures forall i :: 0 <= i < BestI(ChooseAccumAll(d, s, t), s, t) ==>
              At(ChooseAccumAll(d, s, t), s, t, i) == Some(Groups(d, s, t)[i])
    ensures forall s', t' :: (s', t') != (s, t) ==> BestI(ChooseAccumAll(d, s, t), s', t') == BestI(d, s', t')
    ensures Wf(d) ==> Wf(ChooseAccumAll(d, s, t))
    ensures forall n :: EdgesBelow(d, n) ==> EdgesBelow(ChooseAccumAll(d, s, t), n)
  {
  }

  /** In a well-formed aggregator the chosen groups can always be fetched:
      `at` below best_i never throws. */
  lemma ChosenAreFetchable(d: Scoring, s: Subsystem, t: string, i: int)
    requires Wf(d) && 0 <= i < BestI(d, s, t)
    ensures At(d, s, t, i).Some?
  {
  }

  /** The iterator walks the groups of (s, t) from the first: after a
      rewind and k increments it stands on the k-th group. */
  lemma {:induction false} IteratorWalks(d: Scoring, s: Subsystem, t: string, k: nat)
    ensures IterCur(Steps(RewindIterCur(d, s, t), s, t, k), s, t) == At(d, s, t, k)
    ensures Groups(Steps(RewindIterCur(d, s, t), s, t, k), s, t) == Groups(d, s, t)
    ensures Cursor(Steps(RewindIterCur(d, s, t), s, t, k), s, t) == k
    decreases k
  {
    if k > 0 {
      IteratorWalks(d, s, t, k - 1);
    }
  }

  /** k increments of the cursor of (s, t). */
  function Steps(d: Scoring, s: Subsystem, t: string, k: nat): Scoring
  {
    if k == 0 then d else IncrIterCur(Steps(d, s, t, k - 1), s, t)
  }
}
