/** The depth-first-and-up traversal engine (dfu_impl_t,
    dfu_traverse_impl.cpp): priming of subtree aggregates, the matching walk
    that scores candidate subtrees and records its choice on the edges, and
    the update walk that commits the choice to the planners.

    The resource graph is the filtered view the matcher selects, held as an
    arena: vertices and edges are indexed by their descriptors, and planners
    live in an arena of their own, referred to by handle. */
module DfuTraverseImpl {
  import opened Wrappers
  import opened Jobspec
  import opened ResourceData
  import opened MatcherData
  import opened DfuMatchCb
  import opened Planners
  import opened ScoringApi
  import opened DfuJobMeta

  datatype Edge = Edge(src: nat, tgt: nat, relation: ResourceRelation)

  datatype Direction = Dfv | Upv

  datatype MatchKind = SlotKind | ResourceKind | NoKind

  const SLOT_TYPE: string := "slot"

  /** UINT_MAX, the number of slots before any slot element is counted. */
  const UINT_MAX: nat := UINT_LIMIT - 1

  // ---------------------------------------------------------------------
  // Graph states, as values
  // ---------------------------------------------------------------------

  /** Edge ends are vertices, every vertex has its own planner, and every
      subtree planner handle is NULL or a planner. */
  ghost predicate GraphOk(vs: seq<ResourcePool>, es: seq<Edge>, ps: seq<Planner>)
  {
    (forall e :: 0 <= e < |es| ==> es[e].src < |vs| && es[e].tgt < |vs|)
    && (forall v :: 0 <= v < |vs| ==> 0 <= vs[v].schedule.plans < |ps|)
    && (forall v :: 0 <= v < |vs| ==> SubplansOk(vs[v].idata, |ps|))
  }

  ghost predicate SubplansOk(d: PoolInfra, n: nat)
  {
    forall s :: s in d.subplans ==> -1 <= d.subplans[s] < n
  }

  function Recolor(p: ResourcePool, s: Subsystem, c: nat): ResourcePool
  {
    p.(idata := p.idata.(colors := p.idata.colors[s := c]))
  }

  /** A vertex with its colours forgotten. */
  function Uncolored(p: ResourcePool): ResourcePool
  {
    p.(idata := p.idata.(colors := map[]))
  }

  /** The two vertex lists differ in colours only. */
  ghost predicate Recolored(a: seq<ResourcePool>, b: seq<ResourcePool>)
  {
    |a| == |b| && forall v :: 0 <= v < |a| ==> Uncolored(a[v]) == Uncolored(b[v])
  }

  /** What a matching walk never changes about an edge. */
  function Shape(e: Edge): (nat, nat, string, map<Subsystem, string>)
  {
    (e.src, e.tgt, e.relation.name, e.relation.idata.memberOf)
  }

  /** The two edge lists differ in their recorded decisions only. */
  ghost predicate Reweighted(a: seq<Edge>, b: seq<Edge>)
  {
    |a| == |b| && forall e :: 0 <= e < |a| ==> Shape(a[e]) == Shape(b[e])
  }

  /** Every colour is at most black of the current epoch. */
  ghost predicate ColorsBelow(vs: seq<ResourcePool>, b: nat)
  {
    forall v, s :: 0 <= v < |vs| && s in vs[v].idata.colors ==> vs[v].idata.colors[s] <= Black(b)
  }

  /** The (vertex, subsystem) pairs still white in the current epoch. */
  ghost function Unvisited(vs: seq<ResourcePool>, subs: seq<Subsystem>, b: nat): set<(nat, Subsystem)>
  {
    set v: nat, s | 0 <= v < |vs| && s in subs && IsWhite(ColorOf(vs[v].idata, s), b) :: (v, s)
  }

  /** Painting a vertex gray or black under the current base takes its pair
      out of the unvisited set and changes nothing else of the graph. */
  lemma Paint(vs: seq<ResourcePool>, u: nat, s: Subsystem, c: nat, subs: seq<Subsystem>, b: nat)
    requires u < |vs| && b < c <= Black(b)
    ensures var vs' := vs[u := Recolor(vs[u], s, c)];
      Unvisited(vs', subs, b) == Unvisited(vs, subs, b) - {(u, s)}
      && Recolored(vs, vs')
      && (ColorsBelow(vs, b) ==> ColorsBelow(vs', b))
  {
    var vs' := vs[u := Recolor(vs[u], s, c)];
    assert forall v, s' :: 0 <= v < |vs| ==>
             ColorOf(vs'[v].idata, s') == (if v == u && s' == s then c else ColorOf(vs[v].idata, s'));
  }

  lemma RecoloredTrans(a: seq<ResourcePool>, b: seq<ResourcePool>, c: seq<ResourcePool>)
    requires Recolored(a, b) && Recolored(b, c)
    ensures Recolored(a, c)
  {
  }

  lemma ReweightedTrans(a: seq<Edge>, b: seq<Edge>, c: seq<Edge>)
    requires Reweighted(a, b) && Reweighted(b, c)
    ensures Reweighted(a, c)
  {
  }

  /** A matching walk keeps the graph well formed. */
  lemma WalkKeepsGraphOk(vs: seq<ResourcePool>, es: seq<Edge>, vs': seq<ResourcePool>, es': seq<Edge>, ps: seq<Planner>)
    requires GraphOk(vs, es, ps) && Recolored(vs, vs') && Reweighted(es, es')
    ensures GraphOk(vs', es', ps)
  {
    forall v | 0 <= v < |vs'|
      ensures vs'[v].schedule == vs[v].schedule && vs'[v].idata.subplans == vs[v].idata.subplans
    {
      assert Uncolored(vs[v]) == Uncolored(vs'[v]);
    }
    forall e | 0 <= e < |es'|
      ensures es'[e].src == es[e].src && es'[e].tgt == es[e].tgt
    {
      assert Shape(es[e]) == Shape(es'[e]);
    }
  }

  /** A new epoch whitens the whole graph. */
  lemma ResetWhitens(vs: seq<ResourcePool>, b: nat)
    requires ColorsBelow(vs, b)
    ensures ColorsBelow(vs, Reset(b))
    ensures forall v, s :: 0 <= v < |vs| ==> IsWhite(ColorOf(vs[v].idata, s), Reset(b))
  {
    forall v, s | 0 <= v < |vs|
      ensures IsWhite(ColorOf(vs[v].idata, s), Reset(b))
    {
      if s in vs[v].idata.colors {
        ResetIsFullRecolor(vs[v].idata.colors[s], b);
      }
    }
  }

  // ---------------------------------------------------------------------
  // The resource graph
  // ---------------------------------------------------------------------

  class ResourceGraph {
    var vertices: seq<ResourcePool>
    var edges: seq<Edge>
    var planners: seq<Planner>

    ghost predicate Valid()
      reads this
    {
      GraphOk(vertices, edges, planners)
    }

    constructor (vertices: seq<ResourcePool>, edges: seq<Edge>, planners: seq<Planner>)
      ensures this.vertices == vertices && this.edges == edges && this.planners == planners
    {
      this.vertices := vertices;
      this.edges := edges;
      this.planners := planners;
    }

    /** The type of vertex v. */
    function TypeOf(v: nat): string
      requires v < |vertices|
      reads this
    {
      vertices[v].rtype
    }

    method SetColor(u: nat, s: Subsystem, c: nat)
      requires u < |vertices|
      modifies this
      ensures vertices == old(vertices)[u := Recolor(old(vertices)[u], s, c)]
      ensures edges == old(edges) && planners == old(planners)
    {
      vertices := vertices[u := Recolor(vertices[u], s, c)];
    }

    method SetVertex(u: nat, p: ResourcePool)
      requires u < |vertices|
      modifies this
      ensures vertices == old(vertices)[u := p]
      ensures edges == old(edges) && planners == old(planners)
    {
      vertices := vertices[u := p];
    }

    method SetEdge(e: nat, ed: Edge)
      requires e < |edges|
      modifies this
      ensures edges == old(edges)[e := ed]
      ensures vertices == old(vertices) && planners == old(planners)
    {
      edges := edges[e := ed];
    }

    /** `planner_new` into the arena: the handle of the new planner. */
    method AddPlanner(p: Planner) returns (h: PlannerRef)
      modifies this
      ensures h == |old(planners)| && planners == old(planners) + [p]
      ensures vertices == old(vertices) && edges == old(edges)
    {
      h := |planners|;
      planners := planners + [p];
    }

    method SetPlanner(h: nat, p: Planner)
      requires h < |planners|
      modifies this
      ensures planners == old(planners)[h := p]
      ensures vertices == old(vertices) && edges == old(edges)
    {
      planners := planners[h := p];
    }
  }

  // ---------------------------------------------------------------------
  // Request-side specifications
  // ---------------------------------------------------------------------

  /** Some request of type t asks for exclusivity. */
  predicate AnyExclusive(resources: seq<Resource>, t: string)
  {
    exists i :: 0 <= i < |resources| && resources[i].rtype == t && resources[i].exclusive
  }

  /** The aggregate a planner with these resource types is asked for: one
      entry per type, the looked-up demand cast to uint64, or 0. */
  function AggregateOf(types: seq<string>, lookup: map<string, int>): (agg: seq<nat>)
    ensures |agg| == |types|
  {
    seq(|types|, i requires 0 <= i < |types| =>
      if types[i] in lookup then ToUint64(lookup[types[i]]) else 0)
  }

  /** The index of the first request of type t or of type slot, |rs| if
      none. */
  function FirstHit(rs: seq<Resource>, t: string): (i: nat)
    ensures i <= |rs|
    ensures forall j :: 0 <= j < i ==> rs[j].rtype != t && rs[j].rtype != SLOT_TYPE
    ensures i < |rs| ==> rs[i].rtype == t || rs[i].rtype == SLOT_TYPE
    decreases |rs|
  {
    if |rs| == 0 then 0
    else if rs[0].rtype == t || rs[0].rtype == SLOT_TYPE then 0
    else 1 + FirstHit(rs[1..], t)
  }

  /** The last request of type slot. */
  function LastSlot(rs: seq<Resource>): (r: Option<Resource>)
    ensures r.Some? ==> r.value in rs && r.value.rtype == SLOT_TYPE
    ensures r.None? ==> forall j :: 0 <= j < |rs| ==> rs[j].rtype != SLOT_TYPE
    ensures r.Some? ==> exists j :: 0 <= j < |rs| && rs[j] == r.value
                          && forall k :: j < k < |rs| ==> rs[k].rtype != SLOT_TYPE
  {
    if |rs| == 0 then None
    else if rs[|rs| - 1].rtype == SLOT_TYPE then Some(rs[|rs| - 1])
    else
      var r := LastSlot(rs[..|rs| - 1]);
      assert forall j :: 0 <= j < |rs| - 1 ==> rs[..|rs| - 1][j] == rs[j];
      r
  }

  /** What `match` reports for a vertex of type t: the slot request and the
      matched request. */
  function MatchOf(rs: seq<Resource>, t: string): (Option<Resource>, Option<Resource>)
  {
    var i := FirstHit(rs, t);
    if i == |rs| then (None, None)
    else if rs[i].rtype == t then (LastSlot(rs[i].with), Some(rs[i]))
    else (Some(rs[i]), None)
  }

  /** The first request of the vertex's type is matched, and its last slot
      child is the slot; a slot request met before any request of the
      vertex's type is the slot instead, with no match. */
  lemma MatchFirstWins(rs: seq<Resource>, t: string)
    ensures var (slot, matched) := MatchOf(rs, t);
      (matched.Some? ==>
         matched.value.rtype == t
         && (exists i :: 0 <= i < |rs| && rs[i] == matched.value
               && forall j :: 0 <= j < i ==> rs[j].rtype != t && rs[j].rtype != SLOT_TYPE))
      && (slot.Some? ==> slot.value.rtype == SLOT_TYPE)
      && (matched.None? && slot.Some? ==> t != SLOT_TYPE && slot.value in rs)
      && ((forall j :: 0 <= j < |rs| ==> rs[j].rtype != t && rs[j].rtype != SLOT_TYPE) <==> slot.None? && matched.None?)
  {
    var i := FirstHit(rs, t);
    if i < |rs| && rs[i].rtype == t {
      var w := LastSlot(rs[i].with);
    }
  }

  /** The last request of type t decides: the rule of the older traverser. */
  function LastExclusive(rs: seq<Resource>, t: string): bool
  {
    if |rs| == 0 then false
    else if rs[|rs| - 1].rtype == t then rs[|rs| - 1].exclusive
    else LastExclusive(rs[..|rs| - 1], t)
  }

  /** The two exclusivity rules: the last-match rule only says yes when the
      any-match rule does, and they agree when the requests of the type agree
      with each other. */
  lemma {:induction false} ExclusivityRules(rs: seq<Resource>, t: string)
    ensures LastExclusive(rs, t) ==> AnyExclusive(rs, t)
    ensures (forall i, j :: 0 <= i < |rs| && 0 <= j < |rs| && rs[i].rtype == t && rs[j].rtype == t
               ==> rs[i].exclusive == rs[j].exclusive)
            ==> LastExclusive(rs, t) == AnyExclusive(rs, t)
  {
    if |rs| > 0 {
      var init := rs[..|rs| - 1];
      ExclusivityRules(init, t);
      assert forall i :: 0 <= i < |init| ==> init[i] == rs[i];
      if rs[|rs| - 1].rtype != t {
        assert AnyExclusive(rs, t) ==> AnyExclusive(init, t);
      }
    }
  }

  /** Every out-edge target type the slot's children ask for is present. */
  ghost predicate SlotFits(vs: seq<ResourcePool>, es: seq<Edge>, u: nat, shape: seq<Resource>)
  {
    forall c :: 0 <= c < |shape| ==> HasChildOfType(vs, es, u, shape[c].rtype)
  }

  ghost predicate HasChildOfType(vs: seq<ResourcePool>, es: seq<Edge>, u: nat, t: string)
  {
    exists e :: 0 <= e < |es| && es[e].src == u && es[e].tgt < |vs| && vs[es[e].tgt].rtype == t
  }

  // ---------------------------------------------------------------------
  // Accumulators: std::map<string, int64_t> as a map
  // ---------------------------------------------------------------------

  /** A count of the accumulator, or 0 for an absent type, as `operator[]`
      default-inserts. */
  function Get(acc: map<string, int>, t: string): (v: int)
  {
    if t in acc then acc[t] else 0
  }

  /** The types whose counts subsystem s aggregates into subtree planners. */
  function Tracked(sdau: map<Subsystem, set<string>>, s: Subsystem): set<string>
  {
    if s in sdau then sdau[s] else {}
  }

  /** `accum_if`: a count of a tracked type is added to the accumulator (a
      missing entry counting as 0) and 0 returned; any other type is refused
      with -1. */
  function AccumIf(sdau: map<Subsystem, set<string>>, s: Subsystem, t: string, counts: nat,
                   acc: map<string, int>): (int, map<string, int>)
  {
    if t in Tracked(sdau, s) then (0, acc[t := Get(acc, t) + counts]) else (-1, acc)
  }

  /** What adding each entry of m (each value read as unsigned int) leaves in
      the accumulator, in whatever order the entries come. */
  function AccumAll(sdau: map<Subsystem, set<string>>, s: Subsystem, acc: map<string, int>,
                    m: map<string, int>): map<string, int>
  {
    map t | t in acc.Keys + (m.Keys * Tracked(sdau, s)) ::
      Get(acc, t) + (if t in m && t in Tracked(sdau, s) then ToUint32(m[t]) else 0)
  }

  /** accum_if succeeds exactly for a tracked type, and then adds the count
      to that type's entry and to no other. */
  lemma AccumIfEffect(sdau: map<Subsystem, set<string>>, s: Subsystem, t: string, counts: nat,
                      acc: map<string, int>)
    ensures var (rc, acc') := AccumIf(sdau, s, t, counts, acc);
      (rc == 0 <==> t in Tracked(sdau, s)) && (rc == 0 || rc == -1)
      && (rc == 0 ==> acc'.Keys == acc.Keys + {t} && Get(acc', t) == Get(acc, t) + counts)
      && (rc != 0 ==> acc' == acc)
      && (forall t' :: t' != t ==> Get(acc', t') == Get(acc, t'))
  {
  }

  /** Adding one entry first and the rest after is adding them all. */
  lemma AccumAllStep(sdau: map<Subsystem, set<string>>, s: Subsystem, acc: map<string, int>,
                     m: map<string, int>, k: string)
    requires k in m
    ensures AccumAll(sdau, s, AccumIf(sdau, s, k, ToUint32(m[k]), acc).1, m - {k})
            == AccumAll(sdau, s, acc, m)
  {
    var acc1 := AccumIf(sdau, s, k, ToUint32(m[k]), acc).1;
    var l := AccumAll(sdau, s, acc1, m - {k});
    var r := AccumAll(sdau, s, acc, m);
    assert l.Keys == r.Keys;
    forall t | t in l.Keys
      ensures l[t] == r[t]
    {
    }
  }

  /** Adding nothing changes nothing, and adding only ever grows the entries
      of tracked types. */
  lemma AccumAllBasics(sdau: map<Subsystem, set<string>>, s: Subsystem, acc: map<string, int>,
                       m: map<string, int>)
    ensures AccumAll(sdau, s, acc, map[]) == acc
    ensures AccumAll(sdau, s, acc, m).Keys <= acc.Keys + Tracked(sdau, s)
    ensures forall t :: Get(AccumAll(sdau, s, acc, m), t) >= Get(acc, t)
    ensures forall t :: t !in Tracked(sdau, s) ==> Get(AccumAll(sdau, s, acc, m), t) == Get(acc, t)
  {
    var e := AccumAll(sdau, s, acc, map[]);
    assert e.Keys == acc.Keys;
  }

  /** Every key of the accumulator is a tracked type. */
  ghost predicate KeysTracked(acc: map<string, int>, sdau: map<Subsystem, set<string>>, s: Subsystem)
  {
    acc.Keys <= Tracked(sdau, s)
  }

  /** Accumulating never brings in an untracked type. */
  lemma AccumKeepsTracked(sdau: map<Subsystem, set<string>>, s: Subsystem, acc: map<string, int>,
                          t: string, c: nat, m: map<string, int>)
    requires KeysTracked(acc, sdau, s)
    ensures KeysTracked(AccumIf(sdau, s, t, c, acc).1, sdau, s)
    ensures KeysTracked(AccumAll(sdau, s, acc, m), sdau, s)
  {
  }

  /** The vertex with its colours and subtree planners forgotten. */
  function Unprimed(p: ResourcePool): ResourcePool
  {
    p.(idata := p.idata.(colors := map[], subplans := map[]))
  }

  /** The two vertex lists differ in colours and subtree planners only. */
  ghost predicate Reprimed(a: seq<ResourcePool>, b: seq<ResourcePool>)
  {
    |a| == |b| && forall v :: 0 <= v < |a| ==> Unprimed(a[v]) == Unprimed(b[v])
  }

  /** b extends a: the arena only grows. */
  ghost predicate Extends<T>(a: seq<T>, b: seq<T>)
  {
    |a| <= |b| && b[..|a|] == a
  }

  /** A subtree planner over the child aggregate: its types are the
      aggregate's keys, each once, and its totals their values. */
  ghost predicate PlansAggregate(p: Planner, agg: map<string, int>)
  {
    |p.resourceTypes| == |p.totals| == |agg.Keys|
    && (forall i :: 0 <= i < |p.resourceTypes| ==>
          p.resourceTypes[i] in agg && p.totals[i] == ToUint64(agg[p.resourceTypes[i]]))
    && (forall i, j :: 0 <= i < j < |p.resourceTypes| ==> p.resourceTypes[i] != p.resourceTypes[j])
  }

  lemma DistinctCoverAll(types: seq<string>, keys: set<string>)
    requires forall i :: 0 <= i < |types| ==> types[i] in keys
    requires forall i, j :: 0 <= i < j < |types| ==> types[i] != types[j]
    requires |types| == |keys|
    ensures forall k :: k in keys ==> k in types
  {
    var ts := set i | 0 <= i < |types| :: types[i];
    DistinctCard(types);
    var rest := keys - ts;
    assert keys == ts + rest && ts * rest == {};
    assert |rest| == 0;
    forall k | k in keys
      ensures k in types
    {
      assert k in ts;
    }
  }

  lemma {:induction false} DistinctCard(types: seq<string>)
    requires forall i, j :: 0 <= i < j < |types| ==> types[i] != types[j]
    ensures |set i | 0 <= i < |types| :: types[i]| == |types|
  {
    if |types| > 0 {
      var init := types[..|types| - 1];
      DistinctCard(init);
      var a := set i | 0 <= i < |init| :: init[i];
      var b := set i | 0 <= i < |types| :: types[i];
      assert b == a + {types[|types| - 1]};
      assert types[|types| - 1] !in a;
    }
  }

  lemma GraphOkGrows(vs: seq<ResourcePool>, es: seq<Edge>, ps: seq<Planner>, ps': seq<Planner>)
    requires GraphOk(vs, es, ps) && |ps| <= |ps'|
    ensures GraphOk(vs, es, ps')
  {
    forall v | 0 <= v < |vs|
      ensures SubplansOk(vs[v].idata, |ps'|)
    {
      assert SubplansOk(vs[v].idata, |ps|);
    }
  }

  lemma ReprimedTrans(a: seq<ResourcePool>, b: seq<ResourcePool>, c: seq<ResourcePool>)
    requires Reprimed(a, b) && Reprimed(b, c)
    ensures Reprimed(a, c)
  {
  }

  lemma RecoloredIsReprimed(a: seq<ResourcePool>, b: seq<ResourcePool>)
    requires Recolored(a, b)
    ensures Reprimed(a, b)
  {
    forall v | 0 <= v < |a|
      ensures Unprimed(a[v]) == Unprimed(b[v])
    {
      assert Uncolored(a[v]) == Uncolored(b[v]);
    }
  }

  /** Edge e leaves a vertex into a vertex still white for s: the walks'
      descent filter, on values. */
  ghost predicate Eligible(vs: seq<ResourcePool>, es: seq<Edge>, e: nat, s: Subsystem, b: nat)
  {
    e < |es| && es[e].tgt < |vs| && s in es[e].relation.idata.memberOf
    && IsWhite(ColorOf(vs[es[e].tgt].idata, s), b)
  }

  ghost predicate HasEligible(vs: seq<ResourcePool>, es: seq<Edge>, u: nat, s: Subsystem, b: nat)
  {
    exists e :: 0 <= e < |es| && es[e].src == u && Eligible(vs, es, e, s, b)
  }

  /** An edge that passes the filter after some painting passed it before. */
  lemma EligibleShrinks(vs: seq<ResourcePool>, vs': seq<ResourcePool>, es: seq<Edge>, e: nat, s: Subsystem, b: nat)
    requires |vs| == |vs'| && Unvisited(vs', [s], b) <= Unvisited(vs, [s], b)
    requires Eligible(vs', es, e, s, b)
    ensures Eligible(vs, es, e, s, b)
  {
    assert (es[e].tgt, s) in Unvisited(vs', [s], b);
  }

  function SetSubplan(p: ResourcePool, s: Subsystem, h: PlannerRef): ResourcePool
  {
    p.(idata := p.idata.(subplans := p.idata.subplans[s := h]))
  }

  lemma ExtendsTrans<T>(a: seq<T>, b: seq<T>, c: seq<T>)
    requires Extends(a, b) && Extends(b, c)
    ensures Extends(a, c)
  {
    assert c[..|a|] == c[..|b|][..|a|];
  }

  /** Recording a subtree planner handle keeps the graph well formed and
      touches no colour. */
  lemma SetSubplanKeepsGraphOk(vs: seq<ResourcePool>, es: seq<Edge>, ps: seq<Planner>, u: nat, s: Subsystem,
                               h: PlannerRef, b: nat)
    requires GraphOk(vs, es, ps) && u < |vs| && -1 <= h < |ps|
    ensures var vs' := vs[u := SetSubplan(vs[u], s, h)];
      GraphOk(vs', es, ps) && Reprimed(vs, vs')
      && (ColorsBelow(vs, b) ==> ColorsBelow(vs', b))
      && (forall subs :: Unvisited(vs', subs, b) == Unvisited(vs, subs, b))
  {
    var vs' := vs[u := SetSubplan(vs[u], s, h)];
    assert SubplansOk(vs[u].idata, |ps|);
    assert forall v :: 0 <= v < |vs| ==> vs'[v].idata.colors == vs[v].idata.colors;
  }

  /** What a priming walk for s may do to the graph: the planner arena only
      grows, vertices change only in colours and subtree planners, no white
      pair is created, and a vertex that was not white for s is untouched. */
  ghost predicate PrimeFrame(vs0: seq<ResourcePool>, ps0: seq<Planner>, vs: seq<ResourcePool>, ps: seq<Planner>,
                             s: Subsystem, b: nat, x: set<nat>)
  {
    Extends(ps0, ps) && Reprimed(vs0, vs)
    && Unvisited(vs, [s], b) <= Unvisited(vs0, [s], b)
    && (forall v :: 0 <= v < |vs| && v !in x && (v, s) !in Unvisited(vs0, [s], b) ==> vs[v] == vs0[v])
  }

  /** Two priming steps make one; the second may touch only what the first
      could, or what was white before the first. */
  lemma PrimeFrameTrans(vs0: seq<ResourcePool>, ps0: seq<Planner>, vs1: seq<ResourcePool>, ps1: seq<Planner>,
                        vs2: seq<ResourcePool>, ps2: seq<Planner>, s: Subsystem, b: nat, x: set<nat>, y: set<nat>)
    requires PrimeFrame(vs0, ps0, vs1, ps1, s, b, x) && PrimeFrame(vs1, ps1, vs2, ps2, s, b, y)
    requires forall v :: v in y ==> v in x || (v, s) in Unvisited(vs0, [s], b)
    ensures PrimeFrame(vs0, ps0, vs2, ps2, s, b, x)
  {
    ExtendsTrans(ps0, ps1, ps2);
    ReprimedTrans(vs0, vs1, vs2);
  }

  /** Painting u takes it out of the white pairs and is a priming step. */
  lemma PaintIsPrimeStep(vs: seq<ResourcePool>, ps: seq<Planner>, u: nat, s: Subsystem, c: nat, b: nat)
    requires u < |vs| && b < c <= Black(b)
    ensures var vs' := vs[u := Recolor(vs[u], s, c)];
      PrimeFrame(vs, ps, vs', ps, s, b, {u}) && Unvisited(vs', [s], b) == Unvisited(vs, [s], b) - {(u, s)}
  {
    var vs' := vs[u := Recolor(vs[u], s, c)];
    Paint(vs, u, s, c, [s], b);
    RecoloredIsReprimed(vs, vs');
  }

  lemma SetSubplanIsPrimeStep(vs: seq<ResourcePool>, ps: seq<Planner>, ps': seq<Planner>, u: nat, s: Subsystem,
                              h: PlannerRef, b: nat)
    requires u < |vs| && Extends(ps, ps')
    ensures PrimeFrame(vs, ps, vs[u := SetSubplan(vs[u], s, h)], ps', s, b, {u})
  {
    var vs' := vs[u := SetSubplan(vs[u], s, h)];
    assert forall v :: 0 <= v < |vs| ==> vs'[v].idata.colors == vs[v].idata.colors;
    assert Unvisited(vs', [s], b) == Unvisited(vs, [s], b);
  }

  /** What the post-order half of `prime` does apart from colouring, from
      the graph (vs0, ps0) it starts on: if the children failed nothing
      happens; otherwise their aggregate dfv is accumulated into `own` and,
      when not empty, becomes u's new subtree planner (unless it has more
      types than a planner holds). */
  ghost predicate AttachOutcome(sdau: map<Subsystem, set<string>>, s: Subsystem, u: nat,
                                vs0: seq<ResourcePool>, ps0: seq<Planner>, vs: seq<ResourcePool>, ps: seq<Planner>,
                                rc0: int, own: map<string, int>, dfv: map<string, int>, rc: int, toParent': map<string, int>)
  {
    u < |vs0| == |vs| && 0 <= vs0[u].schedule.plans < |ps0|
    && Extends(ps0, ps)
    && vs[u].schedule == vs0[u].schedule
    && (rc == 0 || rc == -1)
    && (KeysTracked(own, sdau, s) ==> KeysTracked(toParent', sdau, s))
    && (rc0 != 0 ==> rc == rc0 && toParent' == own)
    && (rc0 == 0 ==> toParent' == AccumAll(sdau, s, own, dfv) && (rc == 0 || |dfv| > PLANNER_NUM_TYPES))
    && (rc == 0 && dfv != map[] ==> NewSubplan(vs[u], s, ps0[vs0[u].schedule.plans], ps, dfv))
    && (rc != 0 || dfv == map[] ==> vs[u].idata.subplans == vs0[u].idata.subplans)
  }

  /** The whole post-order half: the above, and u ends black. */
  ghost predicate LeaveOutcome(sdau: map<Subsystem, set<string>>, s: Subsystem, b: nat, u: nat,
                               vs0: seq<ResourcePool>, ps0: seq<Planner>, vs: seq<ResourcePool>, ps: seq<Planner>,
                               rc0: int, own: map<string, int>, dfv: map<string, int>, rc: int, toParent': map<string, int>)
  {
    AttachOutcome(sdau, s, u, vs0, ps0, vs, ps, rc0, own, dfv, rc, toParent')
    && ColorOf(vs[u].idata, s) == Black(b)
  }

  /** Painting leaves the attach outcome as it was. */
  lemma AttachOutcomeRecolor(sdau: map<Subsystem, set<string>>, s: Subsystem, u: nat,
                             vs0: seq<ResourcePool>, ps0: seq<Planner>, vs: seq<ResourcePool>, ps: seq<Planner>,
                             rc0: int, own: map<string, int>, dfv: map<string, int>, rc: int, toParent': map<string, int>,
                             s': Subsystem, c: nat)
    requires AttachOutcome(sdau, s, u, vs0, ps0, vs, ps, rc0, own, dfv, rc, toParent')
    ensures AttachOutcome(sdau, s, u, vs0, ps0, vs[u := Recolor(vs[u], s', c)], ps, rc0, own, dfv, rc, toParent')
  {
    assert SubplanOf(Recolor(vs[u], s', c).idata, s) == SubplanOf(vs[u].idata, s);
  }

  /** u's subtree planner for s is a fresh planner over agg, with the base
      time and horizon of u's own planner. */
  ghost predicate NewSubplan(p: ResourcePool, s: Subsystem, own: Planner, ps: seq<Planner>, agg: map<string, int>)
  {
    var h := SubplanOf(p.idata, s);
    0 <= h < |ps| && PlansAggregate(ps[h], agg) && ps[h].spans == []
    && ps[h].baseTime == own.baseTime && ps[h].horizon == own.horizon
  }

  /** What `prime` for s from u does, from the graph (vs0, ps0) it starts on:
      a priming step that leaves u black; u's size (if tracked) and, unless
      a child failed, the child aggregate `agg` are added to the parent's
      accumulator; exactly a successful non-empty aggregate becomes u's new
      subtree planner. */
  ghost predicate PrimeOutcome(sdau: map<Subsystem, set<string>>, s: Subsystem, b: nat, u: nat,
                               vs0: seq<ResourcePool>, ps0: seq<Planner>, vs: seq<ResourcePool>, ps: seq<Planner>,
                               toParent: map<string, int>, rc: int, toParent': map<string, int>, agg: map<string, int>)
  {
    u < |vs0| == |vs| && 0 <= vs0[u].schedule.plans < |ps0|
    && PrimeFrame(vs0, ps0, vs, ps, s, b, {u})
    && ColorOf(vs[u].idata, s) == Black(b)
    && (rc == 0 || rc == -1)
    && KeysTracked(agg, sdau, s)
    && (KeysTracked(toParent, sdau, s) ==> KeysTracked(toParent', sdau, s))
    && var own := AccumIf(sdau, s, vs0[u].rtype, ToUint32(vs0[u].size), toParent).1;
       (rc == 0 ==> toParent' == AccumAll(sdau, s, own, agg))
       && (rc != 0 ==> toParent' == own || (|agg| > PLANNER_NUM_TYPES && toParent' == AccumAll(sdau, s, own, agg)))
       && (rc == 0 && agg != map[] ==> NewSubplan(vs[u], s, ps0[vs0[u].schedule.plans], ps, agg))
       && (rc != 0 || agg == map[] ==> vs[u].idata.subplans == vs0[u].idata.subplans)
  }

  /** The three phases of `prime` make one priming step. */
  lemma PrimeComposes(sdau: map<Subsystem, set<string>>, s: Subsystem, b: nat, u: nat,
                      vs0: seq<ResourcePool>, ps0: seq<Planner>, vs1: seq<ResourcePool>,
                      vs2: seq<ResourcePool>, ps2: seq<Planner>, vs3: seq<ResourcePool>, ps3: seq<Planner>,
                      toParent: map<string, int>, rc0: int, agg: map<string, int>, rc: int, toParent': map<string, int>)
    requires u < |vs0| && 0 <= vs0[u].schedule.plans < |ps0|
    requires PrimeFrame(vs0, ps0, vs1, ps0, s, b, {u}) && vs1[u] == Recolor(vs0[u], s, Gray(b))
    requires PrimeFrame(vs1, ps0, vs2, ps2, s, b, {}) && (rc0 == 0 || rc0 == -1) && KeysTracked(agg, sdau, s)
    requires (u, s) !in Unvisited(vs1, [s], b)
    requires PrimeFrame(vs2, ps2, vs3, ps3, s, b, {u})
    requires LeaveOutcome(sdau, s, b, u, vs2, ps2, vs3, ps3, rc0,
                          AccumIf(sdau, s, vs0[u].rtype, ToUint32(vs0[u].size), toParent).1, agg, rc, toParent')
    ensures PrimeOutcome(sdau, s, b, u, vs0, ps0, vs3, ps3, toParent, rc, toParent', agg)
  {
    PrimeFrameTrans(vs0, ps0, vs1, ps0, vs2, ps2, s, b, {u}, {});
    assert vs2[u] == vs1[u];
    PrimeFrameTrans(vs0, ps0, vs2, ps2, vs3, ps3, s, b, {u}, {u});
    assert ps2[vs0[u].schedule.plans] == ps0[vs0[u].schedule.plans];
    if KeysTracked(toParent, sdau, s) {
      AccumKeepsTracked(sdau, s, toParent, vs0[u].rtype, ToUint32(vs0[u].size), map[]);
    }
  }

  /** The post-order half of the older `prime`: the child aggregate goes to
      the parent and, when not empty, u's subtree planner for s is set to a
      planner over it, or to NULL when it has more types than a planner
      holds; u turns black. */
  ghost predicate LegacyLeaveOutcome(sdau: map<Subsystem, set<string>>, s: Subsystem, b: nat, u: nat,
                                     vs0: seq<ResourcePool>, ps0: seq<Planner>, vs: seq<ResourcePool>, ps: seq<Planner>,
                                     own: map<string, int>, dfv: map<string, int>, toParent': map<string, int>)
  {
    u < |vs0| == |vs| && 0 <= vs0[u].schedule.plans < |ps0|
    && Extends(ps0, ps)
    && ColorOf(vs[u].idata, s) == Black(b)
    && vs[u].schedule == vs0[u].schedule
    && (KeysTracked(own, sdau, s) ==> KeysTracked(toParent', sdau, s))
    && toParent' == AccumAll(sdau, s, own, dfv)
    && (dfv != map[] && |dfv| <= PLANNER_NUM_TYPES ==> NewSubplan(vs[u], s, ps0[vs0[u].schedule.plans], ps, dfv))
    && (|dfv| > PLANNER_NUM_TYPES ==> SubplanOf(vs[u].idata, s) == NO_PLANNER && s in vs[u].idata.subplans)
    && (dfv == map[] ==> vs[u].idata.subplans == vs0[u].idata.subplans)
  }

  /** What the older `prime` does: always succeeds; u's size (if tracked)
      and the child aggregate are added to the parent's accumulator; a
      non-empty aggregate becomes u's subtree planner, NULL when too wide. */
  ghost predicate LegacyOutcome(sdau: map<Subsystem, set<string>>, s: Subsystem, b: nat, u: nat,
                                vs0: seq<ResourcePool>, ps0: seq<Planner>, vs: seq<ResourcePool>, ps: seq<Planner>,
                                toParent: map<string, int>, toParent': map<string, int>, agg: map<string, int>)
  {
    u < |vs0| == |vs| && 0 <= vs0[u].schedule.plans < |ps0|
    && PrimeFrame(vs0, ps0, vs, ps, s, b, {u})
    && ColorOf(vs[u].idata, s) == Black(b)
    && KeysTracked(agg, sdau, s)
    && (KeysTracked(toParent, sdau, s) ==> KeysTracked(toParent', sdau, s))
    && toParent' == AccumAll(sdau, s, AccumIf(sdau, s, vs0[u].rtype, ToUint32(vs0[u].size), toParent).1, agg)
    && (agg != map[] && |agg| <= PLANNER_NUM_TYPES ==> NewSubplan(vs[u], s, ps0[vs0[u].schedule.plans], ps, agg))
    && (|agg| > PLANNER_NUM_TYPES ==> SubplanOf(vs[u].idata, s) == NO_PLANNER && s in vs[u].idata.subplans)
    && (agg == map[] ==> vs[u].idata.subplans == vs0[u].idata.subplans)
  }

  lemma LegacyComposes(sdau: map<Subsystem, set<string>>, s: Subsystem, b: nat, u: nat,
                       vs0: seq<ResourcePool>, ps0: seq<Planner>, vs1: seq<ResourcePool>,
                       vs2: seq<ResourcePool>, ps2: seq<Planner>, vs3: seq<ResourcePool>, ps3: seq<Planner>,
                       toParent: map<string, int>, agg: map<string, int>, toParent': map<string, int>)
    requires u < |vs0| && 0 <= vs0[u].schedule.plans < |ps0|
    requires PrimeFrame(vs0, ps0, vs1, ps0, s, b, {u}) && vs1[u] == Recolor(vs0[u], s, Gray(b))
    requires PrimeFrame(vs1, ps0, vs2, ps2, s, b, {}) && KeysTracked(agg, sdau, s)
    requires (u, s) !in Unvisited(vs1, [s], b)
    requires PrimeFrame(vs2, ps2, vs3, ps3, s, b, {u})
    requires LegacyLeaveOutcome(sdau, s, b, u, vs2, ps2, vs3, ps3,
                                AccumIf(sdau, s, vs0[u].rtype, ToUint32(vs0[u].size), toParent).1, agg, toParent')
    ensures LegacyOutcome(sdau, s, b, u, vs0, ps0, vs3, ps3, toParent, toParent', agg)
  {
    PrimeFrameTrans(vs0, ps0, vs1, ps0, vs2, ps2, s, b, {u}, {});
    assert vs2[u] == vs1[u];
    PrimeFrameTrans(vs0, ps0, vs2, ps2, vs3, ps3, s, b, {u}, {u});
    assert ps2[vs0[u].schedule.plans] == ps0[vs0[u].schedule.plans];
    if KeysTracked(toParent, sdau, s) {
      AccumKeepsTracked(sdau, s, toParent, vs0[u].rtype, ToUint32(vs0[u].size), map[]);
    }
  }

  // ---------------------------------------------------------------------
  // Priming the request side
  // ---------------------------------------------------------------------

  /** What priming a request list does, in order: each request's minimal
      count goes to the accumulator (if its type is tracked in dom), its
      `with` list is primed into its own user data, and that user data (each
      value read as unsigned int) goes to the accumulator as well. The
      requests come back with their user data filled in. */
  function PrimedRequests(sdau: map<Subsystem, set<string>>, dom: Subsystem, rs: seq<Resource>,
                          acc: map<string, int>): (seq<Resource>, map<string, int>)
    decreases rs
  {
    if |rs| == 0 then ([], acc)
    else
      var r := rs[0];
      assert r in rs;
      var acc1 := AccumIf(sdau, dom, r.rtype, r.count.min, acc).1;
      var (w, ud) := PrimedRequests(sdau, dom, r.with, r.userData);
      var (rest, acc2) := PrimedRequests(sdau, dom, rs[1..], AccumAll(sdau, dom, acc1, ud));
      ([r.(with := w, userData := ud)] + rest, acc2)
  }

  /** Priming the requests from i on primes rs[i] first and then the rest,
      with rs[i]'s own count and its primed user data accumulated. */
  lemma PrimedStep(sdau: map<Subsystem, set<string>>, dom: Subsystem, rs: seq<Resource>, i: nat,
                   acc: map<string, int>, w: seq<Resource>, ud: map<string, int>)
    requires i < |rs| && (w, ud) == PrimedRequests(sdau, dom, rs[i].with, rs[i].userData)
    ensures var next := PrimedRequests(sdau, dom, rs[i + 1..],
                                       AccumAll(sdau, dom, AccumIf(sdau, dom, rs[i].rtype, rs[i].count.min, acc).1, ud));
      PrimedRequests(sdau, dom, rs[i..], acc) == ([rs[i].(with := w, userData := ud)] + next.0, next.1)
  {
    assert rs[i..][0] == rs[i] && rs[i..][1..] == rs[i + 1..];
  }

  /** The minimal counts a request forest asks of type t, summed over every
      request of that type at any depth. */
  function TotalMin(rs: seq<Resource>, t: string): nat
    decreases rs
  {
    if |rs| == 0 then 0
    else
      assert rs[0] in rs;
      (if rs[0].rtype == t then rs[0].count.min else 0) + TotalMin(rs[0].with, t) + TotalMin(rs[1..], t)
  }

  /** No request of the forest carries user data yet (as parsed). */
  predicate NoUserData(rs: seq<Resource>)
    decreases rs
  {
    |rs| == 0 || (assert rs[0] in rs; rs[0].userData == map[] && NoUserData(rs[0].with) && NoUserData(rs[1..]))
  }

  /** The request fields other than `with` and the user data. */
  function Bare(r: Resource): Resource
  {
    r.(with := [], userData := map[])
  }

  /** Two forests of the same shape: the same requests, position by
      position and at every depth, up to their user data. */
  predicate SameShape(a: seq<Resource>, b: seq<Resource>)
    decreases a
  {
    |a| == |b|
    && (|a| == 0 || (assert a[0] in a;
                     Bare(a[0]) == Bare(b[0]) && SameShape(a[0].with, b[0].with) && SameShape(a[1..], b[1..])))
  }

  /** Every request's user data holds, for each tracked type, the minimal
      total its `with` forest asks of that type, and nothing else. */
  ghost predicate UserDataIsTotals(sdau: map<Subsystem, set<string>>, dom: Subsystem, rs: seq<Resource>)
    decreases rs
  {
    |rs| == 0
    || (assert rs[0] in rs;
        (forall t :: Get(rs[0].userData, t) == (if t in Tracked(sdau, dom) then TotalMin(rs[0].with, t) else 0))
        && UserDataIsTotals(sdau, dom, rs[0].with) && UserDataIsTotals(sdau, dom, rs[1..]))
  }

  /** What AccumAll leaves for one type. */
  lemma AccumAllGet(sdau: map<Subsystem, set<string>>, s: Subsystem, acc: map<string, int>,
                    m: map<string, int>, t: string)
    ensures Get(AccumAll(sdau, s, acc, m), t)
            == Get(acc, t) + (if t in m && t in Tracked(sdau, s) then ToUint32(m[t]) else 0)
  {
  }

  /** Priming changes no request, only user data. */
  lemma {:induction false} PrimedKeepsShape(sdau: map<Subsystem, set<string>>, dom: Subsystem,
                                            rs: seq<Resource>, acc: map<string, int>)
    ensures SameShape(rs, PrimedRequests(sdau, dom, rs, acc).0)
    decreases rs
  {
    if |rs| > 0 {
      var r := rs[0];
      assert r in rs;
      var acc1 := AccumIf(sdau, dom, r.rtype, r.count.min, acc).1;
      var (w, ud) := PrimedRequests(sdau, dom, r.with, r.userData);
      PrimedKeepsShape(sdau, dom, r.with, r.userData);
      PrimedKeepsShape(sdau, dom, rs[1..], AccumAll(sdau, dom, acc1, ud));
      var out := PrimedRequests(sdau, dom, rs, acc).0;
      assert out[0] == r.(with := w, userData := ud);
      assert out[1..] == PrimedRequests(sdau, dom, rs[1..], AccumAll(sdau, dom, acc1, ud)).0;
    }
  }

  /** Priming brings no untracked type into the accumulator, and drops no
      entry of it. */
  lemma {:induction false} PrimedKeepsTracked(sdau: map<Subsystem, set<string>>, dom: Subsystem,
                                              rs: seq<Resource>, acc: map<string, int>)
    ensures acc.Keys <= PrimedRequests(sdau, dom, rs, acc).1.Keys
    ensures KeysTracked(acc, sdau, dom) ==> KeysTracked(PrimedRequests(sdau, dom, rs, acc).1, sdau, dom)
    decreases rs
  {
    if |rs| > 0 {
      var r := rs[0];
      assert r in rs;
      var acc1 := AccumIf(sdau, dom, r.rtype, r.count.min, acc).1;
      var (w, ud) := PrimedRequests(sdau, dom, r.with, r.userData);
      PrimedKeepsTracked(sdau, dom, rs[1..], AccumAll(sdau, dom, acc1, ud));
      if KeysTracked(acc, sdau, dom) {
        AccumKeepsTracked(sdau, dom, acc, r.rtype, r.count.min, map[]);
        AccumKeepsTracked(sdau, dom, acc1, "", 0, ud);
      }
    }
  }

  /** One request's share of the accumulator: its minimal count, then its
      user data, which holds the totals of its `with` forest. */
  lemma HeadAccumulates(sdau: map<Subsystem, set<string>>, dom: Subsystem, acc: map<string, int>,
                        r: Resource, ud: map<string, int>)
    requires forall t :: Get(ud, t) == (if t in Tracked(sdau, dom) then TotalMin(r.with, t) else 0)
    requires forall t :: t in Tracked(sdau, dom) ==> TotalMin(r.with, t) < UINT_LIMIT
    ensures var acc2 := AccumAll(sdau, dom, AccumIf(sdau, dom, r.rtype, r.count.min, acc).1, ud);
      forall t :: Get(acc2, t) == Get(acc, t) + (if t in Tracked(sdau, dom) then
                                                   (if r.rtype == t then r.count.min else 0) + TotalMin(r.with, t)
                                                 else 0)
  {
    var acc1 := AccumIf(sdau, dom, r.rtype, r.count.min, acc).1;
    AccumIfEffect(sdau, dom, r.rtype, r.count.min, acc);
    forall t
      ensures Get(AccumAll(sdau, dom, acc1, ud), t)
              == Get(acc, t) + (if t in Tracked(sdau, dom) then
                                  (if r.rtype == t then r.count.min else 0) + TotalMin(r.with, t)
                                else 0)
    {
      AccumAllGet(sdau, dom, acc1, ud, t);
      if t in Tracked(sdau, dom) && t in ud {
        assert ud[t] == TotalMin(r.with, t);
      }
    }
  }

  /** The tracked totals of a forest bound those of its first request's
      `with` forest and of its tail. */
  lemma TotalsBoundParts(sdau: map<Subsystem, set<string>>, dom: Subsystem, rs: seq<Resource>)
    requires |rs| > 0
    requires forall t :: t in Tracked(sdau, dom) ==> TotalMin(rs, t) < UINT_LIMIT
    ensures forall t :: t in Tracked(sdau, dom) ==> TotalMin(rs[0].with, t) < UINT_LIMIT
    ensures forall t :: t in Tracked(sdau, dom) ==> TotalMin(rs[1..], t) < UINT_LIMIT
  {
    forall t | t in Tracked(sdau, dom)
      ensures TotalMin(rs[0].with, t) < UINT_LIMIT && TotalMin(rs[1..], t) < UINT_LIMIT
    {
      assert TotalMin(rs, t) >= TotalMin(rs[0].with, t) + TotalMin(rs[1..], t);
    }
  }

  /** On a freshly parsed forest whose tracked totals fit an unsigned int,
      priming adds to the accumulator exactly the minimal total asked of
      each tracked type, and nothing of an untracked one. */
  lemma {:induction false} PrimedAccumulates(sdau: map<Subsystem, set<string>>, dom: Subsystem,
                                             rs: seq<Resource>, acc: map<string, int>)
    requires NoUserData(rs)
    requires forall t :: t in Tracked(sdau, dom) ==> TotalMin(rs, t) < UINT_LIMIT
    ensures forall t :: Get(PrimedRequests(sdau, dom, rs, acc).1, t)
                        == Get(acc, t) + (if t in Tracked(sdau, dom) then TotalMin(rs, t) else 0)
    decreases rs
  {
    if |rs| > 0 {
      var r := rs[0];
      assert r in rs;
      var acc1 := AccumIf(sdau, dom, r.rtype, r.count.min, acc).1;
      var (w, ud) := PrimedRequests(sdau, dom, r.with, r.userData);
      var acc2 := AccumAll(sdau, dom, acc1, ud);
      TotalsBoundParts(sdau, dom, rs);
      PrimedAccumulates(sdau, dom, r.with, map[]);
      PrimedAccumulates(sdau, dom, rs[1..], acc2);
      HeadAccumulates(sdau, dom, acc, r, ud);
    }
  }

  /** On such a forest, priming fills every request's user data with the
      tracked totals of its `with` forest. */
  lemma {:induction false} PrimedFillsUserData(sdau: map<Subsystem, set<string>>, dom: Subsystem,
                                               rs: seq<Resource>, acc: map<string, int>)
    requires NoUserData(rs)
    requires forall t :: t in Tracked(sdau, dom) ==> TotalMin(rs, t) < UINT_LIMIT
    ensures UserDataIsTotals(sdau, dom, PrimedRequests(sdau, dom, rs, acc).0)
    decreases rs
  {
    if |rs| > 0 {
      var r := rs[0];
      assert r in rs;
      var acc1 := AccumIf(sdau, dom, r.rtype, r.count.min, acc).1;
      var (w, ud) := PrimedRequests(sdau, dom, r.with, r.userData);
      var acc2 := AccumAll(sdau, dom, acc1, ud);
      TotalsBoundParts(sdau, dom, rs);
      PrimedAccumulates(sdau, dom, r.with, map[]);
      PrimedFillsUserData(sdau, dom, r.with, map[]);
      PrimedFillsUserData(sdau, dom, rs[1..], acc2);
      PrimedKeepsShape(sdau, dom, r.with, map[]);
      SameShapeTotals(r.with, w);
      var out := PrimedRequests(sdau, dom, rs, acc).0;
      assert out[0] == r.(with := w, userData := ud);
      assert out[1..] == PrimedRequests(sdau, dom, rs[1..], acc2).0;
    }
  }

  /** Forests of the same shape ask the same totals. */
  lemma {:induction false} SameShapeTotals(a: seq<Resource>, b: seq<Resource>)
    requires SameShape(a, b)
    ensures forall t :: TotalMin(a, t) == TotalMin(b, t)
    decreases a
  {
    if |a| > 0 {
      assert a[0] in a;
      assert Bare(a[0]) == Bare(b[0]);
      SameShapeTotals(a[0].with, b[0].with);
      SameShapeTotals(a[1..], b[1..]);
    }
  }

  // ---------------------------------------------------------------------
  // Recording the choice on the edges (`enforce`)
  // ---------------------------------------------------------------------

  /** An edge with one selected edge's decision written on it, under match
      generation gen. */
  function Mark(ed: Edge, x: EvalEdg, gen: nat): Edge
  {
    ed.(relation := ed.relation.(idata := ed.relation.idata.(needs := x.needs, bestKCnt := gen,
                                                              exclusive := if x.exclusive then 1 else 0)))
  }

  /** The edge list after writing the decisions of xs, in order. */
  function MarkAll(es: seq<Edge>, xs: seq<EvalEdg>, gen: nat): seq<Edge>
    decreases |xs|
  {
    if |xs| == 0 then es
    else
      var es1 := if 0 <= xs[0].edge < |es| then es[xs[0].edge := Mark(es[xs[0].edge], xs[0], gen)] else es;
      MarkAll(es1, xs[1..], gen)
  }

  /** The selected edges of a list of groups, root groups skipped, in
      order. */
  function GroupEdgs(gs: seq<EvalEgroup>): seq<EvalEdg>
    decreases |gs|
  {
    if |gs| == 0 then [] else (if gs[0].root then [] else gs[0].edges) + GroupEdgs(gs[1..])
  }

  /** The groups of (s, t) that enforce reaches: the first best_i, or all
      of them when best_i overruns the list. */
  function Reached(d: Scoring, s: Subsystem, t: string): seq<EvalEgroup>
  {
    var gs := Groups(d, s, t);
    if BestI(d, s, t) <= |gs| then gs[..BestI(d, s, t)] else gs
  }

  /** best_i names more groups than (s, t) has: `at` throws. */
  predicate Overruns(d: Scoring, s: Subsystem, t: string)
  {
    BestI(d, s, t) > |Groups(d, s, t)|
  }

  /** The selected edges enforce writes for the types ts, in order,
      through the first type whose best_i overruns. */
  function Written(d: Scoring, s: Subsystem, ts: seq<string>): seq<EvalEdg>
    decreases |ts|
  {
    if |ts| == 0 then []
    else GroupEdgs(Reached(d, s, ts[0])) + (if Overruns(d, s, ts[0]) then [] else Written(d, s, ts[1..]))
  }

  /** `enforce` for subsystem s: the new edge list, and -1 when an overrun
      stopped it. */
  function EnforceSpec(es: seq<Edge>, d: Scoring, s: Subsystem, gen: nat): (int, seq<Edge>)
  {
    var ts := ResrcTypes(d, s);
    (EnforceRc(d, s, ts), MarkAll(es, Written(d, s, ts), gen))
  }

  /** Where `enforce`'s loop over the types of s stands before type ti,
      started on edges es0: still running, what is left to write leads to
      the goal; stopped, the goal was reached and some type overran. */
  ghost predicate EnforceLoop(es0: seq<Edge>, es: seq<Edge>, d: Scoring, s: Subsystem, gen: nat, ti: nat, rc: int)
  {
    var ts := ResrcTypes(d, s);
    ti <= |ts| && |es| == |es0|
    && (rc == 0 ==> EnforceRc(d, s, ts[ti..]) == EnforceRc(d, s, ts)
                    && MarkAll(es, Written(d, s, ts[ti..]), gen) == MarkAll(es0, Written(d, s, ts), gen))
    && (rc != 0 ==> rc == -1 && EnforceRc(d, s, ts) == -1 && es == MarkAll(es0, Written(d, s, ts), gen))
  }

  lemma EnforceLoopStart(es0: seq<Edge>, d: Scoring, s: Subsystem, gen: nat)
    ensures EnforceLoop(es0, es0, d, s, gen, 0, 0)
  {
    var ts := ResrcTypes(d, s);
    assert ts[0..] == ts;
  }

  /** Type ti was enforced, with code rc1, taking the edges from es to es'. */
  lemma EnforceLoopStep(es0: seq<Edge>, es: seq<Edge>, es': seq<Edge>, d: Scoring, s: Subsystem, gen: nat,
                        ti: nat, rc1: int)
    requires EnforceLoop(es0, es, d, s, gen, ti, 0) && ti < |ResrcTypes(d, s)| && |es'| == |es|
    requires var ts := ResrcTypes(d, s);
      EnforceRc(d, s, ts[ti..]) == (if rc1 != 0 then -1 else EnforceRc(d, s, ts[ti + 1..]))
      && MarkAll(es', if rc1 != 0 then [] else Written(d, s, ts[ti + 1..]), gen) == MarkAll(es, Written(d, s, ts[ti..]), gen)
    ensures EnforceLoop(es0, es', d, s, gen, ti + 1, if rc1 != 0 then -1 else 0)
  {
  }

  lemma EnforceLoopDone(es0: seq<Edge>, es: seq<Edge>, d: Scoring, s: Subsystem, gen: nat, ti: nat, rc: int)
    requires EnforceLoop(es0, es, d, s, gen, ti, rc) && (ti == |ResrcTypes(d, s)| || rc != 0)
    ensures (rc, es) == EnforceSpec(es0, d, s, gen)
  {
    var ts := ResrcTypes(d, s);
    if rc == 0 {
      assert ts[ti..] == [];
    }
  }

  /** -1 when some type of ts overruns, 0 otherwise. */
  function EnforceRc(d: Scoring, s: Subsystem, ts: seq<string>): int
    decreases |ts|
  {
    if |ts| == 0 then 0 else if Overruns(d, s, ts[0]) then -1 else EnforceRc(d, s, ts[1..])
  }

  /** enforce fails exactly when best_i overruns the groups of some type:
      in a well-formed aggregator it never does. */
  lemma {:induction false} EnforceRcIff(d: Scoring, s: Subsystem, ts: seq<string>)
    ensures EnforceRc(d, s, ts) == -1 <==> exists i :: 0 <= i < |ts| && Overruns(d, s, ts[i])
    ensures EnforceRc(d, s, ts) == 0 || EnforceRc(d, s, ts) == -1
    ensures Wf(d) ==> EnforceRc(d, s, ts) == 0
    decreases |ts|
  {
    if |ts| > 0 {
      EnforceRcIff(d, s, ts[1..]);
      assert forall i :: 0 < i < |ts| ==> ts[i] == ts[1..][i - 1];
      if Wf(d) {
        WfNoOverrun(d, s, ts[0]);
      }
    }
  }

  /** best_i of a well-formed aggregator never overruns. */
  lemma WfNoOverrun(d: Scoring, s: Subsystem, t: string)
    requires Wf(d)
    ensures !Overruns(d, s, t)
  {
    if (s, t) in d.chosen {
      assert d.chosen[(s, t)] <= |Groups(d, (s, t).0, (s, t).1)|;
    }
  }

  /** Some selected edge of xs refers to edge e. */
  predicate RefersTo(xs: seq<EvalEdg>, e: nat)
  {
    exists j :: 0 <= j < |xs| && xs[j].edge == e
  }

  lemma {:induction false} MarkAllAppend(es: seq<Edge>, a: seq<EvalEdg>, b: seq<EvalEdg>, gen: nat)
    ensures MarkAll(es, a + b, gen) == MarkAll(MarkAll(es, a, gen), b, gen)
    decreases |a|
  {
    if |a| > 0 {
      assert (a + b)[1..] == a[1..] + b;
      var es1 := if 0 <= a[0].edge < |es| then es[a[0].edge := Mark(es[a[0].edge], a[0], gen)] else es;
      MarkAllAppend(es1, a[1..], b, gen);
    } else {
      assert a + b == b;
    }
  }

  /** Writing decisions changes no edge's ends or membership; an edge no
      selected edge refers to is left as it was; an edge one refers to
      carries the generation and the needs and exclusivity of one of the
      selected edges that refer to it (the last). */
  lemma {:induction false} MarkAllEffect(es: seq<Edge>, xs: seq<EvalEdg>, gen: nat)
    ensures Reweighted(es, MarkAll(es, xs, gen))
    ensures forall e :: 0 <= e < |es| && !RefersTo(xs, e) ==> MarkAll(es, xs, gen)[e] == es[e]
    ensures forall e :: 0 <= e < |es| && RefersTo(xs, e) ==>
              MarkAll(es, xs, gen)[e].relation.idata.bestKCnt == gen
              && exists j :: 0 <= j < |xs| && xs[j].edge == e
                   && MarkAll(es, xs, gen)[e] == Mark(es[e], xs[j], gen)
    decreases |xs|
  {
    if |xs| > 0 {
      var es1 := if 0 <= xs[0].edge < |es| then es[xs[0].edge := Mark(es[xs[0].edge], xs[0], gen)] else es;
      MarkAllEffect(es1, xs[1..], gen);
      var r := MarkAll(es, xs, gen);
      assert r == MarkAll(es1, xs[1..], gen);
      forall e | 0 <= e < |es| && RefersTo(xs, e)
        ensures r[e].relation.idata.bestKCnt == gen
        ensures exists j :: 0 <= j < |xs| && xs[j].edge == e && r[e] == Mark(es[e], xs[j], gen)
      {
        if RefersTo(xs[1..], e) {
          var j :| 0 <= j < |xs[1..]| && xs[1..][j].edge == e && r[e] == Mark(es1[e], xs[1..][j], gen);
          assert xs[j + 1] == xs[1..][j];
          assert Mark(es1[e], xs[j + 1], gen) == Mark(es[e], xs[j + 1], gen);
        } else {
          assert xs[0].edge == e;
          assert r[e] == es1[e];
        }
      }
      forall e | 0 <= e < |es| && !RefersTo(xs, e)
        ensures r[e] == es[e]
      {
        assert xs[0].edge != e;
        forall j | 0 <= j < |xs[1..]|
          ensures xs[1..][j].edge != e
        {
          assert xs[1..][j] == xs[j + 1];
        }
      }
    }
  }

  /** The written list for the types from index i on, split off its first
      type. */
  lemma WrittenStep(d: Scoring, s: Subsystem, ts: seq<string>, i: nat)
    requires i < |ts|
    ensures Written(d, s, ts[i..]) == GroupEdgs(Reached(d, s, ts[i]))
              + (if Overruns(d, s, ts[i]) then [] else Written(d, s, ts[i + 1..]))
  {
    assert ts[i..][0] == ts[i] && ts[i..][1..] == ts[i + 1..];
  }

  /** The selected edges of the groups from index i on, split off group i. */
  lemma GroupEdgsStep(gs: seq<EvalEgroup>, i: nat)
    requires i < |gs|
    ensures GroupEdgs(gs[i..]) == (if gs[i].root then [] else gs[i].edges) + GroupEdgs(gs[i + 1..])
  {
    assert gs[i..][0] == gs[i] && gs[i..][1..] == gs[i + 1..];
  }

  /** enforce either runs through every type or stops at the first that
      overruns, having written what it reached. */
  lemma {:induction false} WrittenStops(d: Scoring, s: Subsystem, ts: seq<string>, i: nat)
    requires i < |ts| && Overruns(d, s, ts[i])
    requires forall k :: 0 <= k < i ==> !Overruns(d, s, ts[k])
    ensures Written(d, s, ts) == Written(d, s, ts[..i + 1])
    decreases i
  {
    if i > 0 {
      WrittenStops(d, s, ts[1..], i - 1);
      assert ts[1..][..i] == ts[..i + 1][1..];
    }
  }

  // ---------------------------------------------------------------------
  // The matching walk, as values
  // ---------------------------------------------------------------------

  /** What a step of the matching walk may do to the graph: paint vertices
      and record decisions on edges, leaving no more pairs unvisited than
      before; the planners are untouched. */
  ghost predicate MatchStep(vs0: seq<ResourcePool>, es0: seq<Edge>, ps0: seq<Planner>,
                            vs: seq<ResourcePool>, es: seq<Edge>, ps: seq<Planner>,
                            subs: seq<Subsystem>, b: nat, gen: nat)
  {
    Recolored(vs0, vs) && MarkedWith(es0, es, gen) && ps == ps0
    && Unvisited(vs, subs, b) <= Unvisited(vs0, subs, b)
  }

  /** The edges differ in recorded decisions only, and every edge that
      changed carries generation gen. */
  ghost predicate MarkedWith(es0: seq<Edge>, es: seq<Edge>, gen: nat)
  {
    Reweighted(es0, es)
    && forall e :: 0 <= e < |es| && es[e] != es0[e] ==> es[e].relation.idata.bestKCnt == gen
  }

  /** A step that changes nothing is a step. */
  lemma MatchStepRefl(vs: seq<ResourcePool>, es: seq<Edge>, ps: seq<Planner>, subs: seq<Subsystem>, b: nat, gen: nat)
    ensures MatchStep(vs, es, ps, vs, es, ps, subs, b, gen)
  {
  }

  lemma MatchStepTrans(vs0: seq<ResourcePool>, es0: seq<Edge>, ps0: seq<Planner>,
                       vs1: seq<ResourcePool>, es1: seq<Edge>, ps1: seq<Planner>,
                       vs: seq<ResourcePool>, es: seq<Edge>, ps: seq<Planner>,
                       subs: seq<Subsystem>, b: nat, gen: nat)
    requires MatchStep(vs0, es0, ps0, vs1, es1, ps1, subs, b, gen)
    requires MatchStep(vs1, es1, ps1, vs, es, ps, subs, b, gen)
    ensures MatchStep(vs0, es0, ps0, vs, es, ps, subs, b, gen)
  {
    RecoloredTrans(vs0, vs1, vs);
    MarkedWithTrans(es0, es1, es, gen);
  }

  lemma MarkedWithTrans(a: seq<Edge>, b: seq<Edge>, c: seq<Edge>, gen: nat)
    requires MarkedWith(a, b, gen) && MarkedWith(b, c, gen)
    ensures MarkedWith(a, c, gen)
  {
    ReweightedTrans(a, b, c);
  }

  /** Writing decisions under generation gen marks with gen. */
  lemma MarkAllMarks(es: seq<Edge>, xs: seq<EvalEdg>, gen: nat)
    ensures MarkedWith(es, MarkAll(es, xs, gen), gen)
  {
    MarkAllEffect(es, xs, gen);
  }

  /** Recolouring keeps everything pruning looks at. */
  lemma RecoloredKeeps(a: seq<ResourcePool>, b: seq<ResourcePool>, u: nat)
    requires Recolored(a, b) && u < |a|
    ensures a[u].rtype == b[u].rtype && a[u].schedule == b[u].schedule
    ensures a[u].idata.subplans == b[u].idata.subplans
  {
    assert Uncolored(a[u]) == Uncolored(b[u]);
  }

  /** An edge the walk may descend now could be descended at any earlier
      point of it. */
  lemma EligibleEarlier(vs0: seq<ResourcePool>, es0: seq<Edge>, vs: seq<ResourcePool>, es: seq<Edge>,
                        e: nat, s: Subsystem, subs: seq<Subsystem>, b: nat)
    requires Recolored(vs0, vs) && Reweighted(es0, es) && s in subs
    requires Unvisited(vs, subs, b) <= Unvisited(vs0, subs, b)
    requires Eligible(vs, es, e, s, b)
    ensures Eligible(vs0, es0, e, s, b) && es0[e].src == es[e].src
  {
    assert Shape(es0[e]) == Shape(es[e]);
    assert (es[e].tgt, s) in Unvisited(vs, subs, b);
  }

  /** A vertex with nothing left to descend keeps having nothing. */
  lemma NoEligibleStays(vs0: seq<ResourcePool>, es0: seq<Edge>, vs: seq<ResourcePool>, es: seq<Edge>,
                        u: nat, s: Subsystem, subs: seq<Subsystem>, b: nat)
    requires Recolored(vs0, vs) && Reweighted(es0, es) && s in subs
    requires Unvisited(vs, subs, b) <= Unvisited(vs0, subs, b)
    requires !HasEligible(vs0, es0, u, s, b)
    ensures !HasEligible(vs, es, u, s, b)
  {
    if HasEligible(vs, es, u, s, b) {
      var e :| 0 <= e < |es| && es[e].src == u && Eligible(vs, es, e, s, b);
      EligibleEarlier(vs0, es0, vs, es, e, s, subs, b);
    }
  }

  /** d' holds each of d's group lists as a prefix: evaluations are only
      ever appended. */
  ghost predicate Extended(d: Scoring, d': Scoring)
  {
    forall s, t {:trigger Groups(d', s, t)} :: |Groups(d, s, t)| <= |Groups(d', s, t)|
                   && Groups(d', s, t)[..|Groups(d, s, t)|] == Groups(d, s, t)
  }

  /** Something was recorded under subsystem s. */
  ghost predicate Grew(d: Scoring, d': Scoring, s: Subsystem)
  {
    exists t :: |Groups(d, s, t)| < |Groups(d', s, t)|
  }

  lemma ExtendedTrans(a: Scoring, b: Scoring, c: Scoring)
    requires Extended(a, b) && Extended(b, c)
    ensures Extended(a, c)
    ensures forall s :: Grew(a, b, s) ==> Grew(a, c, s)
    ensures forall s :: Grew(b, c, s) ==> Grew(a, c, s)
  {
    forall s, t
      ensures |Groups(a, s, t)| <= |Groups(c, s, t)| && Groups(c, s, t)[..|Groups(a, s, t)|] == Groups(a, s, t)
    {
      var ga, gb, gc := Groups(a, s, t), Groups(b, s, t), Groups(c, s, t);
      assert gc[..|ga|] == gc[..|gb|][..|ga|];
    }
  }

  /** Adding extends and grows the added pair by one group; setting a
      scalar keeps every list. */
  lemma ExtendedByAdd(d: Scoring, s: Subsystem, t: string, g: EvalEgroup)
    ensures Extended(d, Add(d, s, t, g)) && Grew(d, Add(d, s, t, g), s)
    ensures Groups(Add(d, s, t, g), s, t) == Groups(d, s, t) + [g]
    ensures forall a :: Extended(Add(d, s, t, g), a) ==> Grew(d, a, s)
  {
    AddAppends(d, s, t, g);
    var d' := Add(d, s, t, g);
    forall s', t'
      ensures Groups(d', s', t')[..|Groups(d, s', t')|] == Groups(d, s', t')
    {
      assert Groups(d', s', t') == Groups(d, s', t') + (if (s', t') == (s, t) then [g] else []);
    }
    assert |Groups(d, s, t)| < |Groups(d', s, t)|;
    forall a | Extended(d', a)
      ensures Grew(d, a, s)
    {
      assert |Groups(d, s, t)| < |Groups(a, s, t)|;
    }
  }

  lemma ExtendedByMerge(d: Scoring, o: Scoring)
    ensures Extended(d, Merge(d, o))
  {
    MergeAppends(d, o);
    forall s, t
      ensures Groups(Merge(d, o), s, t)[..|Groups(d, s, t)|] == Groups(d, s, t)
    {
      assert Groups(Merge(d, o), s, t) == Groups(d, s, t) + Groups(o, s, t);
    }
  }

  /** Where `explore`'s loop stands: the aggregator only grew, it grew
      under s if some child succeeded, u stopped being a leaf only by a
      dominant descent, and with nothing to descend (idle) nothing
      happened. */
  ghost predicate Explored(d0: Scoring, leaf0: bool, dom: bool, s: Subsystem, idle: bool,
                           rc: int, leaf: bool, d: Scoring)
  {
    (rc == 0 || rc == -1) && Extended(d0, d) && (rc == 0 ==> Grew(d0, d, s))
    && (leaf ==> leaf0) && (!dom ==> leaf == leaf0)
    && (idle ==> rc == -1 && leaf == leaf0 && d == d0)
  }

  lemma ExploredStart(d: Scoring, leaf: bool, dom: bool, s: Subsystem, idle: bool)
    ensures Explored(d, leaf, dom, s, idle, -1, leaf, d)
  {
  }

  /** A descent that leaves the aggregator extended keeps the loop's
      standing, and adding the child's singleton makes it a success. */
  lemma ExploredChild(d0: Scoring, leaf0: bool, dom: bool, s: Subsystem, rc: int, leaf: bool, d1: Scoring,
                      leaf': bool, d2: Scoring, t: string, g: EvalEgroup)
    requires Explored(d0, leaf0, dom, s, false, rc, leaf, d1) && Extended(d1, d2)
    requires leaf' == (if dom then false else leaf)
    ensures Explored(d0, leaf0, dom, s, false, rc, leaf', d2)
    ensures Explored(d0, leaf0, dom, s, false, 0, leaf', Add(d2, s, t, g))
  {
    ExtendedTrans(d0, d1, d2);
    ExtendedByAdd(d2, s, t, g);
    ExtendedTrans(d0, d2, Add(d2, s, t, g));
  }

  /** Where `dom_exp`'s loop stands after i subsystems: the aggregator
      only grew, it grew under the last subsystem explored if that
      succeeded, and u stays a leaf only if it was one. */
  ghost predicate ExpSoFar(d0: Scoring, leaf0: bool, subs: seq<Subsystem>, i: nat, rc: int, leaf: bool, d: Scoring)
  {
    i <= |subs| && (rc == 0 || rc == -1) && Extended(d0, d)
    && (i > 0 && rc == 0 ==> Grew(d0, d, subs[i - 1])) && (leaf ==> leaf0)
  }

  lemma ExpSoFarStep(d0: Scoring, leaf0: bool, subs: seq<Subsystem>, i: nat, rc: int, leaf: bool, d: Scoring,
                     rc': int, leaf': bool, d': Scoring)
    requires ExpSoFar(d0, leaf0, subs, i, rc, leaf, d) && i < |subs| && Extended(d, d')
    requires (rc' == 0 || rc' == -1) && (rc' == 0 ==> Grew(d, d', subs[i])) && (leaf' ==> leaf)
    ensures ExpSoFar(d0, leaf0, subs, i + 1, rc', leaf', d')
  {
    ExtendedTrans(d0, d, d');
  }

  // What the select walk computes: descents and the aggregators they build

  /** `resolve` of a vertex's aggregator dfu, as it bears on the parent's
      aggregator: merged into it when dfu's score is positive and no
      hierarchical constraint holds; kept as it was otherwise (the choice is
      enforced on the spot, or the vertex does not qualify). */
  function Resolved(toParent: Scoring, dfu: Scoring): Scoring
  {
    if dfu.overallScore > 0 && !dfu.hierConstrainNow then Merge(toParent, dfu) else toParent
  }

  /** What `dom_dfv` of a vertex leaves in its parent's aggregator: the
      vertex's own scored aggregator resolved into it, then the vertex's
      avail (as uint64) and its score. */
  function DfvInto(toParent: Scoring, own: Scoring, avail: int): Scoring
  {
    SetOverallScore(SetAvail(Resolved(toParent, own), ToUint64(avail)), own.overallScore)
  }

  /** One descent of a walk loop: the edge taken, the type of its target,
      whether the child succeeded, the exclusivity it handed back, the
      child's own aggregator as its post-order hook scored it, and the
      child's own avail. */
  datatype Descent = Descent(edge: nat, rtype: string, ok: bool, x: bool, own: Scoring, avail: int)

  /** What a descent leaves in u's aggregator d: nothing when the child
      failed; otherwise the child's aggregator resolved into d, as
      `dom_dfv` does downward (with the child's avail and score) or
      `aux_upv` does upward. */
  function Yield(d: Scoring, dir: Direction, ok: bool, own: Scoring, avail: int): Scoring
  {
    if !ok then d else if dir == Dfv then DfvInto(d, own, avail) else Resolved(d, own)
  }

  /** `explore`'s singleton group for a child that succeeded, from what the
      child left in the aggregator d: d's overall score, d's avail (as
      unsigned int) as its count and its one edge's count and needs, and
      the child's exclusivity. */
  function Singleton(d: Scoring, x: bool, e: nat): EvalEgroup
  {
    var count := ToUint32(d.avail);
    EvalEgroup(d.overallScore, count, x, false, [EvalEdg(count, count, x, e)])
  }

  /** The aggregator `explore` builds from d over the descents cs in s:
      each descent's yield, followed, for a child that succeeded, by its
      singleton under (s, the child's type). */
  function ExploreFold(d: Scoring, s: Subsystem, dir: Direction, cs: seq<Descent>): Scoring
    decreases |cs|
  {
    if |cs| == 0 then d
    else
      var c := cs[|cs| - 1];
      var y := Yield(ExploreFold(d, s, dir, cs[..|cs| - 1]), dir, c.ok, c.own, c.avail);
      if c.ok then Add(y, s, c.rtype, Singleton(y, c.x, c.edge)) else y
  }

  /** The aggregator `aux_upv`'s child loop builds from d: each descent's
      yield, with no singletons. */
  function UpFold(d: Scoring, cs: seq<Descent>): Scoring
    decreases |cs|
  {
    if |cs| == 0 then d
    else
      var c := cs[|cs| - 1];
      Yield(UpFold(d, cs[..|cs| - 1]), Upv, c.ok, c.own, c.avail)
  }

  /** `dom_exp`'s aggregator: `explore` of every subsystem in turn from d,
      downward in dom and upward in the others, over css[i] in subs[i]. */
  function ExpFold(d: Scoring, subs: seq<Subsystem>, dom: Subsystem, css: seq<seq<Descent>>): Scoring
    requires |css| == |subs|
    decreases |subs|
  {
    if |subs| == 0 then d
    else
      var k := |subs| - 1;
      ExploreFold(ExpFold(d, subs[..k], dom, css[..k]), subs[k], if subs[k] == dom then Dfv else Upv, css[k])
  }

  predicate AnyOk(cs: seq<Descent>)
  {
    exists i :: 0 <= i < |cs| && cs[i].ok
  }

  predicate AllOk(cs: seq<Descent>)
  {
    forall i :: 0 <= i < |cs| ==> cs[i].ok
  }

  function DescentEdges(cs: seq<Descent>): seq<nat>
    decreases |cs|
  {
    if |cs| == 0 then [] else DescentEdges(cs[..|cs| - 1]) + [cs[|cs| - 1].edge]
  }

  /** The descents are of out-edges of u eligible for s in (vs, es), in
      increasing edge order, each labelled with its target's type. */
  ghost predicate Descents(vs: seq<ResourcePool>, es: seq<Edge>, u: nat, s: Subsystem, b: nat, cs: seq<Descent>)
  {
    (forall i :: 0 <= i < |cs| ==>
       cs[i].edge < |es| && es[cs[i].edge].src == u && Eligible(vs, es, cs[i].edge, s, b)
       && cs[i].rtype == vs[es[cs[i].edge].tgt].rtype)
    && (forall i, j :: 0 <= i < j < |cs| ==> cs[i].edge < cs[j].edge)
  }

  /** Every out-edge of u below k that is still eligible for s in (vs, es)
      was descended. */
  ghost predicate CoveredBelow(vs: seq<ResourcePool>, es: seq<Edge>, u: nat, s: Subsystem, b: nat,
                               cs: seq<Descent>, k: nat)
  {
    forall e :: 0 <= e < k && e < |es| && es[e].src == u && Eligible(vs, es, e, s, b) ==> e in DescentEdges(cs)
  }

  /** Where `explore`'s loop stands in terms of its descents cs: the
      aggregator is their fold, the code is 0 exactly when some child
      succeeded, and u stopped being a leaf exactly by a dominant
      descent. */
  ghost predicate ExploreAt(d0: Scoring, leaf0: bool, dom: bool, s: Subsystem, dir: Direction, cs: seq<Descent>,
                            rc: int, leaf: bool, d: Scoring)
  {
    d == ExploreFold(d0, s, dir, cs) && rc == (if AnyOk(cs) then 0 else -1)
    && leaf == (leaf0 && !(dom && |cs| > 0))
  }

  /** Where `explore`'s loop stands before out-edge e, started on
      (vs0, es0, ps0) with aggregator d0 and leaf flag leaf0: the graph only
      moved on by match steps, and not at all when u had no eligible edge
      (idle); the descents cs are of eligible edges below e, cover every
      such edge, and their fold is the aggregator. */
  ghost predicate ExploreLoop(vs0: seq<ResourcePool>, es0: seq<Edge>, ps0: seq<Planner>,
                              vs: seq<ResourcePool>, es: seq<Edge>, ps: seq<Planner>,
                              u: nat, s: Subsystem, subs: seq<Subsystem>, b: nat, gen: nat, e: nat,
                              d0: Scoring, leaf0: bool, dom: bool, dir: Direction, idle: bool,
                              rc: int, leaf: bool, d: Scoring, cs: seq<Descent>)
  {
    e <= |es| == |es0| && u < |vs|
    && idle == !HasEligible(vs0, es0, u, s, b)
    && MatchStep(vs0, es0, ps0, vs, es, ps, subs, b, gen)
    && AllEdgesBelow(d, |es|)
    && Explored(d0, leaf0, dom, s, idle, rc, leaf, d)
    && (idle ==> vs == vs0 && es == es0)
    && Descents(vs0, es0, u, s, b, cs) && (forall i :: 0 <= i < |cs| ==> cs[i].edge < e)
    && CoveredBelow(vs, es, u, s, b, cs, e)
    && ExploreAt(d0, leaf0, dom, s, dir, cs, rc, leaf, d)
  }

  lemma ExploreLoopStart(vs: seq<ResourcePool>, es: seq<Edge>, ps: seq<Planner>, u: nat, s: Subsystem,
                         subs: seq<Subsystem>, b: nat, gen: nat, d: Scoring, leaf: bool, dom: bool, dir: Direction)
    requires u < |vs| && AllEdgesBelow(d, |es|)
    ensures ExploreLoop(vs, es, ps, vs, es, ps, u, s, subs, b, gen, 0, d, leaf, dom, dir,
                        !HasEligible(vs, es, u, s, b), -1, leaf, d, [])
  {
    ExploredStart(d, leaf, dom, s, !HasEligible(vs, es, u, s, b));
    ExploreAtStart(d, leaf, dom, s, dir);
  }

  /** `explore`'s loop has gone through every edge: what it computed. */
  lemma ExploreLoopDone(vs0: seq<ResourcePool>, es0: seq<Edge>, ps0: seq<Planner>,
                        vs: seq<ResourcePool>, es: seq<Edge>, ps: seq<Planner>,
                        u: nat, s: Subsystem, subs: seq<Subsystem>, b: nat, gen: nat, e: nat,
                        d0: Scoring, leaf0: bool, dom: bool, dir: Direction, idle: bool,
                        rc: int, leaf: bool, d: Scoring, cs: seq<Descent>)
    requires ExploreLoop(vs0, es0, ps0, vs, es, ps, u, s, subs, b, gen, e, d0, leaf0, dom, dir, idle, rc, leaf, d, cs)
    requires e == |es|
    ensures ExploreEnd(vs0, es0, ps0, vs, es, ps, u, s, subs, b, gen, d0, leaf0, dom, dir, rc, leaf, d, cs)
  {
  }

  /** What `explore` computed at u in subsystem s from aggregator d0 and
      leaf flag leaf0, the graph going from (vs0, es0, ps0) to (vs, es, ps)
      by a match step: cs are the descents of u's eligible edges, in
      order, and `ExploreAt` gives the aggregator, code and leaf flag from
      them; on success the aggregator grew in s, and a vertex with no
      eligible edge changes nothing. */
  ghost predicate ExploreEnd(vs0: seq<ResourcePool>, es0: seq<Edge>, ps0: seq<Planner>,
                             vs: seq<ResourcePool>, es: seq<Edge>, ps: seq<Planner>,
                             u: nat, s: Subsystem, subs: seq<Subsystem>, b: nat, gen: nat,
                             d0: Scoring, leaf0: bool, dom: bool, dir: Direction,
                             rc: int, leaf: bool, d: Scoring, cs: seq<Descent>)
  {
    MatchStep(vs0, es0, ps0, vs, es, ps, subs, b, gen)
    && AllEdgesBelow(d, |es|) && Extended(d0, d)
    && (rc == 0 ==> Grew(d0, d, s))
    && Descents(vs0, es0, u, s, b, cs)
    && CoveredBelow(vs, es, u, s, b, cs, |es|)
    && ExploreAt(d0, leaf0, dom, s, dir, cs, rc, leaf, d)
    && (!HasEligible(vs0, es0, u, s, b) ==> rc == -1 && leaf == leaf0 && d == d0 && vs == vs0 && es == es0)
  }

  lemma DescentStep(cs: seq<Descent>, c: Descent)
    ensures (cs + [c])[..|cs|] == cs && (cs + [c])[|cs|] == c
    ensures AnyOk(cs + [c]) <==> AnyOk(cs) || c.ok
    ensures AllOk(cs + [c]) <==> AllOk(cs) && c.ok
    ensures DescentEdges(cs + [c]) == DescentEdges(cs) + [c.edge]
    ensures forall e :: e in DescentEdges(cs + [c]) <==> e in DescentEdges(cs) || e == c.edge
  {
    assert (cs + [c])[..|cs|] == cs;
    AnyOkStep(cs, c);
    AllOkStep(cs, c);
  }

  lemma AnyOkStep(cs: seq<Descent>, c: Descent)
    ensures AnyOk(cs + [c]) <==> AnyOk(cs) || c.ok
  {
    var cs' := cs + [c];
    if AnyOk(cs') && !c.ok {
      var i :| 0 <= i < |cs'| && cs'[i].ok;
      assert cs[i] == cs'[i];
    }
    if AnyOk(cs) {
      var i :| 0 <= i < |cs| && cs[i].ok;
      assert cs'[i] == cs[i];
    }
    if c.ok {
      assert cs'[|cs|] == c;
    }
  }

  lemma AllOkStep(cs: seq<Descent>, c: Descent)
    ensures AllOk(cs + [c]) <==> AllOk(cs) && c.ok
  {
    var cs' := cs + [c];
    if AllOk(cs') {
      assert cs'[|cs|] == c;
      forall i | 0 <= i < |cs|
        ensures cs[i].ok
      {
        assert cs'[i] == cs[i];
      }
    }
  }

  /** One more descent, of an edge past all earlier ones that is eligible
      in (vs, es), extends the descents. */
  lemma DescentsAppend(vs: seq<ResourcePool>, es: seq<Edge>, u: nat, s: Subsystem, b: nat,
                       cs: seq<Descent>, c: Descent)
    requires Descents(vs, es, u, s, b, cs)
    requires forall i :: 0 <= i < |cs| ==> cs[i].edge < c.edge
    requires c.edge < |es| && es[c.edge].src == u && Eligible(vs, es, c.edge, s, b)
    requires c.rtype == vs[es[c.edge].tgt].rtype
    ensures Descents(vs, es, u, s, b, cs + [c])
  {
    DescentStep(cs, c);
    var cs' := cs + [c];
    forall i | 0 <= i < |cs'|
      ensures cs'[i].edge < |es| && es[cs'[i].edge].src == u && Eligible(vs, es, cs'[i].edge, s, b)
      ensures cs'[i].rtype == vs[es[cs'[i].edge].tgt].rtype
    {
      if i < |cs| {
        assert cs'[i] == cs[i];
      }
    }
    forall i, j | 0 <= i < j < |cs'|
      ensures cs'[i].edge < cs'[j].edge
    {
      assert cs'[i] == cs[i];
      if j < |cs| {
        assert cs'[j] == cs[j];
      }
    }
  }

  /** Descents eligible later in a walk were eligible at any earlier point
      of it, with the same target types. */
  lemma DescentsEarlier(vs0: seq<ResourcePool>, es0: seq<Edge>, ps0: seq<Planner>,
                        vs: seq<ResourcePool>, es: seq<Edge>, ps: seq<Planner>,
                        u: nat, s: Subsystem, subs: seq<Subsystem>, b: nat, gen: nat, cs: seq<Descent>)
    requires MatchStep(vs0, es0, ps0, vs, es, ps, subs, b, gen) && s in subs
    requires Descents(vs, es, u, s, b, cs)
    ensures Descents(vs0, es0, u, s, b, cs)
  {
    forall i | 0 <= i < |cs|
      ensures cs[i].edge < |es0| && es0[cs[i].edge].src == u && Eligible(vs0, es0, cs[i].edge, s, b)
      ensures cs[i].rtype == vs0[es0[cs[i].edge].tgt].rtype
    {
      var e := cs[i].edge;
      EligibleEarlier(vs0, es0, vs, es, e, s, subs, b);
      assert Shape(es0[e]) == Shape(es[e]);
      RecoloredKeeps(vs0, vs, es[e].tgt);
    }
  }

  /** Coverage survives the rest of a walk: an edge eligible later was
      eligible earlier, and so was descended. */
  lemma CoveredStays(vs0: seq<ResourcePool>, es0: seq<Edge>, ps0: seq<Planner>,
                     vs: seq<ResourcePool>, es: seq<Edge>, ps: seq<Planner>,
                     u: nat, s: Subsystem, subs: seq<Subsystem>, b: nat, gen: nat, cs: seq<Descent>, k: nat)
    requires MatchStep(vs0, es0, ps0, vs, es, ps, subs, b, gen) && s in subs
    requires CoveredBelow(vs0, es0, u, s, b, cs, k)
    ensures CoveredBelow(vs, es, u, s, b, cs, k)
  {
    forall e | 0 <= e < k && e < |es| && es[e].src == u && Eligible(vs, es, e, s, b)
      ensures e in DescentEdges(cs)
    {
      EligibleEarlier(vs0, es0, vs, es, e, s, subs, b);
    }
  }

  /** One step of a walk loop over edge e keeps the coverage: e was
      descended, or it was not eligible when the loop reached it and so is
      not eligible now. */
  lemma CoveredStep(vs0: seq<ResourcePool>, es0: seq<Edge>, ps0: seq<Planner>,
                    vs: seq<ResourcePool>, es: seq<Edge>, ps: seq<Planner>,
                    u: nat, s: Subsystem, subs: seq<Subsystem>, b: nat, gen: nat,
                    cs: seq<Descent>, cs': seq<Descent>, e: nat)
    requires MatchStep(vs0, es0, ps0, vs, es, ps, subs, b, gen) && s in subs
    requires CoveredBelow(vs0, es0, u, s, b, cs, e)
    requires forall f :: f in DescentEdges(cs) ==> f in DescentEdges(cs')
    requires e < |es0| && es0[e].src == u && Eligible(vs0, es0, e, s, b) ==> e in DescentEdges(cs')
    ensures CoveredBelow(vs, es, u, s, b, cs', e + 1)
  {
    forall f | 0 <= f < e + 1 && f < |es| && es[f].src == u && Eligible(vs, es, f, s, b)
      ensures f in DescentEdges(cs')
    {
      EligibleEarlier(vs0, es0, vs, es, f, s, subs, b);
    }
  }

  /** A vertex with nothing eligible has no descents. */
  lemma IdleDescents(vs: seq<ResourcePool>, es: seq<Edge>, u: nat, s: Subsystem, b: nat, cs: seq<Descent>)
    requires Descents(vs, es, u, s, b, cs) && !HasEligible(vs, es, u, s, b)
    ensures cs == []
  {
    DescentWitness(vs, es, u, s, b, cs);
  }

  /** A first descent witnesses an eligible out-edge. */
  lemma DescentWitness(vs: seq<ResourcePool>, es: seq<Edge>, u: nat, s: Subsystem, b: nat, cs: seq<Descent>)
    requires Descents(vs, es, u, s, b, cs)
    ensures |cs| > 0 ==> HasEligible(vs, es, u, s, b)
  {
    if |cs| > 0 {
      var e := cs[0].edge;
      assert 0 <= e < |es| && es[e].src == u && Eligible(vs, es, e, s, b);
    }
  }

  lemma ExploreAtStart(d: Scoring, leaf: bool, dom: bool, s: Subsystem, dir: Direction)
    ensures ExploreAt(d, leaf, dom, s, dir, [], -1, leaf, d)
  {
  }

  /** A descent in `explore`'s loop: its yield, then for a child that
      succeeded its singleton group, is the fold over one more descent. */
  lemma ExploreAtStep(d0: Scoring, leaf0: bool, dom: bool, s: Subsystem, dir: Direction, cs: seq<Descent>,
                      rc: int, leaf: bool, d: Scoring, c: Descent)
    requires ExploreAt(d0, leaf0, dom, s, dir, cs, rc, leaf, d)
    ensures var y := Yield(d, dir, c.ok, c.own, c.avail);
      ExploreAt(d0, leaf0, dom, s, dir, cs + [c], if c.ok then 0 else rc, if dom then false else leaf,
                if c.ok then Add(y, s, c.rtype, Singleton(y, c.x, c.edge)) else y)
  {
    DescentStep(cs, c);
  }

  /** An edge the loop passes over without descending keeps the
      coverage. */
  lemma CoveredSkip(vs: seq<ResourcePool>, es: seq<Edge>, u: nat, s: Subsystem, b: nat, cs: seq<Descent>, e: nat)
    requires CoveredBelow(vs, es, u, s, b, cs, e)
    requires !(e < |es| && es[e].src == u && Eligible(vs, es, e, s, b))
    ensures CoveredBelow(vs, es, u, s, b, cs, e + 1)
  {
  }

  /** Where a walk loop stands when it reaches eligible edge e of u: the
      descents so far are eligible at the loop's start, ordered and below
      e, and cover every edge below e. */
  ghost predicate TraceReady(vs0: seq<ResourcePool>, es0: seq<Edge>, ps0: seq<Planner>,
                             vs1: seq<ResourcePool>, es1: seq<Edge>, ps1: seq<Planner>,
                             u: nat, s: Subsystem, subs: seq<Subsystem>, b: nat, gen: nat,
                             cs: seq<Descent>, e: nat)
  {
    MatchStep(vs0, es0, ps0, vs1, es1, ps1, subs, b, gen) && s in subs
    && e < |es1| && es1[e].src == u && Eligible(vs1, es1, e, s, b)
    && Descents(vs0, es0, u, s, b, cs) && (forall i :: 0 <= i < |cs| ==> cs[i].edge < e)
    && CoveredBelow(vs1, es1, u, s, b, cs, e)
  }

  /** A walk loop descends eligible edge e of u, one more descent c: the
      descents stay eligible at the loop's start and ordered, e is covered,
      and the two steps of the walk compose. */
  lemma TraceStep(vs0: seq<ResourcePool>, es0: seq<Edge>, ps0: seq<Planner>,
                  vs1: seq<ResourcePool>, es1: seq<Edge>, ps1: seq<Planner>,
                  vs: seq<ResourcePool>, es: seq<Edge>, ps: seq<Planner>,
                  u: nat, s: Subsystem, subs: seq<Subsystem>, b: nat, gen: nat,
                  cs: seq<Descent>, c: Descent, e: nat)
    requires TraceReady(vs0, es0, ps0, vs1, es1, ps1, u, s, subs, b, gen, cs, e)
    requires MatchStep(vs1, es1, ps1, vs, es, ps, subs, b, gen)
    requires c.edge == e && c.rtype == vs1[es1[e].tgt].rtype
    ensures Descents(vs0, es0, u, s, b, cs + [c]) && forall i :: 0 <= i < |cs + [c]| ==> (cs + [c])[i].edge < e + 1
    ensures CoveredBelow(vs, es, u, s, b, cs + [c], e + 1)
    ensures MatchStep(vs0, es0, ps0, vs, es, ps, subs, b, gen)
  {
    EligibleEarlier(vs0, es0, vs1, es1, e, s, subs, b);
    assert Shape(es0[e]) == Shape(es1[e]);
    RecoloredKeeps(vs0, vs1, es1[e].tgt);
    DescentsAppend(vs0, es0, u, s, b, cs, c);
    DescentStep(cs, c);
    CoveredStep(vs1, es1, ps1, vs, es, ps, u, s, subs, b, gen, cs, cs + [c], e);
    MatchStepTrans(vs0, es0, ps0, vs1, es1, ps1, vs, es, ps, subs, b, gen);
  }

  /** Where `dom_exp`'s loop stands after the subsystems subs: css[k] are
      the descents in subs[k] (eligible in (vs0, es0), every edge eligible
      in (vs, es) descended), and d is their fold from d0. */
  ghost predicate ExpTraced(vs0: seq<ResourcePool>, es0: seq<Edge>, vs: seq<ResourcePool>, es: seq<Edge>,
                            u: nat, subs: seq<Subsystem>, dom: Subsystem, b: nat,
                            css: seq<seq<Descent>>, d0: Scoring, d: Scoring)
  {
    |css| == |subs|
    && (forall k :: 0 <= k < |subs| ==>
          Descents(vs0, es0, u, subs[k], b, css[k]) && CoveredBelow(vs, es, u, subs[k], b, css[k], |es|))
    && d == ExpFold(d0, subs, dom, css)
  }

  lemma ExpTracedStep(vs0: seq<ResourcePool>, es0: seq<Edge>, ps0: seq<Planner>,
                      vs1: seq<ResourcePool>, es1: seq<Edge>, ps1: seq<Planner>,
                      vs: seq<ResourcePool>, es: seq<Edge>, ps: seq<Planner>,
                      u: nat, subs: seq<Subsystem>, i: nat, b: nat, gen: nat,
                      css: seq<seq<Descent>>, cs: seq<Descent>, d0: Scoring, d: Scoring, d': Scoring)
    requires i < |subs| && MatchStep(vs1, es1, ps1, vs, es, ps, subs, b, gen)
    requires ExpTraced(vs0, es0, vs1, es1, u, subs[..i], subs[0], b, css, d0, d)
    requires Descents(vs0, es0, u, subs[i], b, cs) && CoveredBelow(vs, es, u, subs[i], b, cs, |es|)
    requires d' == ExploreFold(d, subs[i], if subs[i] == subs[0] then Dfv else Upv, cs)
    ensures ExpTraced(vs0, es0, vs, es, u, subs[..i + 1], subs[0], b, css + [cs], d0, d')
  {
    var pre, css' := subs[..i + 1], css + [cs];
    assert pre[..i] == subs[..i] && css'[..i] == css;
    forall k | 0 <= k < i + 1
      ensures Descents(vs0, es0, u, pre[k], b, css'[k]) && CoveredBelow(vs, es, u, pre[k], b, css'[k], |es|)
    {
      if k < i {
        assert css'[k] == css[k] && pre[k] == subs[..i][k];
        CoveredStays(vs1, es1, ps1, vs, es, ps, u, subs[k], subs, b, gen, css[k], |es1|);
      }
    }
  }

  /** `dom_exp` explored u in every subsystem of subs in turn: css[k] are
      the descents in subs[k], eligible in (vs, es), and d' is their fold
      from d, downward in the dominant subsystem subs[0]. */
  ghost predicate ExpDone(vs: seq<ResourcePool>, es: seq<Edge>, u: nat, subs: seq<Subsystem>, b: nat,
                          css: seq<seq<Descent>>, d: Scoring, d': Scoring)
  {
    |subs| > 0 && |css| == |subs|
    && (forall k :: 0 <= k < |subs| ==> Descents(vs, es, u, subs[k], b, css[k]))
    && d' == ExpFold(d, subs, subs[0], css)
  }

  /** `dom_exp`'s loop has gone through every subsystem. */
  lemma ExpTracedDone(vs0: seq<ResourcePool>, es0: seq<Edge>, vs: seq<ResourcePool>, es: seq<Edge>,
                      u: nat, subs: seq<Subsystem>, b: nat, css: seq<seq<Descent>>, d0: Scoring, d: Scoring)
    requires |subs| > 0 && ExpTraced(vs0, es0, vs, es, u, subs, subs[0], b, css, d0, d)
    ensures ExpDone(vs0, es0, u, subs, b, css, d0, d)
    ensures forall k :: 0 <= k < |css| ==> CoveredBelow(vs, es, u, subs[k], b, css[k], |es|)
  {
  }

  /** Where `dom_exp`'s loop stands after the first i subsystems of subs,
      started on (vs0, es0, ps0) with aggregator d0 and leaf flag leaf0:
      the graph only moved on by match steps, the aggregator grew as
      `ExpSoFar` says and is the fold of the descents css, and rc is the
      outcome of the last subsystem explored. */
  ghost predicate ExpLoop(vs0: seq<ResourcePool>, es0: seq<Edge>, ps0: seq<Planner>,
                          vs: seq<ResourcePool>, es: seq<Edge>, ps: seq<Planner>,
                          u: nat, subs: seq<Subsystem>, b: nat, gen: nat, i: nat,
                          d0: Scoring, leaf0: bool, rc: int, leaf: bool, d: Scoring, css: seq<seq<Descent>>)
  {
    0 < |subs| && i <= |subs| && u < |vs| && |es| == |es0|
    && MatchStep(vs0, es0, ps0, vs, es, ps, subs, b, gen)
    && AllEdgesBelow(d, |es0|)
    && ExpSoFar(d0, leaf0, subs, i, rc, leaf, d)
    && ExpTraced(vs0, es0, vs, es, u, subs[..i], subs[0], b, css, d0, d)
    && rc == (if i > 0 && AnyOk(css[i - 1]) then 0 else -1)
  }

  /** `dom_exp`'s loop explored u in subsystem i: the graph went from
      (vs1, es1, ps1) to (vs, es, ps) by a match step, and cs are the
      descents whose fold, code and leaf flag `ExploreAt` gives. */
  lemma ExpLoopStep(vs0: seq<ResourcePool>, es0: seq<Edge>, ps0: seq<Planner>,
                    vs1: seq<ResourcePool>, es1: seq<Edge>, ps1: seq<Planner>,
                    vs: seq<ResourcePool>, es: seq<Edge>, ps: seq<Planner>,
                    u: nat, subs: seq<Subsystem>, i: nat, b: nat, gen: nat, d0: Scoring, leaf0: bool,
                    rc: int, leaf: bool, d: Scoring, css: seq<seq<Descent>>,
                    rc': int, leaf': bool, d': Scoring, cs: seq<Descent>)
    requires i < |subs|
    requires ExpLoop(vs0, es0, ps0, vs1, es1, ps1, u, subs, b, gen, i, d0, leaf0, rc, leaf, d, css)
    requires MatchStep(vs1, es1, ps1, vs, es, ps, subs, b, gen)
    requires AllEdgesBelow(d', |es|) && Extended(d, d') && (rc' == 0 ==> Grew(d, d', subs[i]))
    requires Descents(vs1, es1, u, subs[i], b, cs) && CoveredBelow(vs, es, u, subs[i], b, cs, |es|)
    requires ExploreAt(d, leaf, subs[i] == subs[0], subs[i], if subs[i] == subs[0] then Dfv else Upv,
                       cs, rc', leaf', d')
    ensures ExpLoop(vs0, es0, ps0, vs, es, ps, u, subs, b, gen, i + 1, d0, leaf0, rc', leaf', d', css + [cs])
  {
    MatchStepTrans(vs0, es0, ps0, vs1, es1, ps1, vs, es, ps, subs, b, gen);
    ExpSoFarStep(d0, leaf0, subs, i, rc, leaf, d, rc', leaf', d');
    DescentsEarlier(vs0, es0, ps0, vs1, es1, ps1, u, subs[i], subs, b, gen, cs);
    ExpTracedStep(vs0, es0, ps0, vs1, es1, ps1, vs, es, ps, u, subs, i, b, gen, css, cs, d0, d, d');
  }

  /** What `dom_exp` computed at u from aggregator d0 and leaf flag leaf0,
      the graph going from (vs0, es0, ps0) to (vs, es, ps): a step of the
      match; the descents css, one per subsystem, give the aggregator d
      (`ExpDone`) and cover u's eligible edges; rc is the last subsystem's
      explore result, and on success the aggregator grew in it. */
  ghost predicate ExpEnd(vs0: seq<ResourcePool>, es0: seq<Edge>, ps0: seq<Planner>,
                         vs: seq<ResourcePool>, es: seq<Edge>, ps: seq<Planner>,
                         u: nat, subs: seq<Subsystem>, b: nat, gen: nat,
                         d0: Scoring, leaf0: bool, rc: int, leaf: bool, d: Scoring, css: seq<seq<Descent>>)
  {
    MatchStep(vs0, es0, ps0, vs, es, ps, subs, b, gen)
    && AllEdgesBelow(d, |es|) && Extended(d0, d)
    && (rc == 0 || rc == -1)
    && (leaf ==> leaf0)
    && ExpDone(vs0, es0, u, subs, b, css, d0, d)
    && 0 < |subs| && |css| == |subs|
    && (rc == 0 ==> Grew(d0, d, subs[|subs| - 1]))
    && rc == (if AnyOk(css[|css| - 1]) then 0 else -1)
    && (forall k :: 0 <= k < |css| ==> CoveredBelow(vs, es, u, subs[k], b, css[k], |es|))
  }

  /** `dom_exp`'s loop has gone through every subsystem: what it computed. */
  lemma ExpLoopDone(vs0: seq<ResourcePool>, es0: seq<Edge>, ps0: seq<Planner>,
                    vs: seq<ResourcePool>, es: seq<Edge>, ps: seq<Planner>,
                    u: nat, subs: seq<Subsystem>, b: nat, gen: nat,
                    d0: Scoring, leaf0: bool, rc: int, leaf: bool, d: Scoring, css: seq<seq<Descent>>)
    requires ExpLoop(vs0, es0, ps0, vs, es, ps, u, subs, b, gen, |subs|, d0, leaf0, rc, leaf, d, css)
    ensures ExpEnd(vs0, es0, ps0, vs, es, ps, u, subs, b, gen, d0, leaf0, rc, leaf, d, css)
  {
    assert subs[..|subs|] == subs;
    ExpTracedDone(vs0, es0, vs, es, u, subs, b, css, d0, d);
  }

  lemma ExpDoneEarlier(vs0: seq<ResourcePool>, es0: seq<Edge>, ps0: seq<Planner>,
                       vs: seq<ResourcePool>, es: seq<Edge>, ps: seq<Planner>,
                       u: nat, subs: seq<Subsystem>, b: nat, gen: nat, css: seq<seq<Descent>>, d: Scoring, d': Scoring)
    requires MatchStep(vs0, es0, ps0, vs, es, ps, subs, b, gen)
    requires ExpDone(vs, es, u, subs, b, css, d, d')
    ensures ExpDone(vs0, es0, u, subs, b, css, d, d')
  {
    forall k | 0 <= k < |subs|
      ensures Descents(vs0, es0, u, subs[k], b, css[k])
    {
      DescentsEarlier(vs0, es0, ps0, vs, es, ps, u, subs[k], subs, b, gen, css[k]);
    }
  }

  /** `dom_slot` below u: its descents cs in dom are eligible in (vs, es);
      when none succeeded d' is d; otherwise as many slot groups as fit in
      their fold from a fresh aggregator are added to d, built in turn from
      the cursor states curs. */
  ghost predicate SlotDone(vs: seq<ResourcePool>, es: seq<Edge>, u: nat, dom: Subsystem, b: nat,
                           shape: seq<Resource>, cs: seq<Descent>, curs: seq<Scoring>, d: Scoring, d': Scoring)
  {
    Descents(vs, es, u, dom, b, cs)
    && var slotDfu := ExploreFold(FreshScoring(), dom, Dfv, cs);
       if AnyOk(cs) then
         SlotsAdded(d, d', dom, SlotsFit(slotDfu, dom, shape), |es|) && SlotChain(slotDfu, curs, d, d', dom, shape)
       else d' == d
  }

  /** How a vertex's visit explored below it: `dom_exp`'s descents per
      subsystem, or `dom_slot`'s descents and slot cursor states. */
  datatype Visit = ExpVisit(traces: seq<seq<Descent>>) | SlotVisit(trace: seq<Descent>, curs: seq<Scoring>)

  /** The visit v of u built the aggregator visited from a fresh one: the
      slot's shape when `test` found a slot, the next requests otherwise. */
  ghost predicate VisitDone(vs: seq<ResourcePool>, es: seq<Edge>, u: nat, kind: MatchKind, next: seq<Resource>,
                            subs: seq<Subsystem>, b: nat, v: Visit, visited: Scoring)
  {
    |subs| > 0
    && if kind == SlotKind then
         v.SlotVisit? && SlotDone(vs, es, u, subs[0], b, next, v.trace, v.curs, FreshScoring(), visited)
       else
         v.ExpVisit? && ExpDone(vs, es, u, subs, b, v.traces, FreshScoring(), visited)
  }

  /** A visit done on a graph that a match step produced is one done on
      the graph before that step. */
  lemma VisitEarlier(vs0: seq<ResourcePool>, es0: seq<Edge>, ps0: seq<Planner>,
                     vs: seq<ResourcePool>, es: seq<Edge>, ps: seq<Planner>,
                     u: nat, kind: MatchKind, next: seq<Resource>, subs: seq<Subsystem>, b: nat, gen: nat,
                     v: Visit, visited: Scoring)
    requires MatchStep(vs0, es0, ps0, vs, es, ps, subs, b, gen)
    requires VisitDone(vs, es, u, kind, next, subs, b, v, visited)
    ensures VisitDone(vs0, es0, u, kind, next, subs, b, v, visited)
  {
    if kind == SlotKind {
      DescentsEarlier(vs0, es0, ps0, vs, es, ps, u, subs[0], subs, b, gen, v.trace);
    } else {
      ExpDoneEarlier(vs0, es0, ps0, vs, es, ps, u, subs, b, gen, v.traces, FreshScoring(), visited);
    }
  }

  /** What `test` decides for u: a slot request of its type whose shape
      has children of every type below u, else the matched request's
      children, else no match with the requests unchanged. */
  ghost function TestOf(vs: seq<ResourcePool>, es: seq<Edge>, u: nat, resources: seq<Resource>): (MatchKind, seq<Resource>)
    requires u < |vs|
  {
    var (slot, matched) := MatchOf(resources, vs[u].rtype);
    if slot.Some? && SlotFits(vs, es, u, slot.value.with) then (SlotKind, slot.value.with)
    else if matched.Some? then (ResourceKind, matched.value.with)
    else (NoKind, resources)
  }

  /** The root group `select` adds from the walk's aggregator d: d's
      overall score, d's avail (as unsigned int) as its count and as its
      one edge's count and needs, no edge, and the request's
      exclusivity. */
  function RootGroup(d: Scoring, excl: bool): EvalEgroup
  {
    var count := ToUint32(d.avail);
    EvalEgroup(d.overallScore, count, excl, true, [EvalEdg(count, count, excl, NO_EDGE)])
  }

  /** `resolve`'s verdict on the walk's aggregator walked at a root of
      type t: every request of type t gets a non-zero count from walked's
      avail, and every type recorded once the root group is added is
      qualified in every subsystem. */
  ghost predicate RootResolves(rs: seq<Resource>, t: string, walked: Scoring, excl: bool, subs: seq<Subsystem>)
    requires |subs| > 0
  {
    RootCountsOk(rs, t, ToUint32(walked.avail)) && AllQualified(Add(walked, subs[0], t, RootGroup(walked, excl)), subs)
  }

  /** A request for n vertices of type t, nothing below them. */
  function Request(t: string, n: uint): Resource
  {
    Resource(t, Count(n, n, DEFAULT_OPER, DEFAULT_OPERAND), "", "", "", false, [], map[])
  }

  /** The success path is reachable: once the post-order hook scores a
      root with nothing below it at MATCH_MET or more, a request for as
      many vertices of its type as the root has free resolves, whatever
      the subsystems. */
  lemma {:induction false} ScoredRootResolves(subs: seq<Subsystem>, t: string, score: int, avail: uint)
    requires |subs| > 0 && score >= MATCH_MET && avail > 0
    ensures var walked := DfvInto(FreshScoring(), SetOverallScore(FreshScoring(), score), avail);
            RootResolves([Request(t, avail)], t, walked, false, subs)
  {
    var walked := DfvInto(FreshScoring(), SetOverallScore(FreshScoring(), score), avail);
    assert walked.types == map[] && walked.groups == map[];
    assert ToUint32(walked.avail) == avail;
    var d := Add(walked, subs[0], t, RootGroup(walked, false));
    assert Groups(d, subs[0], t) == [RootGroup(walked, false)];
    var g := RootGroup(walked, false);
    assert g.score == score && g.count == avail;
    assert [g][..0] == [];
    assert QualifiedSum([g]) == avail;
    assert QualifiedCount(d, subs[0], t) == avail;
    forall i, k | 0 <= i < |subs| && 0 <= k < |ResrcTypes(d, subs[i])|
      ensures QualifiedCount(d, subs[i], ResrcTypes(d, subs[i])[k]) > 0
    {
      assert subs[i] == subs[0] && ResrcTypes(d, subs[i]) == [t];
    }
  }

  /** With the base callback's scoring, a root with nothing below it
      keeps the fresh score of -1, below MATCH_MET: no request of its type
      resolves. */
  lemma {:induction false} KeptScoreRootFails(subs: seq<Subsystem>, t: string, u: nat, avail: uint)
    requires |subs| > 0 && avail > 0
    ensures var walked := DfvInto(FreshScoring(), SetOverallScore(FreshScoring(), KeepScore(subs[0], u, FreshScoring())), avail);
            !RootResolves([Request(t, avail)], t, walked, false, subs)
  {
    var walked := DfvInto(FreshScoring(), SetOverallScore(FreshScoring(), KeepScore(subs[0], u, FreshScoring())), avail);
    assert walked.overallScore == -1 && walked.types == map[] && walked.groups == map[];
    var d := Add(walked, subs[0], t, RootGroup(walked, false));
    assert Groups(d, subs[0], t) == [RootGroup(walked, false)];
    assert ResrcTypes(d, subs[0]) == [t];
    var g := RootGroup(walked, false);
    assert g.score < MATCH_MET && [g][..0] == [];
    assert QualifiedSum([g]) == 0;
    assert QualifiedCount(d, subs[0], ResrcTypes(d, subs[0])[0]) == 0;
  }

  // dom_slot: how many slots fit

  /** How many slots one element of the shape allows: its type's qualified
      count (as unsigned int) divided by its max count. A max count of 0, a
      division by zero in the source, reads as no slot. */
  function ElemFit(d: Scoring, dom: Subsystem, r: Resource): nat
  {
    if r.count.max == 0 then 0 else Quotient(ToUint32(QualifiedCount(d, dom, r.rtype)), r.count.max)
  }

  /** The quotient of two unsigned ints. */
  function Quotient(a: nat, b: nat): nat
    requires b > 0
  {
    assert a / b >= 0 by {
      assert a == b * (a / b) + a % b;
    }
    a / b
  }

  /** The number of slots `dom_slot` qualifies: the least element fit,
      starting from UINT_MAX. */
  function SlotsFit(d: Scoring, dom: Subsystem, shape: seq<Resource>): nat
  {
    if |shape| == 0 then UINT_MAX
    else
      var rest := SlotsFit(d, dom, shape[..|shape| - 1]);
      var f := ElemFit(d, dom, shape[|shape| - 1]);
      if rest > f then f else rest
  }

  /** n slots fit exactly when n is at most UINT_MAX and every element's
      qualified count covers n times its max count. */
  lemma {:induction false} SlotsFitIsLargest(d: Scoring, dom: Subsystem, shape: seq<Resource>, n: nat)
    ensures n <= SlotsFit(d, dom, shape) <==>
            n <= UINT_MAX
            && forall k :: 0 <= k < |shape| ==>
                 n == 0
                 || (shape[k].count.max > 0
                     && n * shape[k].count.max <= ToUint32(QualifiedCount(d, dom, shape[k].rtype)))
  {
    if |shape| > 0 {
      var init := shape[..|shape| - 1];
      SlotsFitIsLargest(d, dom, init, n);
      ElemFitMeans(d, dom, shape[|shape| - 1], n);
      assert forall k :: 0 <= k < |init| ==> init[k] == shape[k];
    }
  }

  lemma ElemFitMeans(d: Scoring, dom: Subsystem, r: Resource, n: nat)
    ensures n <= ElemFit(d, dom, r) <==>
            n == 0 || (r.count.max > 0 && n * r.count.max <= ToUint32(QualifiedCount(d, dom, r.rtype)))
  {
    if r.count.max > 0 {
      var q, m := ToUint32(QualifiedCount(d, dom, r.rtype)), r.count.max;
      DivFloor(q, m, n);
    }
  }

  lemma DivFloor(q: nat, m: nat, n: nat)
    requires m > 0
    ensures n <= q / m <==> n * m <= q
  {
    if n <= q / m {
      assert n * m <= (q / m) * m;
    } else {
      assert (q / m + 1) * m <= n * m;
    }
  }

  /** A group `dom_slot` records: one slot, exclusive, below the root. */
  predicate SlotGroupOk(g: EvalEgroup, n: nat)
  {
    g.count == 1 && g.exclusive && !g.root && GroupEdgesBelow(g, n)
    && forall k :: 0 <= k < |g.edges| ==> g.edges[k].exclusive && g.edges[k].count == g.edges[k].needs
  }

  /** The counting loop of `dom_slot`: the least element fit, from
      UINT_MAX. */
  method SlotCount(d: Scoring, dom: Subsystem, shape: seq<Resource>) returns (qual: nat)
    ensures qual == SlotsFit(d, dom, shape)
  {
    qual := UINT_MAX;
    var k := 0;
    while k < |shape|
      invariant 0 <= k <= |shape|
      invariant qual == SlotsFit(d, dom, shape[..k])
    {
      assert shape[..k + 1][..k] == shape[..k];
      var fit := ElemFit(d, dom, shape[k]);
      qual := if qual > fit then fit else qual;
      k := k + 1;
    }
    assert shape[..k] == shape;
  }

  /** The groups recorded for (s, t) all satisfy the walk invariant. */
  lemma GroupBelow(d: Scoring, s: Subsystem, t: string, i: nat, n: nat)
    requires AllEdgesBelow(d, n) && i < |Groups(d, s, t)|
    ensures !Groups(d, s, t)[i].root && GroupEdgesBelow(Groups(d, s, t)[i], n)
  {
    AllEdgesBelowWeakens(d, n);
  }

  /** The groups one element of a slot takes from gs, from index c on,
      while the element still needs more than 0: each taken group must
      exist and have an edge, and lowers the need by its first edge's
      count, so a group whose count is 0 is taken and lowers nothing. */
  function Take(gs: seq<EvalEgroup>, c: nat, need: int): seq<EvalEgroup>
    decreases |gs| - c
  {
    if need <= 0 || c >= |gs| || |gs[c].edges| == 0 then []
    else [gs[c]] + Take(gs, c + 1, need - gs[c].edges[0].count)
  }

  /** The summed first-edge counts of gs, 0 for a group without edges. */
  function FirstCountSum(gs: seq<EvalEgroup>): int
    decreases |gs|
  {
    if |gs| == 0 then 0
    else (if |gs[0].edges| == 0 then 0 else gs[0].edges[0].count) + FirstCountSum(gs[1..])
  }

  /** The groups taken are consecutive groups of gs from c on, each with
      an edge. Each of them was taken while the counts before it fell
      short of the need, zero counts included, and the run stops short of
      the need only at the end of gs or at a group without edges: the run
      is the shortest one whose counts reach the need. */
  lemma {:induction false} TakeIsRun(gs: seq<EvalEgroup>, c: nat, need: int)
    ensures var r := Take(gs, c, need); |r| > 0 ==> 0 < need && c + |r| <= |gs| && r == gs[c..c + |r|]
    ensures forall g :: g in Take(gs, c, need) ==> |g.edges| > 0
    ensures var r := Take(gs, c, need); forall k :: 0 <= k < |r| ==> FirstCountSum(r[..k]) < need
    ensures var r := Take(gs, c, need); c + |r| < |gs| && |gs[c + |r|].edges| > 0 ==> need <= FirstCountSum(r)
    decreases |gs| - c
  {
    if !(need <= 0 || c >= |gs| || |gs[c].edges| == 0) {
      var g := gs[c];
      var rest := Take(gs, c + 1, need - g.edges[0].count);
      TakeIsRun(gs, c + 1, need - g.edges[0].count);
      assert Take(gs, c, need) == [g] + rest;
      ConsRun(gs, c, rest);
      ConsPrefixSums(g, rest, need);
    }
  }

  /** gs[c] followed by a run of gs from c + 1 on is a run from c on. */
  lemma ConsRun(gs: seq<EvalEgroup>, c: nat, rest: seq<EvalEgroup>)
    requires c < |gs| && (|rest| > 0 ==> c + 1 + |rest| <= |gs| && rest == gs[c + 1..c + 1 + |rest|])
    ensures c + 1 + |rest| <= |gs| && [gs[c]] + rest == gs[c..c + 1 + |rest|]
  {
    if |rest| > 0 {
      assert gs[c..c + 1 + |rest|] == [gs[c]] + gs[c + 1..c + 1 + |rest|];
    } else {
      assert gs[c..c + 1] == [gs[c]];
    }
  }

  /** Taking g first adds its count in front of every prefix sum of rest. */
  lemma ConsPrefixSums(g: EvalEgroup, rest: seq<EvalEgroup>, need: int)
    requires |g.edges| > 0 && 0 < need
    requires forall k :: 0 <= k < |rest| ==> FirstCountSum(rest[..k]) < need - g.edges[0].count
    ensures forall k :: 0 <= k < |[g] + rest| ==> FirstCountSum(([g] + rest)[..k]) < need
    ensures FirstCountSum([g] + rest) == g.edges[0].count + FirstCountSum(rest)
  {
    var r := [g] + rest;
    assert r[1..] == rest;
    forall k | 0 <= k < |r|
      ensures FirstCountSum(r[..k]) < need
    {
      if k > 0 {
        assert r[..k][0] == g && r[..k][1..] == rest[..k - 1];
      }
    }
  }

  /** A group whose count is 0 is taken and the element goes on: with a
      max count of 2, the groups counting 0 and 2 are both taken, and the
      one after them is not. */
  lemma TakeZeroCountExample(e: nat)
    ensures var z := EvalEgroup(5, 1, true, false, [EvalEdg(0, 0, true, e)]);
      var two := EvalEgroup(7, 1, true, false, [EvalEdg(2, 2, true, e)]);
      Take([z, two, two], 0, 2) == [z, two]
  {
    var z := EvalEgroup(5, 1, true, false, [EvalEdg(0, 0, true, e)]);
    var two := EvalEgroup(7, 1, true, false, [EvalEdg(2, 2, true, e)]);
    var gs := [z, two, two];
    assert Take(gs, 2, 0) == [];
    assert Take(gs, 1, 2) == [two];
  }

  /** The summed scores of the groups taken. */
  function TakenScore(gs: seq<EvalEgroup>): int
    decreases |gs|
  {
    if |gs| == 0 then 0 else TakenScore(gs[..|gs| - 1]) + gs[|gs| - 1].score
  }

  /** The slot's edges from the groups taken: each group's first edge, as
      exclusive, needing its whole count. */
  function TakenEdges(gs: seq<EvalEgroup>): seq<EvalEdg>
    decreases |gs|
  {
    if |gs| == 0 then []
    else
      var g := gs[|gs| - 1];
      TakenEdges(gs[..|gs| - 1])
      + (if |g.edges| == 0 then [] else [EvalEdg(g.edges[0].count, g.edges[0].count, true, g.edges[0].edge)])
  }

  function RunsScore(runs: seq<seq<EvalEgroup>>): int
    decreases |runs|
  {
    if |runs| == 0 then 0 else RunsScore(runs[..|runs| - 1]) + TakenScore(runs[|runs| - 1])
  }

  function RunsEdges(runs: seq<seq<EvalEgroup>>): seq<EvalEdg>
    decreases |runs|
  {
    if |runs| == 0 then [] else RunsEdges(runs[..|runs| - 1]) + TakenEdges(runs[|runs| - 1])
  }

  /** The last element of shape before k of type t, -1 when there is
      none. */
  function LastOf(shape: seq<Resource>, k: nat, t: string): (r: int)
    requires k <= |shape|
    ensures -1 <= r < k && (r >= 0 ==> shape[r].rtype == t)
    ensures forall i :: r < i < k ==> shape[i].rtype != t
  {
    if k == 0 then -1 else if shape[k - 1].rtype == t then k - 1 else LastOf(shape, k - 1, t)
  }

  /** Where the cursor of (dom, t) stands once the elements before k have
      taken their runs: past the last run of type t, or where it stood in d
      when no element before k has type t. */
  function CursorAfter(d: Scoring, dom: Subsystem, shape: seq<Resource>, starts: seq<nat>,
                       runs: seq<seq<EvalEgroup>>, k: nat, t: string): nat
    requires k <= |shape| && k <= |starts| && k <= |runs|
  {
    var l := LastOf(shape, k, t);
    if l < 0 then Cursor(d, dom, t) else starts[l] + |runs[l]|
  }

  /** Element k of a slot took runs[k]: the groups of its type from
      starts[k] on, 0 for the first slot and otherwise where its type's
      cursor stood. */
  ghost predicate ElemAt(d: Scoring, dom: Subsystem, shape: seq<Resource>, first: bool,
                         starts: seq<nat>, runs: seq<seq<EvalEgroup>>, k: nat)
    requires k < |starts| == |runs| <= |shape|
  {
    runs[k] == Take(Groups(d, dom, shape[k].rtype), starts[k], shape[k].count.max)
    && starts[k] == (if first then 0 else CursorAfter(d, dom, shape, starts, runs, k, shape[k].rtype))
  }

  /** Where a slot's loop over the shape stands once the elements before
      |starts| took their runs from the aggregator d: element k took
      runs[k], the groups of its type from starts[k] on (0 for the first
      slot, where its type's cursor stood otherwise), and d' differs from d
      only in cursors, each past its type's last run. */
  ghost predicate SlotSoFar(d: Scoring, d': Scoring, dom: Subsystem, shape: seq<Resource>, first: bool,
                            starts: seq<nat>, runs: seq<seq<EvalEgroup>>)
  {
    |starts| == |runs| <= |shape|
    && (forall k :: 0 <= k < |starts| ==> ElemAt(d, dom, shape, first, starts, runs, k))
    && d' == d.(cursor := d'.cursor)
    && forall s, t :: Cursor(d', s, t) == if s == dom then CursorAfter(d, dom, shape, starts, runs, |starts|, t)
                                          else Cursor(d, s, t)
  }

  /** g is one slot group built from the aggregator d, leaving the cursors
      of d' behind: every element of the shape took its run (`SlotSoFar`);
      the slot's score is MATCH_MET plus the scores of the groups taken,
      its edges their first edges. */
  ghost predicate SlotFrom(d: Scoring, d': Scoring, dom: Subsystem, shape: seq<Resource>, first: bool,
                           g: EvalEgroup, starts: seq<nat>, runs: seq<seq<EvalEgroup>>)
  {
    SlotSoFar(d, d', dom, shape, first, starts, runs) && |starts| == |shape|
    && g == EvalEgroup(MATCH_MET + RunsScore(runs), 1, true, false, RunsEdges(runs))
  }

  ghost predicate SlotBuilt(d: Scoring, d': Scoring, dom: Subsystem, shape: seq<Resource>, first: bool, g: EvalEgroup)
  {
    exists starts, runs :: SlotFrom(d, d', dom, shape, first, g, starts, runs)
  }

  /** An edge a slot group records: exclusive, needing its whole
      count, below n. */
  predicate SlotEdgeOk(x: EvalEdg, n: nat)
  {
    0 <= x.edge < n && x.exclusive && x.count == x.needs
  }

  /** One element of a slot, on values: start is where its run begins,
      run the groups it takes, and d' moves only its type's cursor, past
      the run. */
  ghost predicate ElemTook(d: Scoring, d': Scoring, dom: Subsystem, elem: Resource, first: bool,
                           start: nat, run: seq<EvalEgroup>)
  {
    start == (if first then 0 else Cursor(d, dom, elem.rtype))
    && run == Take(Groups(d, dom, elem.rtype), start, elem.count.max)
    && d' == d.(cursor := d'.cursor)
    && forall s, t :: Cursor(d', s, t) == if (s, t) == (dom, elem.rtype) then start + |run| else Cursor(d, s, t)
  }

  lemma TakeStep(gs: seq<EvalEgroup>, c: nat, need: int, run: seq<EvalEgroup>, whole: seq<EvalEgroup>)
    requires whole == run + Take(gs, c, need)
    requires need > 0 && c < |gs| && |gs[c].edges| > 0
    ensures whole == (run + [gs[c]]) + Take(gs, c + 1, need - gs[c].edges[0].count)
  {
  }

  lemma TakenStep(run: seq<EvalEgroup>, g: EvalEgroup)
    requires |g.edges| > 0
    ensures TakenScore(run + [g]) == TakenScore(run) + g.score
    ensures TakenEdges(run + [g]) == TakenEdges(run) + [EvalEdg(g.edges[0].count, g.edges[0].count, true, g.edges[0].edge)]
  {
    assert (run + [g])[..|run|] == run;
  }

  lemma RunsStep(runs: seq<seq<EvalEgroup>>, run: seq<EvalEgroup>)
    ensures RunsScore(runs + [run]) == RunsScore(runs) + TakenScore(run)
    ensures RunsEdges(runs + [run]) == RunsEdges(runs) + TakenEdges(run)
  {
    assert (runs + [run])[..|runs|] == runs;
  }

  lemma CursorMoves(d: Scoring, dom: Subsystem, t: string)
    ensures forall s, t' :: Cursor(RewindIterCur(d, dom, t), s, t') == if (s, t') == (dom, t) then 0 else Cursor(d, s, t')
    ensures forall s, t' :: Cursor(IncrIterCur(d, dom, t), s, t') ==
                            if (s, t') == (dom, t) then Cursor(d, dom, t) + 1 else Cursor(d, s, t')
  {
  }

  /** Where one element's loop stands: the groups run taken so far, from
      start on, have brought its count to j; only the element's cursor has
      moved, to just past them; score and edges sum them up. */
  ghost predicate ElemSoFar(d: Scoring, d': Scoring, dom: Subsystem, elem: Resource, start: nat, j: int,
                            run: seq<EvalEgroup>, score: int, edges: seq<EvalEdg>, n: nat)
  {
    var gs := Groups(d, dom, elem.rtype);
    d' == d.(cursor := d'.cursor)
    && (forall s, t :: (s, t) != (dom, elem.rtype) ==> Cursor(d', s, t) == Cursor(d, s, t))
    && Cursor(d', dom, elem.rtype) == start + |run|
    && Take(gs, start, elem.count.max) == run + Take(gs, start + |run|, elem.count.max - j)
    && score == TakenScore(run) && edges == TakenEdges(run)
    && (forall i :: 0 <= i < |edges| ==> SlotEdgeOk(edges[i], n))
  }

  /** Where the loop of one slot element stands: `ElemSoFar`, started
      from the rewound cursor when first, and, once stuck, nothing more
      to take. */
  ghost predicate ElemLoop(d: Scoring, d': Scoring, dom: Subsystem, elem: Resource, first: bool, start: nat, j: int,
                           run: seq<EvalEgroup>, score: int, edges: seq<EvalEdg>, n: nat, stuck: bool)
  {
    ElemSoFar(d, d', dom, elem, start, j, run, score, edges, n)
    && start == (if first then 0 else Cursor(d, dom, elem.rtype))
    && (stuck ==> Take(Groups(d, dom, elem.rtype), start + |run|, elem.count.max - j) == [])
  }

  lemma SlotEdgesAppend(edges: seq<EvalEdg>, x: EvalEdg, n: nat)
    requires (forall i :: 0 <= i < |edges| ==> SlotEdgeOk(edges[i], n)) && SlotEdgeOk(x, n)
    ensures forall i :: 0 <= i < |edges + [x]| ==> SlotEdgeOk((edges + [x])[i], n)
  {
    forall i | 0 <= i < |edges + [x]|
      ensures SlotEdgeOk((edges + [x])[i], n)
    {
      if i < |edges| {
        assert (edges + [x])[i] == edges[i];
      }
    }
  }

  /** One more group under the cursor is taken. */
  lemma ElemLoopStep(d: Scoring, d1: Scoring, dom: Subsystem, elem: Resource, first: bool, start: nat, j: int,
                     run: seq<EvalEgroup>, score: int, edges: seq<EvalEdg>, n: nat, g: EvalEgroup)
    requires AllEdgesBelow(d, n) && ElemLoop(d, d1, dom, elem, first, start, j, run, score, edges, n, false)
    requires j < elem.count.max && IterCur(d1, dom, elem.rtype) == Some(g)
    requires |g.edges| > 0
    ensures var x := g.edges[0];
      ElemLoop(d, IncrIterCur(d1, dom, elem.rtype), dom, elem, first, start, j + x.count, run + [g],
               score + g.score, edges + [EvalEdg(x.count, x.count, true, x.edge)], n, false)
  {
    ElemStep(d, d1, dom, elem, start, j, run, score, edges, n, g);
  }

  lemma ElemStep(d: Scoring, d1: Scoring, dom: Subsystem, elem: Resource, start: nat, j: int,
                 run: seq<EvalEgroup>, score: int, edges: seq<EvalEdg>, n: nat, g: EvalEgroup)
    requires AllEdgesBelow(d, n) && ElemSoFar(d, d1, dom, elem, start, j, run, score, edges, n)
    requires j < elem.count.max && IterCur(d1, dom, elem.rtype) == Some(g)
    requires |g.edges| > 0
    ensures var x := g.edges[0];
      ElemSoFar(d, IncrIterCur(d1, dom, elem.rtype), dom, elem, start, j + x.count, run + [g],
                score + g.score, edges + [EvalEdg(x.count, x.count, true, x.edge)], n)
  {
    var t := elem.rtype;
    var gs := Groups(d, dom, t);
    var c := start + |run|;
    assert Groups(d1, dom, t) == gs;
    GroupBelow(d, dom, t, c, n);
    assert g == gs[c];
    TakeStep(gs, c, elem.count.max - j, run, Take(gs, start, elem.count.max));
    TakenStep(run, g);
    CursorMoves(d1, dom, t);
    var x := g.edges[0];
    SlotEdgesAppend(edges, EvalEdg(x.count, x.count, true, x.edge), n);
  }

  /** One element of a slot of `dom_slot`: whole groups of its type are
      taken from the cursor on (rewound first when `first`), until their
      counts reach the element's max count (`ElemTook`). A group whose
      count is 0 is taken too, and the element goes on with the next one.
      A cursor past the end or a group without edges (undefined behaviour
      in the source) ends the element. */
  method SlotElem(d: Scoring, dom: Subsystem, elem: Resource, first: bool, ghost n: nat)
    returns (score: int, edges: seq<EvalEdg>, d': Scoring, ghost start: nat, ghost run: seq<EvalEgroup>)
    requires AllEdgesBelow(d, n)
    ensures ElemTook(d, d', dom, elem, first, start, run)
    ensures score == TakenScore(run) && edges == TakenEdges(run)
    ensures forall j :: 0 <= j < |edges| ==> SlotEdgeOk(edges[j], n)
  {
    var t := elem.rtype;
    d' := d;
    if first {
      CursorMoves(d', dom, t);
      d' := RewindIterCur(d', dom, t);
    }
    start := Cursor(d', dom, t);
    score, edges, run := 0, [], [];
    var j := 0;
    var stuck := false;
    ElemStart(d, d', dom, elem, first, n);
    while j < elem.count.max && !stuck
      invariant ElemLoop(d, d', dom, elem, first, start, j, run, score, edges, n, stuck)
      decreases |Groups(d, dom, t)| - Cursor(d', dom, t), if stuck then 0 else 1
    {
      var cur := IterCur(d', dom, t);
      if cur.None? || |cur.value.edges| == 0 {
        ElemStuck(d, d', dom, elem, first, start, j, run, score, edges, n);
        stuck := true;
      } else {
        ElemLoopStep(d, d', dom, elem, first, start, j, run, score, edges, n, cur.value);
        var x := cur.value.edges[0];
        edges := edges + [EvalEdg(x.count, x.count, true, x.edge)];
        score := score + cur.value.score;
        run := run + [cur.value];
        j := j + x.count;
        d' := IncrIterCur(d', dom, t);
      }
    }
    ElemDone(d, d', dom, elem, first, start, j, run, score, edges, n, stuck);
  }

  lemma ElemStart(d: Scoring, d': Scoring, dom: Subsystem, elem: Resource, first: bool, n: nat)
    requires d' == if first then RewindIterCur(d, dom, elem.rtype) else d
    ensures ElemLoop(d, d', dom, elem, first, Cursor(d', dom, elem.rtype), 0, [], 0, [], n, false)
  {
    CursorMoves(d, dom, elem.rtype);
  }

  lemma ElemStuck(d: Scoring, d': Scoring, dom: Subsystem, elem: Resource, first: bool, start: nat, j: int,
                  run: seq<EvalEgroup>, score: int, edges: seq<EvalEdg>, n: nat)
    requires ElemLoop(d, d', dom, elem, first, start, j, run, score, edges, n, false)
    requires var cur := IterCur(d', dom, elem.rtype);
      cur.None? || |cur.value.edges| == 0
    ensures ElemLoop(d, d', dom, elem, first, start, j, run, score, edges, n, true)
  {
    assert Groups(d', dom, elem.rtype) == Groups(d, dom, elem.rtype);
  }

  lemma ElemDone(d: Scoring, d': Scoring, dom: Subsystem, elem: Resource, first: bool, start: nat, j: int,
                 run: seq<EvalEgroup>, score: int, edges: seq<EvalEdg>, n: nat, stuck: bool)
    requires ElemLoop(d, d', dom, elem, first, start, j, run, score, edges, n, stuck)
    requires stuck || j >= elem.count.max
    ensures ElemTook(d, d', dom, elem, first, start, run)
    ensures score == TakenScore(run) && edges == TakenEdges(run)
    ensures forall i :: 0 <= i < |edges| ==> SlotEdgeOk(edges[i], n)
  {
    assert run + [] == run;
  }

  /** A slot's loop over the shape moves on by one element. */
  lemma SlotSoFarStep(d: Scoring, d1: Scoring, d2: Scoring, dom: Subsystem, shape: seq<Resource>, first: bool,
                      starts: seq<nat>, runs: seq<seq<EvalEgroup>>, start: nat, run: seq<EvalEgroup>)
    requires SlotSoFar(d, d1, dom, shape, first, starts, runs) && |starts| < |shape|
    requires ElemTook(d1, d2, dom, shape[|starts|], first, start, run)
    ensures SlotSoFar(d, d2, dom, shape, first, starts + [start], runs + [run])
  {
    var k := |starts|;
    var starts', runs' := starts + [start], runs + [run];
    CursorAfterStep(d, dom, shape, starts, runs, start, run);
    assert Groups(d1, dom, shape[k].rtype) == Groups(d, dom, shape[k].rtype);
    forall i | 0 <= i < k + 1
      ensures ElemAt(d, dom, shape, first, starts', runs', i)
    {
      if i < k {
        assert ElemAt(d, dom, shape, first, starts, runs, i);
        assert runs'[i] == runs[i] && starts'[i] == starts[i];
      }
    }
  }

  /** One slot group of `dom_slot`: every element of the shape takes its
      run of groups (`SlotElem`); the slot is exclusive, counts 1, scores
      MATCH_MET plus the scores of the groups taken and holds their first
      edges (`SlotFrom`). Only the cursors of the explored aggregator
      move. */
  method SlotGroup(slotDfu: Scoring, dom: Subsystem, shape: seq<Resource>, first: bool, ghost n: nat)
    returns (g: EvalEgroup, slotDfu': Scoring, ghost starts: seq<nat>, ghost runs: seq<seq<EvalEgroup>>)
    requires AllEdgesBelow(slotDfu, n)
    ensures SlotFrom(slotDfu, slotDfu', dom, shape, first, g, starts, runs)
    ensures SlotGroupOk(g, n)
  {
    var score := MATCH_MET;
    var edges: seq<EvalEdg> := [];
    slotDfu' := slotDfu;
    starts, runs := [], [];
    var k := 0;
    while k < |shape|
      invariant 0 <= k <= |shape| && |starts| == k
      invariant SlotSoFar(slotDfu, slotDfu', dom, shape, first, starts, runs)
      invariant score == MATCH_MET + RunsScore(runs) && edges == RunsEdges(runs)
      invariant forall j :: 0 <= j < |edges| ==> SlotEdgeOk(edges[j], n)
    {
      assert AllEdgesBelow(slotDfu', n) by {
        assert slotDfu'.groups == slotDfu.groups;
      }
      ghost var before := slotDfu';
      var sc, es;
      ghost var start, run;
      sc, es, slotDfu', start, run := SlotElem(slotDfu', dom, shape[k], first, n);
      SlotSoFarStep(slotDfu, before, slotDfu', dom, shape, first, starts, runs, start, run);
      RunsStep(runs, run);
      starts, runs := starts + [start], runs + [run];
      score, edges := score + sc, edges + es;
      k := k + 1;
    }
    g := EvalEgroup(score, 1, true, false, edges);
  }

  /** Once element k has taken its run, the cursors stand past it for its
      type, the others where they stood, and the earlier elements' starts
      read the same. */
  lemma CursorAfterStep(d: Scoring, dom: Subsystem, shape: seq<Resource>, starts: seq<nat>,
                        runs: seq<seq<EvalEgroup>>, start: nat, run: seq<EvalEgroup>)
    requires |starts| == |runs| < |shape|
    ensures CursorAfter(d, dom, shape, starts + [start], runs + [run], |starts| + 1, shape[|starts|].rtype)
            == start + |run|
    ensures forall t :: t != shape[|starts|].rtype ==>
              CursorAfter(d, dom, shape, starts + [start], runs + [run], |starts| + 1, t)
              == CursorAfter(d, dom, shape, starts, runs, |starts|, t)
    ensures forall i, t :: 0 <= i <= |starts| ==>
              CursorAfter(d, dom, shape, starts + [start], runs + [run], i, t) == CursorAfter(d, dom, shape, starts, runs, i, t)
  {
    var k := |starts|;
    var starts', runs' := starts + [start], runs + [run];
    assert LastOf(shape, k + 1, shape[k].rtype) == k;
    assert starts'[k] == start && runs'[k] == run;
    forall t | t != shape[k].rtype
      ensures CursorAfter(d, dom, shape, starts', runs', k + 1, t) == CursorAfter(d, dom, shape, starts, runs, k, t)
    {
      var l := LastOf(shape, k, t);
      assert LastOf(shape, k + 1, t) == l;
      if l >= 0 {
        assert starts'[l] == starts[l] && runs'[l] == runs[l];
      }
    }
    forall i, t | 0 <= i <= k
      ensures CursorAfter(d, dom, shape, starts', runs', i, t) == CursorAfter(d, dom, shape, starts, runs, i, t)
    {
      var l := LastOf(shape, i, t);
      if l >= 0 {
        assert starts'[l] == starts[l] && runs'[l] == runs[l];
      }
    }
  }

  /** dfu' is dfu with m slot groups appended under (dom, "slot"), and
      nothing else of it changed. */
  ghost predicate SlotsAdded(dfu: Scoring, dfu': Scoring, dom: Subsystem, m: nat, n: nat)
  {
    AllEdgesBelow(dfu', n) && Extended(dfu, dfu')
    && |Groups(dfu', dom, SLOT_TYPE)| == |Groups(dfu, dom, SLOT_TYPE)| + m
    && (forall s, t :: (s, t) != (dom, SLOT_TYPE) ==> Groups(dfu', s, t) == Groups(dfu, s, t))
    && (forall i :: |Groups(dfu, dom, SLOT_TYPE)| <= i < |Groups(dfu', dom, SLOT_TYPE)| ==>
          SlotGroupOk(Groups(dfu', dom, SLOT_TYPE)[i], n))
    && dfu'.avail == dfu.avail && dfu'.overallScore == dfu.overallScore
    && dfu'.hierConstrainNow == dfu.hierConstrainNow
  }

  lemma SlotsAddedStep(dfu: Scoring, d1: Scoring, dom: Subsystem, m: nat, n: nat, g: EvalEgroup)
    requires SlotsAdded(dfu, d1, dom, m, n) && SlotGroupOk(g, n)
    ensures SlotsAdded(dfu, Add(d1, dom, SLOT_TYPE, g), dom, m + 1, n)
  {
    var d2 := Add(d1, dom, SLOT_TYPE, g);
    AddAppends(d1, dom, SLOT_TYPE, g);
    AddKeepsAllEdgesBelow(d1, dom, SLOT_TYPE, g, n);
    ExtendedByAdd(d1, dom, SLOT_TYPE, g);
    ExtendedTrans(dfu, d1, d2);
    assert Groups(d2, dom, SLOT_TYPE) == Groups(d1, dom, SLOT_TYPE) + [g];
    SlotGroupsOkAppend(Groups(d1, dom, SLOT_TYPE), g, |Groups(dfu, dom, SLOT_TYPE)|, n);
  }

  lemma SlotGroupsOkAppend(gs: seq<EvalEgroup>, g: EvalEgroup, from: nat, n: nat)
    requires forall i :: from <= i < |gs| ==> SlotGroupOk(gs[i], n)
    requires SlotGroupOk(g, n)
    ensures forall i :: from <= i < |gs + [g]| ==> SlotGroupOk((gs + [g])[i], n)
  {
    forall i | from <= i < |gs + [g]|
      ensures SlotGroupOk((gs + [g])[i], n)
    {
      if i < |gs| {
        assert (gs + [g])[i] == gs[i];
      }
    }
  }

  /** The slot groups dfu' holds past dfu's under (dom, "slot") were built
      in turn from the cursor states curs, the first from slotDfu and from
      rewound cursors, each next one from where its predecessor left
      them. */
  ghost predicate SlotChain(slotDfu: Scoring, curs: seq<Scoring>, dfu: Scoring, dfu': Scoring, dom: Subsystem,
                            shape: seq<Resource>)
  {
    var base := |Groups(dfu, dom, SLOT_TYPE)|;
    |curs| > 0 && |curs| == |Groups(dfu', dom, SLOT_TYPE)| - base + 1 && curs[0] == slotDfu
    && forall i :: 0 <= i < |curs| - 1 ==> ChainLink(curs, Groups(dfu', dom, SLOT_TYPE), base, dom, shape, i)
  }

  /** Slot group gs[base + i] was built from the cursor state curs[i],
      leaving curs[i + 1]. */
  ghost predicate ChainLink(curs: seq<Scoring>, gs: seq<EvalEgroup>, base: nat, dom: Subsystem,
                            shape: seq<Resource>, i: nat)
  {
    i + 1 < |curs| && base + i < |gs| && SlotBuilt(curs[i], curs[i + 1], dom, shape, i == 0, gs[base + i])
  }

  /** The chain of cursor states grows by the slot just built. */
  lemma SlotChainStep(curs: seq<Scoring>, cur': Scoring, gs: seq<EvalEgroup>, g: EvalEgroup, base: nat,
                      dom: Subsystem, shape: seq<Resource>, starts: seq<nat>, runs: seq<seq<EvalEgroup>>)
    requires |curs| > 0 && |gs| == base + |curs| - 1
    requires forall k :: 0 <= k < |curs| - 1 ==> ChainLink(curs, gs, base, dom, shape, k)
    requires SlotFrom(curs[|curs| - 1], cur', dom, shape, |curs| == 1, g, starts, runs)
    ensures forall k :: 0 <= k < |curs| ==> ChainLink(curs + [cur'], gs + [g], base, dom, shape, k)
  {
    var i := |curs| - 1;
    var curs', gs' := curs + [cur'], gs + [g];
    forall k | 0 <= k < |curs|
      ensures ChainLink(curs', gs', base, dom, shape, k)
    {
      if k < i {
        assert ChainLink(curs, gs, base, dom, shape, k);
        assert curs'[k] == curs[k] && curs'[k + 1] == curs[k + 1] && gs'[base + k] == gs[base + k];
      } else {
        assert curs'[k] == curs[i] && curs'[k + 1] == cur' && gs'[base + k] == g;
        assert SlotBuilt(curs'[k], curs'[k + 1], dom, shape, k == 0, gs'[base + k]);
      }
    }
  }

  /** Where the slot loop of `dom_slot` stands after i slot groups: they
      were added to dfu, giving dfu', each built from the cursor states
      curs, and cur is the last of those. */
  ghost predicate SlotLoop(slotDfu: Scoring, dom: Subsystem, shape: seq<Resource>, dfu: Scoring, n: nat,
                           i: nat, cur: Scoring, dfu': Scoring, curs: seq<Scoring>)
  {
    cur.groups == slotDfu.groups && AllEdgesBelow(cur, n)
    && SlotsAdded(dfu, dfu', dom, i, n)
    && |curs| == i + 1 && curs[0] == slotDfu && curs[i] == cur
    && forall k :: 0 <= k < i ==> ChainLink(curs, Groups(dfu', dom, SLOT_TYPE), |Groups(dfu, dom, SLOT_TYPE)|, dom, shape, k)
  }

  lemma SlotLoopStart(slotDfu: Scoring, dom: Subsystem, shape: seq<Resource>, dfu: Scoring, n: nat)
    requires AllEdgesBelow(slotDfu, n) && AllEdgesBelow(dfu, n)
    ensures SlotLoop(slotDfu, dom, shape, dfu, n, 0, slotDfu, dfu, [slotDfu])
  {
    ExtendedTrans(dfu, dfu, dfu);
  }

  /** One more slot group g, built from cur and leaving cur', keeps the
      slot loop standing. */
  lemma SlotLoopStep(slotDfu: Scoring, dom: Subsystem, shape: seq<Resource>, dfu: Scoring, n: nat,
                     i: nat, cur: Scoring, dfu': Scoring, curs: seq<Scoring>,
                     g: EvalEgroup, cur': Scoring, starts: seq<nat>, runs: seq<seq<EvalEgroup>>)
    requires SlotLoop(slotDfu, dom, shape, dfu, n, i, cur, dfu', curs)
    requires SlotFrom(cur, cur', dom, shape, i == 0, g, starts, runs) && SlotGroupOk(g, n)
    ensures SlotLoop(slotDfu, dom, shape, dfu, n, i + 1, cur', Add(dfu', dom, SLOT_TYPE, g), curs + [cur'])
  {
    var base := |Groups(dfu, dom, SLOT_TYPE)|;
    SlotsAddedStep(dfu, dfu', dom, i, n, g);
    AddAppends(dfu', dom, SLOT_TYPE, g);
    SlotChainStep(curs, cur', Groups(dfu', dom, SLOT_TYPE), g, base, dom, shape, starts, runs);
    assert cur'.groups == slotDfu.groups;
  }

  lemma SlotLoopDone(slotDfu: Scoring, dom: Subsystem, shape: seq<Resource>, dfu: Scoring, n: nat,
                     qual: nat, cur: Scoring, dfu': Scoring, curs: seq<Scoring>)
    requires SlotLoop(slotDfu, dom, shape, dfu, n, qual, cur, dfu', curs)
    ensures SlotsAdded(dfu, dfu', dom, qual, n)
    ensures SlotChain(slotDfu, curs, dfu, dfu', dom, shape)
  {
  }

  /** The slot loop of `dom_slot`: qual slot groups are built from the
      explored aggregator and added to dfu under (dom, "slot"), each from
      the cursors its predecessor left; nothing else of dfu changes. */
  method AddSlots(slotDfu: Scoring, dom: Subsystem, shape: seq<Resource>, qual: nat, dfu: Scoring, ghost n: nat)
    returns (dfu': Scoring, ghost curs: seq<Scoring>)
    requires AllEdgesBelow(slotDfu, n) && AllEdgesBelow(dfu, n)
    ensures SlotsAdded(dfu, dfu', dom, qual, n)
    ensures SlotChain(slotDfu, curs, dfu, dfu', dom, shape)
  {
    dfu' := dfu;
    var cur := slotDfu;
    curs := [slotDfu];
    SlotLoopStart(slotDfu, dom, shape, dfu, n);
    var i := 0;
    while i < qual
      invariant 0 <= i <= qual
      invariant SlotLoop(slotDfu, dom, shape, dfu, n, i, cur, dfu', curs)
    {
      var g, cur';
      ghost var starts, runs;
      g, cur', starts, runs := SlotGroup(cur, dom, shape, i == 0, n);
      SlotLoopStep(slotDfu, dom, shape, dfu, n, i, cur, dfu', curs, g, cur', starts, runs);
      dfu' := Add(dfu', dom, SLOT_TYPE, g);
      curs := curs + [cur'];
      cur := cur';
      i := i + 1;
    }
    SlotLoopDone(slotDfu, dom, shape, dfu, n, qual, cur, dfu', curs);
  }

  // resolve: choosing and checking

  /** A count request whose `select_count` loop ends whatever the qualified
      count: the loop does not run, or it ends against min. */
  ghost predicate CountTerminates(c: Count)
  {
    c.max <= c.min || !Shrinking(c.oper) || (StepOk(c) && Ends(c, c.max, c.min))
  }

  lemma CountTerminatesAlways(c: Count, qc: uint)
    requires CountTerminates(c)
    ensures SelectCountTerminates(c, qc)
  {
    if c.min < c.max && Shrinking(c.oper) && c.min <= qc {
      var k: nat :| Iter(c, c.max, k) <= c.min;
      assert Iter(c, c.max, k) <= qc;
    }
  }

  /** The qualified-count-free criterion holds exactly when select_count
      returns against every qualified count. */
  lemma CountTerminatesExactly(c: Count)
    ensures CountTerminates(c) <==> forall qc: uint :: SelectCountTerminates(c, qc)
  {
    if CountTerminates(c) {
      forall qc: uint
        ensures SelectCountTerminates(c, qc)
      {
        CountTerminatesAlways(c, qc);
      }
    } else {
      assert !SelectCountTerminates(c, c.min);
    }
  }

  /** Every request of type t has a count whose `select_count` loop ends
      whatever the qualified count; `resolve` passes only these requests to
      `select_count`. */
  ghost predicate RootCountsEnd(rs: seq<Resource>, t: string)
  {
    forall i :: 0 <= i < |rs| && rs[i].rtype == t ==> CountTerminates(rs[i].count)
  }

  /** Every request of the root's type gets a non-zero count from the
      amount available at the root. */
  ghost predicate RootCountsOk(rs: seq<Resource>, t: string, qc: uint)
  {
    forall i :: 0 <= i < |rs| && rs[i].rtype == t ==>
      SelectCountTerminates(rs[i].count, qc) && SelectCountSpec(rs[i].count, qc) > 0
  }

  /** The count of the last request of the root's type, or the given needs
      when there is none. */
  function RootNeeds(rs: seq<Resource>, t: string, qc: uint, needs: nat): nat
    requires forall i :: 0 <= i < |rs| && rs[i].rtype == t ==> SelectCountTerminates(rs[i].count, qc)
  {
    if |rs| == 0 then needs
    else if rs[|rs| - 1].rtype == t then SelectCountSpec(rs[|rs| - 1].count, qc)
    else RootNeeds(rs[..|rs| - 1], t, qc, needs)
  }

  /** Every type recorded under every subsystem has a non-zero qualified
      count. */
  predicate AllQualified(d: Scoring, subs: seq<Subsystem>)
  {
    forall i, k :: 0 <= i < |subs| && 0 <= k < |ResrcTypes(d, subs[i])| ==>
      QualifiedCount(d, subs[i], ResrcTypes(d, subs[i])[k]) > 0
  }

  /** All groups of each type of s with no top-K choice are chosen. */
  function ChooseTypes(d: Scoring, s: Subsystem, ts: seq<string>): Scoring
    decreases |ts|
  {
    if |ts| == 0 then d
    else ChooseTypes(if BestK(d, s, ts[0]) then d else ChooseAccumAll(d, s, ts[0]), s, ts[1..])
  }

  /** The same, for every subsystem in turn. */
  function ChooseRest(d: Scoring, subs: seq<Subsystem>): Scoring
    decreases |subs|
  {
    if |subs| == 0 then d
    else ChooseRest(ChooseTypes(d, subs[0], ResrcTypes(d, subs[0])), subs[1..])
  }

  /** Choosing changes only best_i: for each listed type without a top-K
      choice every group becomes chosen, and nothing else is. */
  lemma {:induction false} ChooseTypesEffect(d: Scoring, s: Subsystem, ts: seq<string>)
    ensures var r := ChooseTypes(d, s, ts);
      r.groups == d.groups && r.types == d.types && r.bestK == d.bestK
      && r.avail == d.avail && r.overallScore == d.overallScore
      && forall s', t :: BestI(r, s', t)
           == (if s' == s && t in ts && !BestK(d, s, t) then |Groups(d, s, t)| else BestI(d, s', t))
    decreases |ts|
  {
    if |ts| > 0 {
      var d1 := if BestK(d, s, ts[0]) then d else ChooseAccumAll(d, s, ts[0]);
      ChooseTypesEffect(d1, s, ts[1..]);
      assert forall t :: t in ts <==> t == ts[0] || t in ts[1..];
      assert forall t :: Groups(d1, s, t) == Groups(d, s, t);
    }
  }

  lemma {:induction false} ChooseRestEffect(d: Scoring, subs: seq<Subsystem>)
    ensures var r := ChooseRest(d, subs);
      r.groups == d.groups && r.types == d.types && r.bestK == d.bestK
      && r.avail == d.avail && r.overallScore == d.overallScore
      && forall s, t :: BestI(r, s, t)
           == (if s in subs && t in ResrcTypes(d, s) && !BestK(d, s, t) then |Groups(d, s, t)| else BestI(d, s, t))
    decreases |subs|
  {
    if |subs| > 0 {
      var d1 := ChooseTypes(d, subs[0], ResrcTypes(d, subs[0]));
      ChooseTypesEffect(d, subs[0], ResrcTypes(d, subs[0]));
      ChooseRestEffect(d1, subs[1..]);
      assert d1.groups == d.groups && d1.types == d.types;
      assert forall s :: s in subs <==> s == subs[0] || s in subs[1..];
      forall s, t
        ensures Groups(d1, s, t) == Groups(d, s, t)
      {
      }
      forall s
        ensures ResrcTypes(d1, s) == ResrcTypes(d, s)
      {
      }
    }
  }

  /** After choosing, every recorded group of a type without a top-K
      choice is enforced, and a well-formed aggregator stays well formed,
      so enforcement never overruns. */
  lemma ChooseRestWf(d: Scoring, subs: seq<Subsystem>, n: nat)
    requires Wf(d) && EdgesBelow(d, n)
    ensures Wf(ChooseRest(d, subs)) && EdgesBelow(ChooseRest(d, subs), n)
  {
    ChooseRestEffect(d, subs);
    var r := ChooseRest(d, subs);
    forall k | k in r.chosen
      ensures r.chosen[k] <= |Groups(r, k.0, k.1)|
    {
      assert BestI(r, k.0, k.1) == r.chosen[k];
      assert Groups(r, k.0, k.1) == Groups(d, k.0, k.1);
    }
  }

  /** `enforce` for each subsystem in turn, on the edges. */
  function EnforceAll(es: seq<Edge>, d: Scoring, subs: seq<Subsystem>, gen: nat): seq<Edge>
    decreases |subs|
  {
    if |subs| == 0 then es else EnforceAll(EnforceSpec(es, d, subs[0], gen).1, d, subs[1..], gen)
  }

  /** Enforcing in every subsystem only writes decisions of generation
      gen. */
  lemma {:induction false} EnforceAllMarks(es: seq<Edge>, d: Scoring, subs: seq<Subsystem>, gen: nat)
    ensures MarkedWith(es, EnforceAll(es, d, subs, gen), gen)
    decreases |subs|
  {
    if |subs| > 0 {
      var es1 := EnforceSpec(es, d, subs[0], gen).1;
      MarkAllMarks(es, Written(d, subs[0], ResrcTypes(d, subs[0])), gen);
      EnforceAllMarks(es1, d, subs[1..], gen);
      MarkedWithTrans(es, es1, EnforceAll(es, d, subs, gen), gen);
    }
  }

  // ---------------------------------------------------------------------
  // The update walk, as values
  // ---------------------------------------------------------------------

  /** An edge the update walk follows: a dominant edge whose recorded
      decision belongs to generation gen. */
  predicate Followed(ed: Edge, dom: Subsystem, gen: nat)
  {
    dom in ed.relation.idata.memberOf && ed.relation.idata.bestKCnt == gen
  }

  /** Ranks strictly fall along every followed edge: the chosen dominant
      subtree has no cycle. */
  ghost predicate RankedBy(es: seq<Edge>, rank: seq<nat>, dom: Subsystem, gen: nat)
  {
    forall e :: 0 <= e < |es| && Followed(es[e], dom, gen) ==>
      es[e].src < |rank| && es[e].tgt < |rank| && rank[es[e].tgt] < rank[es[e].src]
  }

  /** A vertex with its bookings (tags, allocations, reservations, subtree
      spans) and its colours forgotten. */
  function Unbooked(p: ResourcePool): ResourcePool
  {
    p.(schedule := p.schedule.(tags := map[], allocations := map[], reservations := map[]),
       idata := p.idata.(job2span := map[], colors := map[]))
  }

  /** m is m0 changed at key k at most, and keeps k when m0 had it. */
  ghost predicate OnlyAt(m0: map<int, int>, m: map<int, int>, k: int)
  {
    m0.Keys <= m.Keys && m - {k} == m0 - {k}
  }

  /** p is p0 with bookings for the job only: a tag that is the job id, an
      entry under allocations when allocating and under reservations
      otherwise, a subtree span entry, and colours. */
  ghost predicate BookedFor(p0: ResourcePool, p: ResourcePool, meta: JobMeta)
  {
    Unbooked(p0) == Unbooked(p)
    && OnlyAt(p0.schedule.tags, p.schedule.tags, meta.jobid)
    && (meta.jobid in p.schedule.tags ==>
          p.schedule.tags[meta.jobid] == meta.jobid
          || (meta.jobid in p0.schedule.tags && p.schedule.tags[meta.jobid] == p0.schedule.tags[meta.jobid]))
    && (!meta.allocate ==> p.schedule.tags == p0.schedule.tags)
    && OnlyAt(p0.schedule.allocations, p.schedule.allocations, meta.jobid)
    && OnlyAt(p0.schedule.reservations, p.schedule.reservations, meta.jobid)
    && (meta.allocate ==> p.schedule.reservations == p0.schedule.reservations)
    && (!meta.allocate ==> p.schedule.allocations == p0.schedule.allocations)
    && OnlyAt(p0.idata.job2span, p.idata.job2span, meta.jobid)
  }

  /** p holds a span of the job: under allocations when allocating, under
      reservations otherwise. */
  predicate BookedAt(p: ResourcePool, meta: JobMeta)
  {
    meta.jobid in (if meta.allocate then p.schedule.allocations else p.schedule.reservations)
  }

  ghost predicate AnyBooked(vs: seq<ResourcePool>, meta: JobMeta)
  {
    exists v :: 0 <= v < |vs| && BookedAt(vs[v], meta)
  }

  /** p is p0 with spans over the job's window appended, and nothing else
      changed. */
  ghost predicate SpansAdded(p0: Planner, p: Planner, meta: JobMeta)
  {
    p.baseTime == p0.baseTime && p.horizon == p0.horizon
    && p.resourceTypes == p0.resourceTypes && p.totals == p0.totals
    && Extends(p0.spans, p.spans)
    && forall k :: |p0.spans| <= k < |p.spans| ==>
         p.spans[k].start == meta.at && p.spans[k].duration == meta.duration
  }

  /** No planner has more of any type in use at any instant than it has. */
  ghost predicate NoOvercommit(ps: seq<Planner>)
  {
    forall h, t, i :: 0 <= h < |ps| && 0 <= i < |ps[h].totals| ==> AvailAt(ps[h], t, i) >= 0
  }

  /** What the update walk may do between two states: book vertices for the
      job, paint them, and append spans over the job's window to planners,
      never over-committing one that was not. */
  ghost predicate Committed(vs0: seq<ResourcePool>, ps0: seq<Planner>, vs: seq<ResourcePool>, ps: seq<Planner>,
                            meta: JobMeta)
  {
    |vs0| == |vs| && (forall v :: 0 <= v < |vs| ==> BookedFor(vs0[v], vs[v], meta))
    && PlannersGrown(ps0, ps, meta)
  }

  /** Every planner only gained spans over the job's window, and none got
      over-committed. */
  ghost predicate PlannersGrown(ps0: seq<Planner>, ps: seq<Planner>, meta: JobMeta)
  {
    |ps0| == |ps| && (forall h :: 0 <= h < |ps| ==> SpansAdded(ps0[h], ps[h], meta))
    && (NoOvercommit(ps0) ==> NoOvercommit(ps))
  }

  /** v is the target of a followed edge. */
  ghost predicate FollowedInto(es: seq<Edge>, v: nat, dom: Subsystem, gen: nat)
  {
    exists e :: 0 <= e < |es| && es[e].tgt == v && Followed(es[e], dom, gen)
  }

  /** Only u and vertices below it, reached along followed edges, changed. */
  ghost predicate TouchedOnly(vs0: seq<ResourcePool>, vs: seq<ResourcePool>, es: seq<Edge>, rank: seq<nat>,
                              u: nat, dom: Subsystem, gen: nat)
  {
    |vs0| == |vs| == |rank| && u < |rank|
    && forall v :: 0 <= v < |vs| && vs[v] != vs0[v] ==>
         v == u || (FollowedInto(es, v, dom, gen) && rank[v] < rank[u])
  }

  /** What `upd_dfv` at u leaves, with n vertices committed and acc0 grown to
      acc: a commitment touching u's chosen subtree only; nothing but colours
      when n is 0, and some vertex booked otherwise. */
  ghost predicate UpdOutcome(vs0: seq<ResourcePool>, ps0: seq<Planner>, vs: seq<ResourcePool>, ps: seq<Planner>,
                             es: seq<Edge>, rank: seq<nat>, u: nat, dom: Subsystem, gen: nat, meta: JobMeta,
                             n: nat, acc0: map<string, int>, acc: map<string, int>)
  {
    Committed(vs0, ps0, vs, ps, meta) && TouchedOnly(vs0, vs, es, rank, u, dom, gen)
    && (n == 0 ==> Recolored(vs0, vs) && ps == ps0 && acc == acc0)
    && (n > 0 ==> AnyBooked(vs, meta))
  }

  lemma CommittedRefl(vs: seq<ResourcePool>, ps: seq<Planner>, meta: JobMeta)
    ensures Committed(vs, ps, vs, ps, meta)
  {
    forall v | 0 <= v < |vs|
      ensures BookedFor(vs[v], vs[v], meta)
    {
      assert vs[v].schedule.tags - {meta.jobid} == vs[v].schedule.tags - {meta.jobid};
    }
  }

  lemma {:induction false} CommittedTrans(vs0: seq<ResourcePool>, ps0: seq<Planner>, vs1: seq<ResourcePool>,
                                          ps1: seq<Planner>, vs: seq<ResourcePool>, ps: seq<Planner>, meta: JobMeta)
    requires Committed(vs0, ps0, vs1, ps1, meta) && Committed(vs1, ps1, vs, ps, meta)
    ensures Committed(vs0, ps0, vs, ps, meta)
  {
    forall v | 0 <= v < |vs|
      ensures BookedFor(vs0[v], vs[v], meta)
    {
      BookedForTrans(vs0[v], vs1[v], vs[v], meta);
    }
    PlannersGrownTrans(ps0, ps1, ps, meta);
  }

  lemma PlannersGrownTrans(ps0: seq<Planner>, ps1: seq<Planner>, ps: seq<Planner>, meta: JobMeta)
    requires PlannersGrown(ps0, ps1, meta) && PlannersGrown(ps1, ps, meta)
    ensures PlannersGrown(ps0, ps, meta)
  {
    forall h | 0 <= h < |ps|
      ensures SpansAdded(ps0[h], ps[h], meta)
    {
      var a, b, c := ps0[h].spans, ps1[h].spans, ps[h].spans;
      assert c[..|a|] == c[..|b|][..|a|];
    }
  }

  /** Adding a span over the job's window to one planner grows the
      planners. */
  lemma AddSpanGrows(ps: seq<Planner>, h: nat, meta: JobMeta, counts: seq<nat>)
    requires h < |ps|
    ensures PlannersGrown(ps, ps[h := AddSpan(ps[h], meta.at, meta.duration, counts).0], meta)
  {
    AddSpanEffect(ps[h], meta.at, meta.duration, counts);
    var ps' := ps[h := AddSpan(ps[h], meta.at, meta.duration, counts).0];
    if NoOvercommit(ps) {
      AddSpanKeepsCapacity(ps[h], meta.at, meta.duration, counts);
    }
    assert ps'[h].spans[..|ps[h].spans|] == ps[h].spans;
  }

  lemma BookedForTrans(p0: ResourcePool, p1: ResourcePool, p: ResourcePool, meta: JobMeta)
    requires BookedFor(p0, p1, meta) && BookedFor(p1, p, meta)
    ensures BookedFor(p0, p, meta)
  {
  }

  /** A recolouring commits nothing, and keeps everything the walk reads. */
  lemma RecoloredCommits(vs0: seq<ResourcePool>, vs: seq<ResourcePool>, ps: seq<Planner>, meta: JobMeta)
    requires Recolored(vs0, vs)
    ensures Committed(vs0, ps, vs, ps, meta)
  {
    CommittedRefl(vs0, ps, meta);
    forall v | 0 <= v < |vs|
      ensures BookedFor(vs0[v], vs[v], meta)
    {
      assert Uncolored(vs0[v]) == Uncolored(vs[v]);
      assert vs[v].schedule == vs0[v].schedule && vs[v].idata.job2span == vs0[v].idata.job2span;
      assert BookedFor(vs0[v], vs0[v], meta);
    }
  }

  /** A booking, once made, stays. */
  lemma BookedStays(vs0: seq<ResourcePool>, ps0: seq<Planner>, vs: seq<ResourcePool>, ps: seq<Planner>, meta: JobMeta)
    requires Committed(vs0, ps0, vs, ps, meta) && AnyBooked(vs0, meta)
    ensures AnyBooked(vs, meta)
  {
    var v :| 0 <= v < |vs0| && BookedAt(vs0[v], meta);
    assert BookedFor(vs0[v], vs[v], meta);
    assert BookedAt(vs[v], meta);
  }

  /** A commitment leaves the graph well formed. */
  lemma CommittedKeepsGraphOk(vs0: seq<ResourcePool>, ps0: seq<Planner>, vs: seq<ResourcePool>, ps: seq<Planner>,
                              es: seq<Edge>, meta: JobMeta)
    requires GraphOk(vs0, es, ps0) && Committed(vs0, ps0, vs, ps, meta)
    ensures GraphOk(vs, es, ps)
  {
    forall v | 0 <= v < |vs|
      ensures vs[v].schedule.plans == vs0[v].schedule.plans && vs[v].idata.subplans == vs0[v].idata.subplans
    {
      assert BookedFor(vs0[v], vs[v], meta);
      assert Unbooked(vs0[v]).schedule.plans == Unbooked(vs[v]).schedule.plans;
      assert Unbooked(vs0[v]).idata.subplans == Unbooked(vs[v]).idata.subplans;
    }
  }

  /** The outcome of a child's walk, reached through a followed edge out of
      u, adds to the outcome at u so far. */
  lemma UpdOutcomeTrans(vs0: seq<ResourcePool>, ps0: seq<Planner>, vs1: seq<ResourcePool>, ps1: seq<Planner>,
                        vs: seq<ResourcePool>, ps: seq<Planner>, es: seq<Edge>, rank: seq<nat>,
                        u: nat, e: nat, dom: Subsystem, gen: nat, meta: JobMeta,
                        n1: nat, n2: nat, acc0: map<string, int>, acc1: map<string, int>, acc: map<string, int>)
    requires e < |es| && es[e].src == u && Followed(es[e], dom, gen) && RankedBy(es, rank, dom, gen)
    requires UpdOutcome(vs0, ps0, vs1, ps1, es, rank, u, dom, gen, meta, n1, acc0, acc1)
    requires UpdOutcome(vs1, ps1, vs, ps, es, rank, es[e].tgt, dom, gen, meta, n2, acc1, acc)
    ensures UpdOutcome(vs0, ps0, vs, ps, es, rank, u, dom, gen, meta, n1 + n2, acc0, acc)
  {
    CommittedTrans(vs0, ps0, vs1, ps1, vs, ps, meta);
    var tgt := es[e].tgt;
    assert FollowedInto(es, tgt, dom, gen);
    forall v | 0 <= v < |vs| && vs[v] != vs0[v]
      ensures v == u || (FollowedInto(es, v, dom, gen) && rank[v] < rank[u])
    {
      if vs[v] == vs1[v] {
      } else {
        assert v == tgt || (FollowedInto(es, v, dom, gen) && rank[v] < rank[tgt]);
      }
    }
    if n1 + n2 == 0 {
      RecoloredTrans(vs0, vs1, vs);
    } else if n2 == 0 {
      assert Recolored(vs1, vs);
      BookedStays(vs1, ps1, vs, ps, meta);
    } else {
    }
  }

  /** The first half of `updcore`, as values: an exclusive vertex adds a
      span of its needs to its own planner and passes its type's needs up;
      the span's id (or -1) is kept for the booking. */
  ghost function OwnEffect(vs: seq<ResourcePool>, ps: seq<Planner>, sdau: map<Subsystem, set<string>>,
                           u: nat, s: Subsystem, needs: nat, excl: bool, meta: JobMeta, acc: map<string, int>)
    : (seq<Planner>, int, map<string, int>)
    requires u < |vs| && 0 <= vs[u].schedule.plans < |ps|
  {
    var own := vs[u].schedule.plans;
    var added := AddSpan(ps[own], meta.at, meta.duration, [needs]);
    if excl then (ps[own := added.0], added.1, AccumIf(sdau, s, vs[u].rtype, needs, acc).1)
    else (ps, -1, acc)
  }

  /** The second half of `updcore`, as values: when something was committed
      at or below u (n > 0), the vertex is tagged (when allocating), the
      exclusive span is recorded, the child counts are planned on the
      subtree planner (when there is one and there are counts) and passed
      up; otherwise nothing happens. */
  ghost function BookEffect(vs: seq<ResourcePool>, ps: seq<Planner>, sdau: map<Subsystem, set<string>>,
                            u: nat, s: Subsystem, excl: bool, n: nat, span: int, meta: JobMeta,
                            dfu: map<string, int>, acc: map<string, int>)
    : (seq<ResourcePool>, seq<Planner>, map<string, int>)
    requires u < |vs| && SubplansOk(vs[u].idata, |ps|)
  {
    if n == 0 then (vs, ps, acc)
    else
      var p := vs[u];
      var h := SubplanOf(p.idata, s);
      var sub := 0 <= h && dfu != map[];
      var agg := if sub then AggregateOf(ps[h].resourceTypes, dfu) else [];
      var sched := p.schedule.(
        tags := if meta.allocate then p.schedule.tags[meta.jobid := meta.jobid] else p.schedule.tags,
        allocations := if excl && meta.allocate then p.schedule.allocations[meta.jobid := span]
                       else p.schedule.allocations,
        reservations := if excl && !meta.allocate then p.schedule.reservations[meta.jobid := span]
                        else p.schedule.reservations);
      var j2s := if sub then p.idata.job2span[meta.jobid := AddSpan(ps[h], meta.at, meta.duration, agg).1]
                 else p.idata.job2span;
      (vs[u := p.(schedule := sched, idata := p.idata.(job2span := j2s))],
       if sub then ps[h := AddSpan(ps[h], meta.at, meta.duration, agg).0] else ps,
       AccumAll(sdau, s, acc, dfu))
  }

  /** `updcore`, as values: its two halves in turn, the count of committed
      vertices grown by one for an exclusive u. */
  ghost function CoreEffect(vs: seq<ResourcePool>, ps: seq<Planner>, sdau: map<Subsystem, set<string>>,
                            u: nat, s: Subsystem, needs: nat, excl: bool, n: nat, meta: JobMeta,
                            dfu: map<string, int>, acc: map<string, int>)
    : (seq<ResourcePool>, seq<Planner>, map<string, int>)
    requires u < |vs| && 0 <= vs[u].schedule.plans < |ps| && SubplansOk(vs[u].idata, |ps|)
  {
    var (ps1, span, acc1) := OwnEffect(vs, ps, sdau, u, s, needs, excl, meta, acc);
    BookEffect(vs, ps1, sdau, u, s, excl, n + (if excl then 1 else 0), span, meta, dfu, acc1)
  }

  /** The booking keeps the graph well formed, the colours, and the number
      of planners. */
  lemma BookEffectKeeps(vs: seq<ResourcePool>, es: seq<Edge>, ps: seq<Planner>, sdau: map<Subsystem, set<string>>,
                        u: nat, s: Subsystem, excl: bool, n: nat, span: int, meta: JobMeta,
                        dfu: map<string, int>, acc: map<string, int>)
    requires GraphOk(vs, es, ps) && u < |vs|
    ensures var (vs', ps', acc') := BookEffect(vs, ps, sdau, u, s, excl, n, span, meta, dfu, acc);
      GraphOk(vs', es, ps') && |ps'| == |ps| && |vs'| == |vs|
      && forall v :: 0 <= v < |vs| ==> vs'[v].idata.colors == vs[v].idata.colors
  {
  }

  /** `updcore` books vertex u for the job and nothing else; it commits
      nothing when u is not exclusive and nothing below it was. An
      exclusive vertex is booked under the job, with the id of the span of
      its needs when that fits its own planner; a committed vertex is
      tagged with the job id when allocating; the parent's accumulator
      gains u's needs for its type, when exclusive, and every child count,
      when committed, for the types the subsystem tracks. */
  lemma CoreEffectMeans(vs: seq<ResourcePool>, ps: seq<Planner>, sdau: map<Subsystem, set<string>>,
                        u: nat, s: Subsystem, needs: nat, excl: bool, n: nat, meta: JobMeta,
                        dfu: map<string, int>, acc: map<string, int>)
    requires u < |vs| && 0 <= vs[u].schedule.plans < |ps| && SubplansOk(vs[u].idata, |ps|)
    ensures var (vs', ps', acc') := CoreEffect(vs, ps, sdau, u, s, needs, excl, n, meta, dfu, acc);
      var own := vs[u].schedule.plans;
      Committed(vs, ps, vs', ps', meta)
      && |vs'| == |vs| && (forall v :: 0 <= v < |vs| && v != u ==> vs'[v] == vs[v])
      && vs'[u].idata.colors == vs[u].idata.colors
      && (!excl && n == 0 ==> vs' == vs && ps' == ps && acc' == acc)
      && (excl ==> BookedAt(vs'[u], meta))
      && (excl && Fits(ps[own], meta.at, meta.duration, [needs]) ==>
            (if meta.allocate then vs'[u].schedule.allocations else vs'[u].schedule.reservations)[meta.jobid]
              == |ps[own].spans|
            && |ps'[own].spans| > |ps[own].spans|
            && ps'[own].spans[|ps[own].spans|] == Span(meta.at, meta.duration, [needs]))
      && ((excl || n > 0) && meta.allocate ==>
            meta.jobid in vs'[u].schedule.tags && vs'[u].schedule.tags[meta.jobid] == meta.jobid)
      && ((excl || n > 0) && 0 <= SubplanOf(vs[u].idata, s) && dfu != map[] ==>
            meta.jobid in vs'[u].idata.job2span)
      && (forall t :: Get(acc', t) == Get(acc, t)
            + (if excl && t == vs[u].rtype && t in Tracked(sdau, s) then needs else 0)
            + (if (excl || n > 0) && t in dfu && t in Tracked(sdau, s) then ToUint32(dfu[t]) else 0))
  {
    var own := vs[u].schedule.plans;
    var (ps1, span, acc1) := OwnEffect(vs, ps, sdau, u, s, needs, excl, meta, acc);
    OwnEffectMeans(vs, ps, sdau, u, s, needs, excl, meta, acc);
    BookEffectMeans(vs, ps1, sdau, u, s, excl, n + (if excl then 1 else 0), span, meta, dfu, acc1);
    var (vs', ps', acc') := BookEffect(vs, ps1, sdau, u, s, excl, n + (if excl then 1 else 0), span, meta, dfu, acc1);
    CommittedRefl(vs, ps, meta);
    assert Committed(vs, ps, vs, ps1, meta);
    CommittedTrans(vs, ps, vs, ps1, vs', ps', meta);
    assert SpansAdded(ps1[own], ps'[own], meta);
  }

  /** The first half of `updcore` only adds a span of the needs to the
      vertex's own planner, when exclusive, and passes the needs of its
      type up. */
  lemma OwnEffectMeans(vs: seq<ResourcePool>, ps: seq<Planner>, sdau: map<Subsystem, set<string>>,
                       u: nat, s: Subsystem, needs: nat, excl: bool, meta: JobMeta, acc: map<string, int>)
    requires u < |vs| && 0 <= vs[u].schedule.plans < |ps|
    ensures var (ps1, span, acc1) := OwnEffect(vs, ps, sdau, u, s, needs, excl, meta, acc);
      var own := vs[u].schedule.plans;
      PlannersGrown(ps, ps1, meta)
      && (!excl ==> ps1 == ps && span == -1 && acc1 == acc)
      && (excl && Fits(ps[own], meta.at, meta.duration, [needs]) ==>
            span == |ps[own].spans| && |ps1[own].spans| == |ps[own].spans| + 1
            && ps1[own].spans[|ps[own].spans|] == Span(meta.at, meta.duration, [needs]))
      && (forall t :: Get(acc1, t) == Get(acc, t)
            + (if excl && t == vs[u].rtype && t in Tracked(sdau, s) then needs else 0))
  {
    var own := vs[u].schedule.plans;
    AccumIfEffect(sdau, s, vs[u].rtype, needs, acc);
    AddSpanEffect(ps[own], meta.at, meta.duration, [needs]);
    if excl {
      AddSpanGrows(ps, own, meta, [needs]);
    } else {
      CommittedRefl(vs, ps, meta);
    }
  }

  /** The second half of `updcore` books vertex u for the job and changes
      no other vertex; with nothing committed it changes nothing at all. A
      committed vertex is tagged with the job id when allocating, holds the
      exclusive span under the job, holds a subtree span entry when it has
      a subtree planner and there are child counts, and passes every child
      count up for the types the subsystem tracks. */
  lemma BookEffectMeans(vs: seq<ResourcePool>, ps: seq<Planner>, sdau: map<Subsystem, set<string>>,
                        u: nat, s: Subsystem, excl: bool, n: nat, span: int, meta: JobMeta,
                        dfu: map<string, int>, acc: map<string, int>)
    requires u < |vs| && SubplansOk(vs[u].idata, |ps|)
    ensures var (vs', ps', acc') := BookEffect(vs, ps, sdau, u, s, excl, n, span, meta, dfu, acc);
      Committed(vs, ps, vs', ps', meta)
      && |vs'| == |vs| && (forall v :: 0 <= v < |vs| && v != u ==> vs'[v] == vs[v])
      && vs'[u].idata.colors == vs[u].idata.colors
      && (n == 0 ==> vs' == vs && ps' == ps && acc' == acc)
      && (n > 0 && excl ==>
            meta.jobid in (if meta.allocate then vs'[u].schedule.allocations else vs'[u].schedule.reservations)
            && (if meta.allocate then vs'[u].schedule.allocations else vs'[u].schedule.reservations)[meta.jobid]
                 == span)
      && (n > 0 && meta.allocate ==>
            meta.jobid in vs'[u].schedule.tags && vs'[u].schedule.tags[meta.jobid] == meta.jobid)
      && (n > 0 && 0 <= SubplanOf(vs[u].idata, s) && dfu != map[] ==> meta.jobid in vs'[u].idata.job2span)
      && (forall t :: Get(acc', t) == Get(acc, t)
            + (if n > 0 && t in dfu && t in Tracked(sdau, s) then ToUint32(dfu[t]) else 0))
  {
    CommittedRefl(vs, ps, meta);
    if n > 0 {
      var (vs', ps', acc') := BookEffect(vs, ps, sdau, u, s, excl, n, span, meta, dfu, acc);
      var p := vs[u];
      var h := SubplanOf(p.idata, s);
      if 0 <= h && dfu != map[] {
        AddSpanGrows(ps, h, meta, AggregateOf(ps[h].resourceTypes, dfu));
      }
      var q := vs'[u];
      assert q.schedule.tags - {meta.jobid} == p.schedule.tags - {meta.jobid};
      assert q.schedule.allocations - {meta.jobid} == p.schedule.allocations - {meta.jobid};
      assert q.schedule.reservations - {meta.jobid} == p.schedule.reservations - {meta.jobid};
      assert q.idata.job2span - {meta.jobid} == p.idata.job2span - {meta.jobid};
      assert BookedFor(p, q, meta);
      forall v | 0 <= v < |vs|
        ensures BookedFor(vs[v], vs'[v], meta)
      {
        if v != u {
          assert vs'[v] == vs[v];
        }
      }
    }
  }

  /** The end of `upd_dfv` at u: after its children's walk, u is painted
      and booked by `updcore`; together they are u's outcome, and an
      exclusive u commits something. */
  lemma UpdLeaveOutcome(vs0: seq<ResourcePool>, ps0: seq<Planner>, vs1: seq<ResourcePool>, ps1: seq<Planner>,
                        vs2: seq<ResourcePool>, vs: seq<ResourcePool>, ps: seq<Planner>,
                        sdau: map<Subsystem, set<string>>, es: seq<Edge>, rank: seq<nat>, u: nat,
                        dom: Subsystem, gen: nat, meta: JobMeta, needs: nat, excl: bool, n0: nat,
                        dfu: map<string, int>, acc0: map<string, int>, acc: map<string, int>)
    requires UpdOutcome(vs0, ps0, vs1, ps1, es, rank, u, dom, gen, meta, n0, map[], dfu)
    requires u < |vs1| && Recolored(vs1, vs2) && (forall v :: 0 <= v < |vs1| && v != u ==> vs2[v] == vs1[v])
    requires 0 <= vs2[u].schedule.plans < |ps1| && SubplansOk(vs2[u].idata, |ps1|)
    requires (vs, ps, acc) == CoreEffect(vs2, ps1, sdau, u, dom, needs, excl, n0, meta, dfu, acc0)
    ensures UpdOutcome(vs0, ps0, vs, ps, es, rank, u, dom, gen, meta, n0 + (if excl then 1 else 0), acc0, acc)
  {
    CoreEffectMeans(vs2, ps1, sdau, u, dom, needs, excl, n0, meta, dfu, acc0);
    RecoloredCommits(vs1, vs2, ps1, meta);
    CommittedTrans(vs1, ps1, vs2, ps1, vs, ps, meta);
    CommittedTrans(vs0, ps0, vs1, ps1, vs, ps, meta);
    forall v | 0 <= v < |vs| && vs[v] != vs0[v]
      ensures v == u || (FollowedInto(es, v, dom, gen) && rank[v] < rank[u])
    {
      if v != u {
        assert vs[v] == vs1[v];
      }
    }
    if !excl && n0 == 0 {
      RecoloredTrans(vs0, vs1, vs2);
    } else if !excl {
      BookedStays(vs1, ps1, vs, ps, meta);
    } else {
      assert BookedAt(vs[u], meta);
    }
  }

  /** `++` on an unsigned int: UINT_MAX wraps around to 0. */
  function IncLevel(t: uint): (r: uint)
    ensures r == (t + 1) % UINT_LIMIT
  {
    if t == UINT_MAX then 0 else t + 1
  }

  /** `--` on an unsigned int: 0 wraps around to UINT_MAX. */
  function DecLevel(t: uint): (r: uint)
    ensures r == (t - 1) % UINT_LIMIT
  {
    if t == 0 then UINT_MAX else t - 1
  }

  /** The traversal level, raised and then lowered, is back where it
      was. */
  lemma LevelRestored(t: uint)
    ensures DecLevel(IncLevel(t)) == t
  {
  }

  // ---------------------------------------------------------------------
  // The traverser
  // ---------------------------------------------------------------------

  class DfuImpl {
    const graph: ResourceGraph
    const cb: DfuMatchCb
    const roots: map<Subsystem, nat>
    var bestKCnt: nat
    var colorBase: nat
    var travLevel: uint

    /** The graph is well formed, there is a dominant subsystem, no colour is
        ahead of the current epoch, and every root is a vertex. */
    ghost predicate Valid()
      reads this, graph, cb.data
    {
      graph.Valid() && cb.data.Valid()
      && ColorsBelow(graph.vertices, colorBase)
      && (forall s :: s in roots ==> roots[s] < |graph.vertices|)
    }

    /** The (vertex, subsystem) pairs a walk may still visit. */
    ghost function Visitable(): set<(nat, Subsystem)>
      reads this, graph, cb.data
    {
      Unvisited(graph.vertices, cb.data.subsystems, colorBase)
    }

    function Dom(): Subsystem
      requires |cb.data.subsystems| > 0
      reads cb.data
    {
      cb.data.DomSubsystem()
    }

    constructor (g: ResourceGraph, m: DfuMatchCb, roots: map<Subsystem, nat>)
      ensures graph == g && cb == m && this.roots == roots
      ensures bestKCnt == 0 && colorBase == 0 && travLevel == 0
    {
      graph, cb, this.roots := g, m, roots;
      bestKCnt, colorBase, travLevel := 0, 0, 0;
    }

    /** The copy constructor shares the graph, the callback and the roots and
        copies the counters. */
    constructor Copy(o: DfuImpl)
      ensures graph == o.graph && cb == o.cb && roots == o.roots
      ensures bestKCnt == o.bestKCnt && colorBase == o.colorBase && travLevel == o.travLevel
    {
      graph, cb, roots := o.graph, o.cb, o.roots;
      bestKCnt, colorBase, travLevel := o.bestKCnt, o.colorBase, o.travLevel;
    }

    /** `tick`: a new match generation and a new colour epoch, in which every
        vertex is white again. */
    method Tick()
      requires Valid()
      modifies this
      ensures Valid()
      ensures bestKCnt == old(bestKCnt) + 1 && colorBase == Reset(old(colorBase))
      ensures travLevel == old(travLevel)
      ensures forall v, s :: 0 <= v < |graph.vertices| ==> IsWhite(ColorOf(graph.vertices[v].idata, s), colorBase)
    {
      ResetWhitens(graph.vertices, colorBase);
      bestKCnt := bestKCnt + 1;
      colorBase := Reset(colorBase);
    }

    /** `tick_color_base`: a new colour epoch only. */
    method TickColorBase()
      requires Valid()
      modifies this
      ensures Valid()
      ensures bestKCnt == old(bestKCnt) && colorBase == Reset(old(colorBase))
      ensures travLevel == old(travLevel)
      ensures forall v, s :: 0 <= v < |graph.vertices| ==> IsWhite(ColorOf(graph.vertices[v].idata, s), colorBase)
    {
      ResetWhitens(graph.vertices, colorBase);
      colorBase := Reset(colorBase);
    }

    /** `in_subsystem`. */
    predicate InSubsystem(e: nat, s: Subsystem)
      requires e < |graph.edges|
      reads graph
    {
      s in graph.edges[e].relation.idata.memberOf
    }

    /** `stop_explore`: the target is gray or black in the current epoch. */
    predicate StopExplore(e: nat, s: Subsystem)
      requires graph.Valid() && e < |graph.edges|
      reads this, graph
    {
      var c := ColorOf(graph.vertices[graph.edges[e].tgt].idata, s);
      c == Gray(colorBase) || c == Black(colorBase)
    }

    /** The descent filter admits exactly the edges whose target is still
        white. */
    lemma NotStoppedIsWhite(e: nat, s: Subsystem)
      requires Valid() && e < |graph.edges|
      ensures !StopExplore(e, s) <==> IsWhite(ColorOf(graph.vertices[graph.edges[e].tgt].idata, s), colorBase)
    {
    }

    /** The walks' test on an out-edge of u is `Eligible` on the current
        graph; an edge that passes it witnesses that u had something
        eligible at any earlier point of the walk. */
    lemma EligibleNow(u: nat, e: nat, s: Subsystem, vs0: seq<ResourcePool>, es0: seq<Edge>, ps0: seq<Planner>)
      requires Valid() && e < |graph.edges| && s in cb.data.subsystems
      requires MatchStep(vs0, es0, ps0, graph.vertices, graph.edges, graph.planners,
                         cb.data.subsystems, colorBase, bestKCnt)
      ensures (graph.edges[e].src == u && InSubsystem(e, s) && !StopExplore(e, s))
              <==> (graph.edges[e].src == u && Eligible(graph.vertices, graph.edges, e, s, colorBase))
      ensures graph.edges[e].src == u && Eligible(graph.vertices, graph.edges, e, s, colorBase) ==>
                HasEligible(vs0, es0, u, s, colorBase)
    {
      NotStoppedIsWhite(e, s);
      if graph.edges[e].src == u && Eligible(graph.vertices, graph.edges, e, s, colorBase) {
        EligibleEarlier(vs0, es0, graph.vertices, graph.edges, e, s, cb.data.subsystems, colorBase);
      }
    }

    /** `exclusivity`: some request of the vertex's type is exclusive. */
    method Exclusivity(resources: seq<Resource>, u: nat) returns (x: bool)
      requires u < |graph.vertices|
      ensures x <==> AnyExclusive(resources, graph.vertices[u].rtype)
    {
      x := false;
      var i := 0;
      while i < |resources|
        invariant 0 <= i <= |resources|
        invariant x <==> AnyExclusive(resources[..i], graph.vertices[u].rtype)
      {
        assert resources[..i + 1] == resources[..i] + [resources[i]];
        if resources[i].rtype == graph.vertices[u].rtype && resources[i].exclusive {
          x := true;
        }
        i := i + 1;
      }
      assert resources[..i] == resources;
    }

    /** `exclusivity` of the older traverser: the last request of the
        vertex's type decides. */
    method ExclusivityLegacy(resources: seq<Resource>, u: nat) returns (x: bool)
      requires u < |graph.vertices|
      ensures x == LastExclusive(resources, graph.vertices[u].rtype)
    {
      x := false;
      var i := 0;
      while i < |resources|
        invariant 0 <= i <= |resources|
        invariant x == LastExclusive(resources[..i], graph.vertices[u].rtype)
      {
        assert resources[..i + 1][..i] == resources[..i];
        if resources[i].rtype == graph.vertices[u].rtype {
          x := resources[i].exclusive;
        }
        i := i + 1;
      }
      assert resources[..i] == resources;
    }

    /** `count`: the demand a planner is asked for, one entry per planner
        resource type in planner order; a NULL planner has none. */
    method Count(h: PlannerRef, lookup: map<string, int>) returns (agg: seq<nat>)
      ensures agg == (if 0 <= h < |graph.planners| then AggregateOf(graph.planners[h].resourceTypes, lookup) else [])
    {
      agg := [];
      if !(0 <= h < |graph.planners|) {
        return;
      }
      var types := graph.planners[h].resourceTypes;
      var i := 0;
      while i < |types|
        invariant 0 <= i <= |types|
        invariant agg == AggregateOf(types[..i], lookup)
      {
        agg := agg + [if types[i] in lookup then ToUint64(lookup[types[i]]) else 0];
        i := i + 1;
        assert types[..i][..i - 1] == types[..i - 1];
      }
      assert types[..i] == types;
    }

    /** What the vertex's own planner reports available of its one type over
        the request's window. */
    function OwnAvail(meta: JobMeta, u: nat): int
      requires graph.Valid() && u < |graph.vertices|
      reads graph
    {
      AvailResourcesDuring(graph.planners[graph.vertices[u].schedule.plans], meta.at, meta.duration, 0)
    }

    /** A request of the vertex's type that prunes it: by tag, when an
        exclusive allocation meets a vertex some job already holds, or by the
        subtree planner, when the request's aggregate does not fit over the
        window. */
    predicate PrunedBy(meta: JobMeta, excl: bool, s: Subsystem, u: nat, r: Resource)
      requires graph.Valid() && u < |graph.vertices|
      reads graph
    {
      var p := graph.vertices[u];
      var h := SubplanOf(p.idata, s);
      r.rtype == p.rtype
      && ((meta.allocate && excl && p.schedule.tags != map[])
          || (r.userData != map[] && 0 <= h < |graph.planners|
              && |graph.planners[h].resourceTypes| > 0
              && AvailDuring(graph.planners[h], meta.at, meta.duration,
                             AggregateOf(graph.planners[h].resourceTypes, r.userData)) != 0))
    }

    predicate PruneSpec(meta: JobMeta, excl: bool, s: Subsystem, u: nat, resources: seq<Resource>)
      requires graph.Valid() && u < |graph.vertices|
      reads graph
    {
      OwnAvail(meta, u) == 0
      || exists i :: 0 <= i < |resources| && PrunedBy(meta, excl, s, u, resources[i])
    }

    /** `prune`. */
    method Prune(meta: JobMeta, excl: bool, s: Subsystem, u: nat, resources: seq<Resource>) returns (pruned: bool)
      requires graph.Valid() && u < |graph.vertices|
      ensures pruned == PruneSpec(meta, excl, s, u, resources)
    {
      var p := graph.vertices[u];
      var avail := AvailResourcesDuring(graph.planners[p.schedule.plans], meta.at, meta.duration, 0);
      if avail == 0 {
        return true;
      }
      var i := 0;
      while i < |resources|
        invariant 0 <= i <= |resources|
        invariant forall j :: 0 <= j < i ==> !PrunedBy(meta, excl, s, u, resources[j])
      {
        var r := resources[i];
        if p.rtype == r.rtype {
          if meta.allocate && excl && p.schedule.tags != map[] {
            return true;
          }
          if r.userData != map[] {
            var h := SubplanOf(p.idata, s);
            var aggs := Count(h, r.userData);
            if |aggs| > 0 && AvailDuring(graph.planners[h], meta.at, meta.duration, aggs) != 0 {
              return true;
            }
          }
        }
        i := i + 1;
      }
      return false;
    }

    /** `subtree_plan`: a planner over the vertex's own planner's base time
        and horizon for the given totals and types, added to the arena; NULL
        when the planner cannot be made. */
    method SubtreePlan(u: nat, av: seq<nat>, tp: seq<string>) returns (h: PlannerRef)
      requires graph.Valid() && u < |graph.vertices|
      modifies graph
      ensures colorBase == old(colorBase) && bestKCnt == old(bestKCnt) && cb.data.subsystems == old(cb.data.subsystems)
      ensures graph.vertices == old(graph.vertices) && graph.edges == old(graph.edges)
      ensures var own := old(graph.planners)[graph.vertices[u].schedule.plans];
        var p := PlannerNew(own.baseTime, own.horizon, av, tp);
        (p.None? ==> h == NO_PLANNER && graph.planners == old(graph.planners))
        && (p.Some? ==> h == |old(graph.planners)| && graph.planners == old(graph.planners) + [p.value])
    {
      var own := graph.planners[graph.vertices[u].schedule.plans];
      var p := PlannerNew(own.baseTime, own.horizon, av, tp);
      if p.None? {
        return NO_PLANNER;
      }
      h := graph.AddPlanner(p.value);
    }

    /** `match`: the first request of the vertex's type is matched (with the
        last slot among its children), unless a slot request comes first. */
    method Match(u: nat, resources: seq<Resource>) returns (slot: Option<Resource>, matched: Option<Resource>)
      requires u < |graph.vertices|
      ensures (slot, matched) == MatchOf(resources, graph.vertices[u].rtype)
    {
      var t := graph.vertices[u].rtype;
      slot, matched := None, None;
      var i := 0;
      while i < |resources|
        invariant 0 <= i <= FirstHit(resources, t)
        invariant slot.None? && matched.None?
      {
        var r := resources[i];
        if r.rtype == t {
          assert FirstHit(resources, t) == i;
          matched := Some(r);
          slot := SlotAmong(r.with);
          return;
        } else if r.rtype == SLOT_TYPE {
          assert FirstHit(resources, t) == i;
          slot := Some(r);
          return;
        }
        FirstHitSkips(resources, t, i);
        i := i + 1;
      }
    }

    /** The loop of `match` over the matched request's children: the last
        of them of type slot. */
    static method SlotAmong(rs: seq<Resource>) returns (slot: Option<Resource>)
      ensures slot == LastSlot(rs)
    {
      slot := None;
      var k := 0;
      while k < |rs|
        invariant 0 <= k <= |rs|
        invariant slot == LastSlot(rs[..k])
      {
        assert rs[..k + 1][..k] == rs[..k];
        if rs[k].rtype == SLOT_TYPE {
          slot := Some(rs[k]);
        }
        k := k + 1;
      }
      assert rs[..k] == rs;
    }

    /** `slot_match`: there is a slot, and each of its children's types is
        the type of some out-edge target of u (in any subsystem). */
    method SlotMatch(u: nat, slot: Option<Resource>) returns (ok: bool)
      requires graph.Valid() && u < |graph.vertices|
      ensures ok <==> slot.Some? && SlotFits(graph.vertices, graph.edges, u, slot.value.with)
    {
      if slot.None? {
        return false;
      }
      var shape := slot.value.with;
      var c := 0;
      while c < |shape|
        invariant 0 <= c <= |shape|
        invariant forall c' :: 0 <= c' < c ==> HasChildOfType(graph.vertices, graph.edges, u, shape[c'].rtype)
      {
        var e := 0;
        var found := false;
        while e < |graph.edges| && !found
          invariant 0 <= e <= |graph.edges|
          invariant found ==> HasChildOfType(graph.vertices, graph.edges, u, shape[c].rtype)
          invariant !found ==> forall e' :: 0 <= e' < e ==>
                      !(graph.edges[e'].src == u && graph.vertices[graph.edges[e'].tgt].rtype == shape[c].rtype)
        {
          if graph.edges[e].src == u && graph.vertices[graph.edges[e].tgt].rtype == shape[c].rtype {
            found := true;
          }
          e := e + 1;
        }
        if !found {
          return false;
        }
        c := c + 1;
      }
      return true;
    }

    /** `test`: SLOT_MATCH with the slot's children to match next, else
        RESOURCE_MATCH with the matched request's children, else NO_MATCH
        with the requests unchanged. */
    method Test(u: nat, resources: seq<Resource>) returns (kind: MatchKind, next: seq<Resource>)
      requires graph.Valid() && u < |graph.vertices|
      ensures var (slot, matched) := MatchOf(resources, graph.vertices[u].rtype);
        (kind == SlotKind <==> slot.Some? && SlotFits(graph.vertices, graph.edges, u, slot.value.with))
        && (kind == SlotKind ==> next == slot.value.with)
        && (kind == ResourceKind <==> kind != SlotKind && matched.Some?)
        && (kind == ResourceKind ==> next == matched.value.with)
        && (kind == NoKind ==> next == resources)
      ensures (kind, next) == TestOf(graph.vertices, graph.edges, u, resources)
    {
      var slot, matched := Match(u, resources);
      var ok := SlotMatch(u, slot);
      if ok {
        kind, next := SlotKind, slot.value.with;
      } else if matched.Some? {
        kind, next := ResourceKind, matched.value.with;
      } else {
        kind, next := NoKind, resources;
      }
    }
    /** Paint u with a colour of the current epoch for subsystem s. */
    method Color(u: nat, s: Subsystem, c: nat)
      requires Valid() && u < |graph.vertices| && colorBase < c <= Black(colorBase)
      modifies graph
      ensures colorBase == old(colorBase) && bestKCnt == old(bestKCnt) && cb.data.subsystems == old(cb.data.subsystems)
      ensures Valid()
      ensures graph.vertices == old(graph.vertices)[u := Recolor(old(graph.vertices)[u], s, c)]
      ensures graph.edges == old(graph.edges) && graph.planners == old(graph.planners)
      ensures Recolored(old(graph.vertices), graph.vertices)
      ensures forall subs :: Unvisited(graph.vertices, subs, colorBase)
                             == Unvisited(old(graph.vertices), subs, colorBase) - {(u, s)}
    {
      forall subs
        ensures Unvisited(old(graph.vertices)[u := Recolor(old(graph.vertices)[u], s, c)], subs, colorBase)
                == Unvisited(old(graph.vertices), subs, colorBase) - {(u, s)}
      {
        Paint(graph.vertices, u, s, c, subs, colorBase);
      }
      Paint(graph.vertices, u, s, c, [], colorBase);
      graph.SetColor(u, s, c);
      WalkKeepsGraphOk(old(graph.vertices), graph.edges, graph.vertices, graph.edges, graph.planners);
    }

    /** `accum_if` of every entry of m, in the map's order. */
    method AccumEach(s: Subsystem, m: map<string, int>, acc: map<string, int>) returns (r: map<string, int>)
      ensures r == AccumAll(cb.data.sdauResourceTypes, s, acc, m)
    {
      var sdau := cb.data.sdauResourceTypes;
      r := acc;
      var rest := m;
      while rest != map[]
        invariant AccumAll(sdau, s, r, rest) == AccumAll(sdau, s, acc, m)
        decreases |rest|
      {
        var k :| k in rest;
        AccumAllStep(sdau, s, r, rest, k);
        r := AccumIf(sdau, s, k, ToUint32(rest[k]), r).1;
        rest := rest - {k};
      }
      AccumAllBasics(sdau, s, r, rest);
    }

    /** The types and totals of a subtree planner over dfv, one entry per
        key in the map's order. */
    method AggregateList(dfv: map<string, int>) returns (types: seq<string>, avail: seq<nat>)
      ensures PlansAggregate(Planner(0, 0, types, avail, []), dfv)
    {
      types, avail := [], [];
      var rest := dfv;
      while rest != map[]
        invariant rest.Keys <= dfv.Keys
        invariant |types| == |avail| == |dfv| - |rest|
        invariant forall i :: 0 <= i < |types| ==>
                    types[i] in dfv && types[i] !in rest && avail[i] == ToUint64(dfv[types[i]])
        invariant forall k :: k in dfv && k !in rest ==> k in types
        invariant forall i, j :: 0 <= i < j < |types| ==> types[i] != types[j]
        invariant forall k :: k in rest ==> rest[k] == dfv[k]
        decreases |rest|
      {
        var k :| k in rest;
        types, avail := types + [k], avail + [ToUint64(rest[k])];
        rest := rest - {k};
      }
      assert dfv.Keys == (set i | 0 <= i < |types| :: types[i]);
    }

    /** The last step of `prime`: a non-empty child aggregate becomes u's
        subtree planner for s, unless it has more types than a planner can
        hold; an empty one changes nothing. */
    method AttachSubplan(s: Subsystem, u: nat, dfv: map<string, int>) returns (rc: int)
      requires Valid() && u < |graph.vertices|
      modifies graph
      ensures colorBase == old(colorBase) && bestKCnt == old(bestKCnt) && cb.data.subsystems == old(cb.data.subsystems)
      ensures Valid()
      ensures graph.edges == old(graph.edges)
      ensures rc == 0 || rc == -1
      ensures rc != 0 || dfv == map[] ==>
        graph.vertices == old(graph.vertices) && graph.planners == old(graph.planners)
      ensures rc != 0 ==> |dfv| > PLANNER_NUM_TYPES
      ensures rc == 0 && dfv != map[] ==>
        var own := old(graph.planners[graph.vertices[u].schedule.plans]);
        var h := |old(graph.planners)|;
        graph.vertices == old(graph.vertices)[u := SetSubplan(old(graph.vertices[u]), s, h)]
        && |graph.planners| == h + 1 && graph.planners[..h] == old(graph.planners)
        && PlansAggregate(graph.planners[h], dfv)
        && graph.planners[h].spans == [] && graph.planners[h].baseTime == own.baseTime
        && graph.planners[h].horizon == own.horizon
    {
      var types, avail := AggregateList(dfv);
      if |avail| == 0 {
        return 0;
      }
      if |avail| > PLANNER_NUM_TYPES {
        return -1;
      }
      var h := SubtreePlan(u, avail, types);
      if h == NO_PLANNER {
        return -1;
      }
      SetSubplanKeepsGraphOk(graph.vertices, graph.edges, graph.planners, u, s, h, colorBase);
      graph.SetVertex(u, SetSubplan(graph.vertices[u], s, h));
      return 0;
    }

    /** `prime` for subsystem s from u: u's size is added to the parent's
        accumulator (if its type is tracked), its white children are primed
        into u's own aggregate, which is then added to the parent's and, when
        not empty, becomes u's subtree planner; u ends black. Fails with -1
        when a child fails or when the aggregate has more types than a
        planner can hold. */
    method Prime(s: Subsystem, u: nat, toParent: map<string, int>)
      returns (rc: int, toParent': map<string, int>, childAgg: map<string, int>)
      requires Valid() && u < |graph.vertices|
      modifies graph
      ensures colorBase == old(colorBase) && bestKCnt == old(bestKCnt) && cb.data.subsystems == old(cb.data.subsystems)
      decreases Unvisited(graph.vertices, [s], colorBase),
                if IsWhite(ColorOf(graph.vertices[u].idata, s), colorBase) then 0 else 3
      ensures Valid()
      ensures graph.edges == old(graph.edges)
      ensures PrimeOutcome(cb.data.sdauResourceTypes, s, colorBase, u, old(graph.vertices), old(graph.planners),
                           graph.vertices, graph.planners, toParent, rc, toParent', childAgg)
      ensures old(!HasEligible(graph.vertices, graph.edges, u, s, colorBase)) ==> rc == 0 && childAgg == map[]
    {
      ghost var vs0, ps0 := graph.vertices, graph.planners;
      var sdau := cb.data.sdauResourceTypes;
      var p := graph.vertices[u];
      var own := AccumIf(sdau, s, p.rtype, ToUint32(p.size), toParent).1;
      PrimeEnter(s, u);
      ghost var vs1 := graph.vertices;
      var rc0;
      rc0, childAgg := PrimeExp(s, u, map[]);
      ghost var vs2, ps2 := graph.vertices, graph.planners;
      rc, toParent' := PrimeLeave(s, u, rc0, own, childAgg);
      PrimeComposes(sdau, s, colorBase, u, vs0, ps0, vs1, vs2, ps2, graph.vertices, graph.planners,
                    toParent, rc0, childAgg, rc, toParent');
    }

    /** The pre-order half of `prime`: u turns gray, so no edge becomes
        eligible that was not before. */
    method PrimeEnter(s: Subsystem, u: nat)
      requires Valid() && u < |graph.vertices|
      modifies graph
      ensures colorBase == old(colorBase) && bestKCnt == old(bestKCnt) && cb.data.subsystems == old(cb.data.subsystems)
      ensures Valid()
      ensures graph.edges == old(graph.edges) && graph.planners == old(graph.planners)
      ensures PrimeFrame(old(graph.vertices), old(graph.planners), graph.vertices, graph.planners, s, colorBase, {u})
      ensures graph.vertices[u] == Recolor(old(graph.vertices[u]), s, Gray(colorBase))
      ensures Unvisited(graph.vertices, [s], colorBase) == old(Unvisited(graph.vertices, [s], colorBase)) - {(u, s)}
      ensures old(!HasEligible(graph.vertices, graph.edges, u, s, colorBase))
              ==> !HasEligible(graph.vertices, graph.edges, u, s, colorBase)
    {
      ghost var vs0 := graph.vertices;
      PaintIsPrimeStep(graph.vertices, graph.planners, u, s, Gray(colorBase), colorBase);
      Color(u, s, Gray(colorBase));
      if HasEligible(graph.vertices, graph.edges, u, s, colorBase) {
        var e :| 0 <= e < |graph.edges| && graph.edges[e].src == u && Eligible(graph.vertices, graph.edges, e, s, colorBase);
        EligibleShrinks(vs0, graph.vertices, graph.edges, e, s, colorBase);
      }
    }

    /** The post-order half of `prime`: after the children succeeded, their
        aggregate goes to the parent and into u's subtree planner; u turns
        black whatever happened. */
    method PrimeLeave(s: Subsystem, u: nat, rc0: int, own: map<string, int>, dfv: map<string, int>)
      returns (rc: int, toParent': map<string, int>)
      requires Valid() && u < |graph.vertices| && (rc0 == 0 || rc0 == -1)
      modifies graph
      ensures colorBase == old(colorBase) && bestKCnt == old(bestKCnt) && cb.data.subsystems == old(cb.data.subsystems)
      ensures Valid()
      ensures graph.edges == old(graph.edges)
      ensures PrimeFrame(old(graph.vertices), old(graph.planners), graph.vertices, graph.planners, s, colorBase, {u})
      ensures LeaveOutcome(cb.data.sdauResourceTypes, s, colorBase, u, old(graph.vertices), old(graph.planners),
                           graph.vertices, graph.planners, rc0, own, dfv, rc, toParent')
    {
      ghost var vs0, ps0 := graph.vertices, graph.planners;
      rc, toParent' := PrimeAttach(s, u, rc0, own, dfv);
      ghost var vs3, ps3 := graph.vertices, graph.planners;
      PaintIsPrimeStep(graph.vertices, graph.planners, u, s, Black(colorBase), colorBase);
      Color(u, s, Black(colorBase));
      AttachOutcomeRecolor(cb.data.sdauResourceTypes, s, u, vs0, ps0, vs3, ps3, rc0, own, dfv, rc, toParent',
                           s, Black(colorBase));
      PrimeFrameTrans(vs0, ps0, vs3, ps3, graph.vertices, graph.planners, s, colorBase, {u}, {u});
    }

    /** The accumulation and subplan part of the post-order half. */
    method PrimeAttach(s: Subsystem, u: nat, rc0: int, own: map<string, int>, dfv: map<string, int>)
      returns (rc: int, toParent': map<string, int>)
      requires Valid() && u < |graph.vertices| && (rc0 == 0 || rc0 == -1)
      modifies graph
      ensures colorBase == old(colorBase) && bestKCnt == old(bestKCnt) && cb.data.subsystems == old(cb.data.subsystems)
      ensures Valid()
      ensures graph.edges == old(graph.edges)
      ensures PrimeFrame(old(graph.vertices), old(graph.planners), graph.vertices, graph.planners, s, colorBase, {u})
      ensures AttachOutcome(cb.data.sdauResourceTypes, s, u, old(graph.vertices), old(graph.planners),
                            graph.vertices, graph.planners, rc0, own, dfv, rc, toParent')
    {
      var sdau := cb.data.sdauResourceTypes;
      ghost var vs0, ps0 := graph.vertices, graph.planners;
      rc, toParent' := rc0, own;
      if rc0 == 0 {
        toParent' := AccumEach(s, dfv, own);
        if KeysTracked(own, sdau, s) {
          AccumKeepsTracked(sdau, s, own, "", 0, dfv);
        }
        rc := AttachSubplan(s, u, dfv);
        if rc == 0 && dfv != map[] {
          SetSubplanIsPrimeStep(vs0, ps0, graph.planners, u, s, |ps0|, colorBase);
        }
      }
    }

    /** `prime_exp`: prime each white child of u in s, in edge order,
        stopping at the first failure. */
    method PrimeExp(s: Subsystem, u: nat, dfv: map<string, int>) returns (rc: int, dfv': map<string, int>)
      requires Valid() && u < |graph.vertices| && KeysTracked(dfv, cb.data.sdauResourceTypes, s)
      modifies graph
      ensures colorBase == old(colorBase) && bestKCnt == old(bestKCnt) && cb.data.subsystems == old(cb.data.subsystems)
      decreases Unvisited(graph.vertices, [s], colorBase), 2
      ensures Valid()
      ensures graph.edges == old(graph.edges)
      ensures PrimeFrame(old(graph.vertices), old(graph.planners), graph.vertices, graph.planners, s, colorBase, {})
      ensures rc == 0 || rc == -1
      ensures KeysTracked(dfv', cb.data.sdauResourceTypes, s)
      ensures old(!HasEligible(graph.vertices, graph.edges, u, s, colorBase)) ==> rc == 0 && dfv' == dfv
    {
      ghost var vs0, ps0 := graph.vertices, graph.planners;
      rc, dfv' := 0, dfv;
      var e := 0;
      while e < |graph.edges|
        invariant 0 <= e <= |graph.edges|
        invariant Valid() && graph.edges == old(graph.edges)
        invariant PrimeFrame(vs0, ps0, graph.vertices, graph.planners, s, colorBase, {})
        invariant KeysTracked(dfv', cb.data.sdauResourceTypes, s)
        invariant !HasEligible(vs0, graph.edges, u, s, colorBase) ==> dfv' == dfv
      {
        if graph.edges[e].src == u && InSubsystem(e, s) && !StopExplore(e, s) {
          var rc1;
          rc1, dfv' := PrimeChild(s, e, dfv', vs0, ps0);
          if rc1 != 0 {
            return -1, dfv';
          }
        }
        e := e + 1;
      }
    }

    /** One child of `prime_exp`: the target of edge e, white in s, is
        primed into dfv. */
    method PrimeChild(s: Subsystem, e: nat, dfv: map<string, int>, ghost vs0: seq<ResourcePool>,
                      ghost ps0: seq<Planner>)
      returns (rc: int, dfv': map<string, int>)
      requires Valid() && e < |graph.edges| && KeysTracked(dfv, cb.data.sdauResourceTypes, s)
      requires InSubsystem(e, s) && !StopExplore(e, s)
      requires PrimeFrame(vs0, ps0, graph.vertices, graph.planners, s, colorBase, {})
      modifies graph
      ensures colorBase == old(colorBase) && bestKCnt == old(bestKCnt) && cb.data.subsystems == old(cb.data.subsystems)
      decreases Unvisited(graph.vertices, [s], colorBase), 1
      ensures Valid()
      ensures graph.edges == old(graph.edges)
      ensures PrimeFrame(vs0, ps0, graph.vertices, graph.planners, s, colorBase, {})
      ensures KeysTracked(dfv', cb.data.sdauResourceTypes, s)
      ensures Eligible(vs0, graph.edges, e, s, colorBase)
    {
      var ed := graph.edges[e];
      NotStoppedIsWhite(e, s);
      EligibleShrinks(vs0, graph.vertices, graph.edges, e, s, colorBase);
      ghost var vs1, ps1 := graph.vertices, graph.planners;
      assert (ed.tgt, s) in Unvisited(vs0, [s], colorBase);
      var childAgg;
      rc, dfv', childAgg := Prime(s, ed.tgt, dfv);
      PrimeFrameTrans(vs0, ps0, vs1, ps1, graph.vertices, graph.planners, s, colorBase, {}, {ed.tgt});
    }

    /** `prime` of the older traverser, which `initialize` calls: as
        `prime`, except that it cannot fail and that an aggregate too wide
        for a planner leaves u with a NULL subtree planner. */
    method PrimeLegacy(s: Subsystem, u: nat, toParent: map<string, int>)
      returns (rc: int, toParent': map<string, int>, childAgg: map<string, int>)
      requires Valid() && u < |graph.vertices|
      modifies graph
      ensures colorBase == old(colorBase) && bestKCnt == old(bestKCnt) && cb.data.subsystems == old(cb.data.subsystems)
      decreases Unvisited(graph.vertices, [s], colorBase),
                if IsWhite(ColorOf(graph.vertices[u].idata, s), colorBase) then 0 else 2
      ensures Valid()
      ensures graph.edges == old(graph.edges)
      ensures rc == 0
      ensures LegacyOutcome(cb.data.sdauResourceTypes, s, colorBase, u, old(graph.vertices), old(graph.planners),
                            graph.vertices, graph.planners, toParent, toParent', childAgg)
    {
      ghost var vs0, ps0 := graph.vertices, graph.planners;
      var sdau := cb.data.sdauResourceTypes;
      var p := graph.vertices[u];
      var own := AccumIf(sdau, s, p.rtype, ToUint32(p.size), toParent).1;
      PrimeEnter(s, u);
      ghost var vs1 := graph.vertices;
      rc, childAgg := LegacyChildren(s, u, map[]);
      if rc != 0 {
        return rc, own, childAgg;
      }
      ghost var vs2, ps2 := graph.vertices, graph.planners;
      toParent' := LegacyLeave(s, u, own, childAgg);
      LegacyComposes(sdau, s, colorBase, u, vs0, ps0, vs1, vs2, ps2, graph.vertices, graph.planners,
                     toParent, childAgg, toParent');
    }

    /** The child loop of the older `prime`. */
    method LegacyChildren(s: Subsystem, u: nat, dfv: map<string, int>) returns (rc: int, dfv': map<string, int>)
      requires Valid() && u < |graph.vertices| && KeysTracked(dfv, cb.data.sdauResourceTypes, s)
      modifies graph
      ensures colorBase == old(colorBase) && bestKCnt == old(bestKCnt) && cb.data.subsystems == old(cb.data.subsystems)
      decreases Unvisited(graph.vertices, [s], colorBase), 1
      ensures Valid()
      ensures graph.edges == old(graph.edges)
      ensures PrimeFrame(old(graph.vertices), old(graph.planners), graph.vertices, graph.planners, s, colorBase, {})
      ensures rc == 0
      ensures KeysTracked(dfv', cb.data.sdauResourceTypes, s)
    {
      ghost var vs0, ps0 := graph.vertices, graph.planners;
      rc, dfv' := 0, dfv;
      var e := 0;
      while e < |graph.edges|
        invariant 0 <= e <= |graph.edges|
        invariant Valid() && graph.edges == old(graph.edges)
        invariant PrimeFrame(vs0, ps0, graph.vertices, graph.planners, s, colorBase, {})
        invariant KeysTracked(dfv', cb.data.sdauResourceTypes, s)
      {
        var ed := graph.edges[e];
        if ed.src == u && InSubsystem(e, s) && !StopExplore(e, s) {
          NotStoppedIsWhite(e, s);
          ghost var vs1, ps1 := graph.vertices, graph.planners;
          assert (ed.tgt, s) in Unvisited(vs0, [s], colorBase);
          var rc1, d1, _ := PrimeLegacy(s, ed.tgt, dfv');
          PrimeFrameTrans(vs0, ps0, vs1, ps1, graph.vertices, graph.planners, s, colorBase, {}, {ed.tgt});
          dfv' := d1;
          if rc1 != 0 {
            return rc1, dfv';
          }
        }
        e := e + 1;
      }
    }

    /** The subplan step of the older `prime`: a non-empty aggregate is
        stored as u's subtree planner for s, unchecked, so a NULL planner
        when it has too many types. */
    method LegacyAttach(s: Subsystem, u: nat, dfv: map<string, int>) returns (h: PlannerRef)
      requires Valid() && u < |graph.vertices|
      modifies graph
      ensures colorBase == old(colorBase) && bestKCnt == old(bestKCnt) && cb.data.subsystems == old(cb.data.subsystems)
      ensures Valid()
      ensures graph.edges == old(graph.edges)
      ensures dfv == map[] ==> graph.vertices == old(graph.vertices) && graph.planners == old(graph.planners)
      ensures dfv != map[] ==>
        graph.vertices == old(graph.vertices)[u := SetSubplan(old(graph.vertices[u]), s, h)]
        && Extends(old(graph.planners), graph.planners)
      ensures dfv != map[] && |dfv| <= PLANNER_NUM_TYPES ==>
        var own := old(graph.planners[graph.vertices[u].schedule.plans]);
        h == |old(graph.planners)| && |graph.planners| == h + 1
        && PlansAggregate(graph.planners[h], dfv)
        && graph.planners[h].spans == [] && graph.planners[h].baseTime == own.baseTime
        && graph.planners[h].horizon == own.horizon
      ensures |dfv| > PLANNER_NUM_TYPES ==> h == NO_PLANNER
    {
      h := NO_PLANNER;
      var types, avail := AggregateList(dfv);
      if |avail| > 0 {
        h := SubtreePlan(u, avail, types);
        SetSubplanKeepsGraphOk(graph.vertices, graph.edges, graph.planners, u, s, h, colorBase);
        graph.SetVertex(u, SetSubplan(graph.vertices[u], s, h));
      }
    }

    /** The post-order half of the older `prime`. */
    method LegacyLeave(s: Subsystem, u: nat, own: map<string, int>, dfv: map<string, int>)
      returns (toParent': map<string, int>)
      requires Valid() && u < |graph.vertices|
      modifies graph
      ensures colorBase == old(colorBase) && bestKCnt == old(bestKCnt) && cb.data.subsystems == old(cb.data.subsystems)
      ensures Valid()
      ensures graph.edges == old(graph.edges)
      ensures PrimeFrame(old(graph.vertices), old(graph.planners), graph.vertices, graph.planners, s, colorBase, {u})
      ensures LegacyLeaveOutcome(cb.data.sdauResourceTypes, s, colorBase, u, old(graph.vertices), old(graph.planners),
                                 graph.vertices, graph.planners, own, dfv, toParent')
    {
      var sdau := cb.data.sdauResourceTypes;
      ghost var vs0, ps0 := graph.vertices, graph.planners;
      toParent' := AccumEach(s, dfv, own);
      if KeysTracked(own, sdau, s) {
        AccumKeepsTracked(sdau, s, own, "", 0, dfv);
      }
      var h := LegacyAttach(s, u, dfv);
      if dfv != map[] {
        SetSubplanIsPrimeStep(vs0, ps0, graph.planners, u, s, h, colorBase);
      }
      ghost var vs3, ps3 := graph.vertices, graph.planners;
      PaintIsPrimeStep(graph.vertices, graph.planners, u, s, Black(colorBase), colorBase);
      Color(u, s, Black(colorBase));
      PrimeFrameTrans(vs0, ps0, vs3, ps3, graph.vertices, graph.planners, s, colorBase, {u}, {u});
    }
    /** `prime` over the jobspec's request list (the dominant subsystem's
        aggregates of what is asked); the requests come back with their
        user data filled in. */
    method PrimeResources(resources: seq<Resource>, toParent: map<string, int>)
      returns (resources': seq<Resource>, toParent': map<string, int>)
      requires Valid() && |cb.data.subsystems| > 0
      ensures (resources', toParent') == PrimedRequests(cb.data.sdauResourceTypes, Dom(), resources, toParent)
      decreases resources
    {
      var sdau := cb.data.sdauResourceTypes;
      var dom := Dom();
      ghost var goal := PrimedRequests(sdau, dom, resources, toParent);
      resources', toParent' := [], toParent;
      var i := 0;
      assert resources[i..] == resources;
      while i < |resources|
        invariant 0 <= i <= |resources|
        invariant resources' + PrimedRequests(sdau, dom, resources[i..], toParent').0 == goal.0
        invariant PrimedRequests(sdau, dom, resources[i..], toParent').1 == goal.1
      {
        var r := resources[i];
        assert r in resources;
        ghost var acc0 := toParent';
        toParent' := AccumIf(sdau, dom, r.rtype, r.count.min, toParent').1;
        var w, ud := PrimeResources(r.with, r.userData);
        PrimedStep(sdau, dom, resources, i, acc0, w, ud);
        toParent' := AccumEach(dom, ud, toParent');
        resources' := resources' + [r.(with := w, userData := ud)];
        i := i + 1;
      }
      assert resources[i..] == [];
      assert resources' == goal.0 && toParent' == goal.1;
    }

    /** Marks the decisions of xs on the graph's edges, in order. */
    method MarkEdges(xs: seq<EvalEdg>)
      requires Valid() && forall j :: 0 <= j < |xs| ==> 0 <= xs[j].edge < |graph.edges|
      modifies graph
      ensures colorBase == old(colorBase) && bestKCnt == old(bestKCnt) && cb.data.subsystems == old(cb.data.subsystems)
      ensures Valid()
      ensures graph.vertices == old(graph.vertices) && graph.planners == old(graph.planners)
      ensures graph.edges == MarkAll(old(graph.edges), xs, bestKCnt)
      ensures |graph.edges| == |old(graph.edges)|
    {
      ghost var es0 := graph.edges;
      var j := 0;
      while j < |xs|
        invariant 0 <= j <= |xs|
        invariant graph.vertices == old(graph.vertices) && graph.planners == old(graph.planners)
        invariant |graph.edges| == |es0|
        invariant MarkAll(graph.edges, xs[j..], bestKCnt) == MarkAll(es0, xs, bestKCnt)
      {
        var x := xs[j];
        assert xs[j..][0] == x && xs[j..][1..] == xs[j + 1..];
        graph.SetEdge(x.edge, Mark(graph.edges[x.edge], x, bestKCnt));
        j := j + 1;
      }
      assert xs[j..] == [];
      MarkAllEffect(es0, xs, bestKCnt);
      WalkKeepsGraphOk(graph.vertices, es0, graph.vertices, graph.edges, graph.planners);
    }

    /** enforce for one type t of s: the groups best_i reaches are marked in
        order; -1 when best_i overruns the groups. */
    method EnforceType(s: Subsystem, t: string, dfu: Scoring) returns (rc: int)
      requires Valid() && EdgesBelow(dfu, |graph.edges|)
      modifies graph
      ensures colorBase == old(colorBase) && bestKCnt == old(bestKCnt) && cb.data.subsystems == old(cb.data.subsystems)
      ensures Valid()
      ensures graph.vertices == old(graph.vertices) && graph.planners == old(graph.planners)
      ensures graph.edges == MarkAll(old(graph.edges), GroupEdgs(Reached(dfu, s, t)), bestKCnt)
      ensures |graph.edges| == |old(graph.edges)|
      ensures rc == (if Overruns(dfu, s, t) then -1 else 0)
    {
      ghost var es0 := graph.edges;
      var bestI := BestI(dfu, s, t);
      var gs := Groups(dfu, s, t);
      assert GroupsEdgesBelow(gs, |graph.edges|);
      ghost var reached := Reached(dfu, s, t);
      ghost var goal := MarkAll(es0, GroupEdgs(reached), bestKCnt);
      rc := 0;
      var i := 0;
      while i < bestI && rc == 0
        invariant 0 <= i <= |reached| && i <= bestI
        invariant forall k :: 0 <= k < |reached| ==> reached[k] == gs[k]
        invariant Valid() && graph.vertices == old(graph.vertices) && graph.planners == old(graph.planners)
        invariant |graph.edges| == |es0|
        invariant MarkAll(graph.edges, GroupEdgs(reached[i..]), bestKCnt) == goal
        invariant rc == 0 || (rc == -1 && bestI > |gs| && reached[i..] == [])
        decreases bestI - i, rc + 1
      {
        var g := At(dfu, s, t, i);
        if g.None? {
          // `at` throws out_of_range: nothing more is marked.
          assert reached[i..] == [];
          rc := -1;
        } else {
          assert g.value == gs[i];
          EnforceGroup(g.value, reached, i, goal);
          i := i + 1;
        }
      }
      assert reached[i..] == [];
    }

    /** The group enforce reaches at position i: its selected edges are
        marked, none for a root group, and the rest of the reached groups
        still lead to the goal. */
    method EnforceGroup(g: EvalEgroup, ghost reached: seq<EvalEgroup>, ghost i: nat, ghost goal: seq<Edge>)
      requires Valid() && i < |reached| && reached[i] == g && (g.root || GroupEdgesBelow(g, |graph.edges|))
      requires MarkAll(graph.edges, GroupEdgs(reached[i..]), bestKCnt) == goal
      modifies graph
      ensures Valid()
      ensures graph.vertices == old(graph.vertices) && graph.planners == old(graph.planners)
      ensures |graph.edges| == |old(graph.edges)|
      ensures MarkAll(graph.edges, GroupEdgs(reached[i + 1..]), bestKCnt) == goal
    {
      GroupEdgsStep(reached, i);
      var xs := if g.root then [] else g.edges;
      MarkAllAppend(graph.edges, xs, GroupEdgs(reached[i + 1..]), bestKCnt);
      if !g.root {
        MarkEdges(xs);
      }
    }

    /** `enforce` for subsystem s: every selected edge of the groups best_i
        chooses, root groups skipped, is marked on its graph edge with this
        match's generation, needs and exclusivity; an overrunning best_i
        (`at` throwing out_of_range) stops it with -1. */
    method Enforce(s: Subsystem, dfu: Scoring) returns (rc: int)
      requires Valid() && EdgesBelow(dfu, |graph.edges|)
      modifies graph
      ensures colorBase == old(colorBase) && bestKCnt == old(bestKCnt) && cb.data.subsystems == old(cb.data.subsystems)
      ensures Valid()
      ensures graph.vertices == old(graph.vertices) && graph.planners == old(graph.planners)
      ensures (rc, graph.edges) == EnforceSpec(old(graph.edges), dfu, s, bestKCnt)
    {
      ghost var es0 := graph.edges;
      var ts := ResrcTypes(dfu, s);
      rc := 0;
      var ti := 0;
      EnforceLoopStart(es0, dfu, s, bestKCnt);
      while ti < |ts| && rc == 0
        invariant Valid() && graph.vertices == old(graph.vertices) && graph.planners == old(graph.planners)
        invariant EnforceLoop(es0, graph.edges, dfu, s, bestKCnt, ti, rc)
        decreases |ts| - ti
      {
        ghost var es1 := graph.edges;
        var rc1 := EnforceStep(s, dfu, ts, ti);
        EnforceLoopStep(es0, es1, graph.edges, dfu, s, bestKCnt, ti, rc1);
        if rc1 != 0 {
          rc := -1;
        }
        ti := ti + 1;
      }
      EnforceLoopDone(es0, graph.edges, dfu, s, bestKCnt, ti, rc);
    }

    /** One type of `enforce`'s loop: what is left to write after type
        ts[ti] is what was left before it, minus its own edges. */
    method EnforceStep(s: Subsystem, dfu: Scoring, ts: seq<string>, ti: nat) returns (rc1: int)
      requires Valid() && EdgesBelow(dfu, |graph.edges|) && ti < |ts|
      modifies graph
      ensures colorBase == old(colorBase) && bestKCnt == old(bestKCnt) && cb.data.subsystems == old(cb.data.subsystems)
      ensures Valid()
      ensures graph.vertices == old(graph.vertices) && graph.planners == old(graph.planners)
      ensures |graph.edges| == |old(graph.edges)|
      ensures rc1 == (if Overruns(dfu, s, ts[ti]) then -1 else 0)
      ensures EnforceRc(dfu, s, ts[ti..]) == (if rc1 != 0 then -1 else EnforceRc(dfu, s, ts[ti + 1..]))
      ensures MarkAll(graph.edges, if rc1 != 0 then [] else Written(dfu, s, ts[ti + 1..]), bestKCnt)
              == MarkAll(old(graph.edges), Written(dfu, s, ts[ti..]), bestKCnt)
    {
      var t := ts[ti];
      WrittenStep(dfu, s, ts, ti);
      ghost var rest := if Overruns(dfu, s, t) then [] else Written(dfu, s, ts[ti + 1..]);
      MarkAllAppend(graph.edges, GroupEdgs(Reached(dfu, s, t)), rest, bestKCnt);
      rc1 := EnforceType(s, t, dfu);
      assert ts[ti..][0] == t && ts[ti..][1..] == ts[ti + 1..];
    }


    // -------------------------------------------------------------------
    // The matching walk
    // -------------------------------------------------------------------

    /** The root of subsystem s, read with `operator[]`: 0 when s has
        none. */
    function RootOf(s: Subsystem): nat
    {
      if s in roots then roots[s] else 0
    }

    /** `enforce` for every subsystem in turn; their return codes are
        dropped. */
    method EnforceEach(dfu: Scoring)
      requires Valid() && EdgesBelow(dfu, |graph.edges|)
      modifies graph
      ensures colorBase == old(colorBase) && bestKCnt == old(bestKCnt) && cb.data.subsystems == old(cb.data.subsystems)
      ensures Valid()
      ensures graph.vertices == old(graph.vertices) && graph.planners == old(graph.planners)
      ensures graph.edges == EnforceAll(old(graph.edges), dfu, cb.data.subsystems, bestKCnt)
      ensures MarkedWith(old(graph.edges), graph.edges, bestKCnt)
    {
      ghost var es0 := graph.edges;
      var subs := cb.data.subsystems;
      EnforceAllMarks(es0, dfu, subs, bestKCnt);
      var i := 0;
      while i < |subs|
        invariant 0 <= i <= |subs|
        invariant Valid() && graph.vertices == old(graph.vertices) && graph.planners == old(graph.planners)
        invariant |graph.edges| == |es0|
        invariant EnforceAll(graph.edges, dfu, subs[i..], bestKCnt) == EnforceAll(es0, dfu, subs, bestKCnt)
      {
        assert subs[i..][0] == subs[i] && subs[i..][1..] == subs[i + 1..];
        ghost var es1 := graph.edges;
        var rc1 := Enforce(subs[i], dfu);
        MarkAllEffect(es1, Written(dfu, subs[i], ResrcTypes(dfu, subs[i])), bestKCnt);
        i := i + 1;
      }
      assert subs[i..] == [];
    }

    /** `resolve` of a vertex's aggregator into its parent's: with a
        positive overall score the vertex's choice is either enforced on the
        spot (under a hierarchical constraint) or its groups are merged into
        the parent's; otherwise nothing happens. It always succeeds. */
    method ResolveInto(dfu: Scoring, toParent: Scoring) returns (rc: int, toParent': Scoring)
      requires Valid()
      requires AllEdgesBelow(dfu, |graph.edges|) && AllEdgesBelow(toParent, |graph.edges|)
      modifies graph
      ensures colorBase == old(colorBase) && bestKCnt == old(bestKCnt) && cb.data.subsystems == old(cb.data.subsystems)
      ensures Valid()
      ensures graph.vertices == old(graph.vertices) && graph.planners == old(graph.planners)
      ensures MarkedWith(old(graph.edges), graph.edges, bestKCnt)
      ensures rc == 0
      ensures AllEdgesBelow(toParent', |graph.edges|) && Extended(toParent, toParent')
      ensures toParent' == Resolved(toParent, dfu)
      ensures dfu.overallScore > 0 && dfu.hierConstrainNow ==>
                graph.edges == EnforceAll(old(graph.edges), dfu, cb.data.subsystems, bestKCnt)
      ensures dfu.overallScore <= 0 || !dfu.hierConstrainNow ==> graph.edges == old(graph.edges)
    {
      rc, toParent' := 0, toParent;
      if dfu.overallScore > 0 {
        if dfu.hierConstrainNow {
          AllEdgesBelowWeakens(dfu, |graph.edges|);
          EnforceEach(dfu);
        } else {
          MergeKeepsAllEdgesBelow(toParent, dfu, |graph.edges|);
          ExtendedByMerge(toParent, dfu);
          toParent' := Merge(toParent, dfu);
        }
      }
    }

    /** One descent of `explore` or of `aux_upv`'s child loop: the target of
        edge e is walked with `aux_upv` upward or `dom_dfv` downward, and
        what it leaves in the aggregator is its yield, from the child's own
        scored aggregator and (downward) the child's own avail. `aux_upv`
        never changes the exclusivity flag. */
    method Descend(meta: JobMeta, e: nat, s: Subsystem, resources: seq<Resource>, excl: bool,
                   dir: Direction, dfu: Scoring)
      returns (rc: int, x: bool, dfu': Scoring, ghost own: Scoring, ghost avail: int)
      requires Valid() && |cb.data.subsystems| > 0 && e < |graph.edges| && s in cb.data.subsystems
      requires dir == Dfv ==> s == Dom()
      requires IsWhite(ColorOf(graph.vertices[graph.edges[e].tgt].idata, s), colorBase)
      requires AllEdgesBelow(dfu, |graph.edges|)
      modifies graph, cb
      decreases Unvisited(graph.vertices, cb.data.subsystems, colorBase), 2
      ensures colorBase == old(colorBase) && bestKCnt == old(bestKCnt)
      ensures cb.data.subsystems == old(cb.data.subsystems)
      ensures Valid()
      ensures MatchStep(old(graph.vertices), old(graph.edges), old(graph.planners),
                        graph.vertices, graph.edges, graph.planners, cb.data.subsystems, colorBase, bestKCnt)
      ensures AllEdgesBelow(dfu', |graph.edges|) && Extended(dfu, dfu')
      ensures rc == 0 || rc == -1
      ensures dfu' == Yield(dfu, dir, rc == 0, own, avail)
      ensures dir == Upv ==> x == excl
    {
      var tgt := graph.edges[e].tgt;
      x := excl;
      if dir == Upv {
        ghost var cs;
        rc, dfu', own, cs := AuxUpv(meta, tgt, s, resources, excl, dfu);
        avail := 0;
      } else {
        ghost var visit, visited;
        rc, x, dfu', own, visit, visited := DomDfv(meta, tgt, resources, excl, dfu);
        avail := OwnAvail(meta, tgt);
      }
    }

    /** `explore`: every out-edge of u in s whose target is still white is
        descended, in edge order, with `dom_dfv` downward or `aux_upv`
        upward. The descents cs are of eligible out-edges of u, every edge
        still eligible at the end was descended, and the aggregator is their
        fold (`ExploreFold`): each child's yield and, for a child that
        succeeded, its singleton group. 0 exactly when some child
        succeeded; descending in the dominant subsystem makes u no leaf. */
    method Explore(meta: JobMeta, u: nat, s: Subsystem, resources: seq<Resource>, excl: bool,
                   leaf: bool, dir: Direction, dfu: Scoring)
      returns (rc: int, leaf': bool, dfu': Scoring, ghost cs: seq<Descent>)
      requires Valid() && |cb.data.subsystems| > 0 && u < |graph.vertices| && s in cb.data.subsystems
      requires dir == Dfv ==> s == Dom()
      requires AllEdgesBelow(dfu, |graph.edges|)
      modifies graph, cb
      decreases Unvisited(graph.vertices, cb.data.subsystems, colorBase), 5
      ensures colorBase == old(colorBase) && bestKCnt == old(bestKCnt)
      ensures cb.data.subsystems == old(cb.data.subsystems)
      ensures Valid()
      ensures ExploreEnd(old(graph.vertices), old(graph.edges), old(graph.planners),
                         graph.vertices, graph.edges, graph.planners, u, s, cb.data.subsystems, colorBase, bestKCnt,
                         dfu, leaf, s == Dom(), dir, rc, leaf', dfu', cs)
    {
      ghost var vs0, es0, ps0 := graph.vertices, graph.edges, graph.planners;
      ghost var subs := cb.data.subsystems;
      ghost var idle := !HasEligible(vs0, es0, u, s, colorBase);
      var dom := Dom();
      rc, leaf', dfu', cs := -1, leaf, dfu, [];
      ExploreLoopStart(vs0, es0, ps0, u, s, subs, colorBase, bestKCnt, dfu, leaf, s == dom, dir);
      var e := 0;
      while e < |graph.edges|
        invariant Valid() && cb.data.subsystems == subs
        invariant ExploreLoop(vs0, es0, ps0, graph.vertices, graph.edges, graph.planners, u, s, cb.data.subsystems,
                              colorBase, bestKCnt, e, dfu, leaf, s == dom, dir, idle, rc, leaf', dfu', cs)
      {
        rc, leaf', dfu', cs := ExploreEdge(meta, u, e, s, resources, excl, dir, rc, leaf', dfu', vs0, es0, ps0, dfu, leaf,
                                           s == dom, idle, cs);
        e := e + 1;
      }
      ExploreLoopDone(vs0, es0, ps0, graph.vertices, graph.edges, graph.planners, u, s, subs, colorBase, bestKCnt, e,
                      dfu, leaf, s == dom, dir, idle, rc, leaf', dfu', cs);
    }

    /** One out-edge of `explore`'s loop: nothing happens unless its target
        is still white in s; then the target is descended, one more descent
        of the loop. */
    method ExploreEdge(meta: JobMeta, u: nat, e: nat, s: Subsystem, resources: seq<Resource>, excl: bool,
                       dir: Direction, rc: int, leaf: bool, dfu: Scoring,
                       ghost vs0: seq<ResourcePool>, ghost es0: seq<Edge>, ghost ps0: seq<Planner>,
                       ghost d0: Scoring, ghost leaf0: bool, isDom: bool, ghost idle: bool, ghost cs: seq<Descent>)
      returns (rc': int, leaf': bool, dfu': Scoring, ghost cs': seq<Descent>)
      requires Valid() && |cb.data.subsystems| > 0 && e < |graph.edges|
      requires s in cb.data.subsystems && (dir == Dfv ==> s == Dom()) && isDom == (s == Dom())
      requires ExploreLoop(vs0, es0, ps0, graph.vertices, graph.edges, graph.planners, u, s, cb.data.subsystems,
                           colorBase, bestKCnt, e, d0, leaf0, isDom, dir, idle, rc, leaf, dfu, cs)
      modifies graph, cb
      decreases Unvisited(graph.vertices, cb.data.subsystems, colorBase), 4, 1
      ensures colorBase == old(colorBase) && bestKCnt == old(bestKCnt)
      ensures cb.data.subsystems == old(cb.data.subsystems)
      ensures Valid()
      ensures ExploreLoop(vs0, es0, ps0, graph.vertices, graph.edges, graph.planners, u, s, cb.data.subsystems,
                          colorBase, bestKCnt, e + 1, d0, leaf0, isDom, dir, idle, rc', leaf', dfu', cs')
    {
      rc', leaf', dfu', cs' := rc, leaf, dfu, cs;
      var ed := graph.edges[e];
      EligibleNow(u, e, s, vs0, es0, ps0);
      if ed.src == u && InSubsystem(e, s) && !StopExplore(e, s) {
        rc', leaf', dfu', cs' := ExploreTaken(meta, u, e, s, resources, excl, dir, rc, leaf, dfu,
                                             vs0, es0, ps0, d0, leaf0, isDom, idle, cs);
      } else {
        CoveredSkip(graph.vertices, graph.edges, u, s, colorBase, cs, e);
      }
    }

    /** An out-edge of u in s whose target is still white, in `explore`'s
        loop: the target is descended, one more descent of the loop. */
    method ExploreTaken(meta: JobMeta, u: nat, e: nat, s: Subsystem, resources: seq<Resource>, excl: bool,
                        dir: Direction, rc: int, leaf: bool, dfu: Scoring,
                        ghost vs0: seq<ResourcePool>, ghost es0: seq<Edge>, ghost ps0: seq<Planner>,
                        ghost d0: Scoring, ghost leaf0: bool, isDom: bool, ghost idle: bool, ghost cs: seq<Descent>)
      returns (rc': int, leaf': bool, dfu': Scoring, ghost cs': seq<Descent>)
      requires Valid() && |cb.data.subsystems| > 0 && e < |graph.edges|
      requires s in cb.data.subsystems && (dir == Dfv ==> s == Dom()) && isDom == (s == Dom())
      requires ExploreLoop(vs0, es0, ps0, graph.vertices, graph.edges, graph.planners, u, s, cb.data.subsystems,
                           colorBase, bestKCnt, e, d0, leaf0, isDom, dir, idle, rc, leaf, dfu, cs)
      requires graph.edges[e].src == u && Eligible(graph.vertices, graph.edges, e, s, colorBase)
      requires HasEligible(vs0, es0, u, s, colorBase)
      modifies graph, cb
      decreases Unvisited(graph.vertices, cb.data.subsystems, colorBase), 4, 0
      ensures colorBase == old(colorBase) && bestKCnt == old(bestKCnt)
      ensures cb.data.subsystems == old(cb.data.subsystems)
      ensures Valid()
      ensures ExploreLoop(vs0, es0, ps0, graph.vertices, graph.edges, graph.planners, u, s, cb.data.subsystems,
                          colorBase, bestKCnt, e + 1, d0, leaf0, isDom, dir, idle, rc', leaf', dfu', cs')
    {
      ghost var subs := cb.data.subsystems;
      ghost var vs1, es1, ps1 := graph.vertices, graph.edges, graph.planners;
      ghost var b, gen := colorBase, bestKCnt;
      assert TraceReady(vs0, es0, ps0, vs1, es1, ps1, u, s, subs, b, gen, cs, e);
      ghost var c;
      rc', leaf', dfu', c := ExploreChild(meta, e, s, resources, excl, dir, rc, leaf, dfu, d0, leaf0, isDom, cs);
      assert b == colorBase && gen == bestKCnt;
      TraceStep(vs0, es0, ps0, vs1, es1, ps1, graph.vertices, graph.edges, graph.planners, u, s, subs,
                b, gen, cs, c, e);
      cs' := cs + [c];
    }

    /** The descent of one edge whose target is white: u is no leaf after a
        dominant descent, and a child that succeeds adds the edge's
        singleton group, scored with the overall score and counted with the
        avail the child left. */
    method ExploreChild(meta: JobMeta, e: nat, s: Subsystem, resources: seq<Resource>, excl: bool,
                        dir: Direction, rc: int, leaf: bool, dfu: Scoring,
                        ghost d0: Scoring, ghost leaf0: bool, isDom: bool, ghost cs: seq<Descent>)
      returns (rc': int, leaf': bool, dfu': Scoring, ghost c: Descent)
      requires Valid() && |cb.data.subsystems| > 0 && e < |graph.edges|
      requires s in cb.data.subsystems && (dir == Dfv ==> s == Dom())
      requires IsWhite(ColorOf(graph.vertices[graph.edges[e].tgt].idata, s), colorBase)
      requires AllEdgesBelow(dfu, |graph.edges|)
      requires Explored(d0, leaf0, isDom, s, false, rc, leaf, dfu)
      requires ExploreAt(d0, leaf0, isDom, s, dir, cs, rc, leaf, dfu)
      modifies graph, cb
      decreases Unvisited(graph.vertices, cb.data.subsystems, colorBase), 3
      ensures colorBase == old(colorBase) && bestKCnt == old(bestKCnt)
      ensures cb.data.subsystems == old(cb.data.subsystems)
      ensures Valid()
      ensures MatchStep(old(graph.vertices), old(graph.edges), old(graph.planners),
                        graph.vertices, graph.edges, graph.planners, cb.data.subsystems, colorBase, bestKCnt)
      ensures AllEdgesBelow(dfu', |graph.edges|)
      ensures Explored(d0, leaf0, isDom, s, false, rc', leaf', dfu')
      ensures c.edge == e && c.rtype == old(graph.vertices[graph.edges[e].tgt].rtype)
      ensures ExploreAt(d0, leaf0, isDom, s, dir, cs + [c], rc', leaf', dfu')
    {
      rc' := rc;
      leaf' := if isDom then false else leaf;
      var t := graph.vertices[graph.edges[e].tgt].rtype;
      var rc1, x;
      ghost var own, avail;
      rc1, x, dfu', own, avail := Descend(meta, e, s, resources, excl, dir, dfu);
      c := Descent(e, t, rc1 == 0, x, own, avail);
      ExploreAtStep(d0, leaf0, isDom, s, dir, cs, rc, leaf, dfu, c);
      var g := Singleton(dfu', x, e);
      ExploredChild(d0, leaf0, isDom, s, rc, leaf, dfu, leaf', dfu', t, g);
      if rc1 == 0 {
        AddKeepsAllEdgesBelow(dfu', s, t, g, |graph.edges|);
        dfu' := Add(dfu', s, t, g);
        rc' := 0;
      }
    }

    /** `aux_upv`: the walk in an auxiliary subsystem. A pruned vertex fails
        with nothing changed and no descents. Otherwise u is visited
        (`AuxVisit`): its descents are of eligible out-edges (none at the
        subsystem's root), all but the last succeeded, and u succeeds
        exactly when all did; then its aggregator, their upward fold scored
        by the post-order hook, is resolved into the parent's. */
    method AuxUpv(meta: JobMeta, u: nat, aux: Subsystem, resources: seq<Resource>, excl: bool, toParent: Scoring)
      returns (rc: int, toParent': Scoring, ghost own: Scoring, ghost cs: seq<Descent>)
      requires Valid() && |cb.data.subsystems| > 0 && u < |graph.vertices| && aux in cb.data.subsystems
      requires AllEdgesBelow(toParent, |graph.edges|)
      modifies graph, cb
      decreases Unvisited(graph.vertices, cb.data.subsystems, colorBase),
                if IsWhite(ColorOf(graph.vertices[u].idata, aux), colorBase) then 1 else 9
      ensures colorBase == old(colorBase) && bestKCnt == old(bestKCnt)
      ensures cb.data.subsystems == old(cb.data.subsystems)
      ensures Valid()
      ensures MatchStep(old(graph.vertices), old(graph.edges), old(graph.planners),
                        graph.vertices, graph.edges, graph.planners, cb.data.subsystems, colorBase, bestKCnt)
      ensures AllEdgesBelow(toParent', |graph.edges|) && Extended(toParent, toParent')
      ensures rc == 0 || rc == -1
      ensures rc == 0 <==> !old(PruneSpec(meta, excl, aux, u, resources)) && AllOk(cs)
      ensures rc != 0 ==> toParent' == toParent
      ensures rc == 0 ==> IsBlack(ColorOf(graph.vertices[u].idata, aux), colorBase)
                          && own == cb.Scored(aux, u, UpFold(FreshScoring(), cs))
                          && toParent' == Resolved(toParent, own)
      ensures old(PruneSpec(meta, excl, aux, u, resources)) ==>
                rc == -1 && cs == [] && graph.vertices == old(graph.vertices) && graph.edges == old(graph.edges)
      ensures Descents(old(graph.vertices), old(graph.edges), u, aux, colorBase, cs)
      ensures u == RootOf(aux) ==> cs == []
      ensures forall i :: 0 <= i < |cs| - 1 ==> cs[i].ok
      ensures rc == 0 && u != RootOf(aux) ==> CoveredBelow(graph.vertices, graph.edges, u, aux, colorBase, cs, |graph.edges|)
    {
      ghost var vs0, es0, ps0 := graph.vertices, graph.edges, graph.planners;
      toParent', own, cs := toParent, FreshScoring(), [];
      var pruned := Prune(meta, excl, aux, u, resources);
      if pruned {
        return -1, toParent, own, cs;
      }
      rc := cb.AuxDiscoverVtx();
      var upv;
      rc, upv, cs := AuxVisit(meta, u, aux, resources, excl);
      if rc != 0 {
        return rc, toParent, own, cs;
      }
      RecoloredKeeps(vs0, graph.vertices, u);
      var avail := OwnAvail(meta, u);
      if avail == 0 {
        return rc, toParent, own, cs;
      }
      var rc1, scored := cb.AuxFinishVtx(aux, u, upv);
      own := scored;
      ghost var vs1, es1 := graph.vertices, graph.edges;
      rc, toParent' := ResolveInto(scored, toParent);
      if u != RootOf(aux) {
        CoveredStays(vs1, es1, ps0, graph.vertices, graph.edges, graph.planners, u, aux, cb.data.subsystems,
                     colorBase, bestKCnt, cs, |graph.edges|);
      }
      MatchStepTrans(vs0, es0, ps0, vs1, es1, ps0, graph.vertices, graph.edges, graph.planners,
                     cb.data.subsystems, colorBase, bestKCnt);
    }

    /** The coloured middle of `aux_upv`: u turns gray and, unless it is
        the subsystem's root, its white children are walked into a fresh
        aggregator, in edge order, the first failing child failing u (which
        is then not painted black); otherwise u turns black. */
    method AuxVisit(meta: JobMeta, u: nat, aux: Subsystem, resources: seq<Resource>, excl: bool)
      returns (rc: int, upv: Scoring, ghost cs: seq<Descent>)
      requires Valid() && |cb.data.subsystems| > 0 && u < |graph.vertices| && aux in cb.data.subsystems
      modifies graph, cb
      decreases Unvisited(graph.vertices, cb.data.subsystems, colorBase),
                if IsWhite(ColorOf(graph.vertices[u].idata, aux), colorBase) then 0 else 8
      ensures colorBase == old(colorBase) && bestKCnt == old(bestKCnt)
      ensures cb.data.subsystems == old(cb.data.subsystems)
      ensures Valid()
      ensures MatchStep(old(graph.vertices), old(graph.edges), old(graph.planners),
                        graph.vertices, graph.edges, graph.planners, cb.data.subsystems, colorBase, bestKCnt)
      ensures AllEdgesBelow(upv, |graph.edges|)
      ensures rc == 0 || rc == -1
      ensures rc == 0 ==> IsBlack(ColorOf(graph.vertices[u].idata, aux), colorBase)
      ensures u == RootOf(aux) || old(!HasEligible(graph.vertices, graph.edges, u, aux, colorBase)) ==> rc == 0
      ensures Descents(old(graph.vertices), old(graph.edges), u, aux, colorBase, cs)
      ensures u == RootOf(aux) ==> cs == []
      ensures upv == UpFold(FreshScoring(), cs)
      ensures rc == 0 <==> AllOk(cs)
      ensures forall i :: 0 <= i < |cs| - 1 ==> cs[i].ok
      ensures rc == 0 && u != RootOf(aux) ==> CoveredBelow(graph.vertices, graph.edges, u, aux, colorBase, cs, |graph.edges|)
    {
      ghost var vs0, es0, ps0 := graph.vertices, graph.edges, graph.planners;
      ghost var subs := cb.data.subsystems;
      Color(u, aux, Gray(colorBase));
      if !HasEligible(vs0, es0, u, aux, colorBase) {
        NoEligibleStays(vs0, es0, graph.vertices, graph.edges, u, aux, subs, colorBase);
      }
      ghost var vs1 := graph.vertices;
      rc, upv, cs := 0, FreshScoring(), [];
      AllEdgesBelowWeakens(upv, |graph.edges|);
      if u != RootOf(aux) {
        rc, upv, cs := AuxChildren(meta, u, aux, resources, excl, upv);
        DescentsEarlier(vs0, es0, ps0, vs1, es0, ps0, u, aux, subs, colorBase, bestKCnt, cs);
        MatchStepTrans(vs0, es0, ps0, vs1, es0, ps0, graph.vertices, graph.edges, graph.planners,
                       subs, colorBase, bestKCnt);
      }
      if rc == 0 {
        AuxBlack(u, aux, vs0, es0, ps0, cs);
      }
    }

    /** u turns black in aux once its children are done: a match step, and
        whatever the children's descents covered stays covered. */
    method AuxBlack(u: nat, aux: Subsystem, ghost vs0: seq<ResourcePool>, ghost es0: seq<Edge>,
                    ghost ps0: seq<Planner>, ghost cs: seq<Descent>)
      requires Valid() && u < |graph.vertices| && aux in cb.data.subsystems
      requires MatchStep(vs0, es0, ps0, graph.vertices, graph.edges, graph.planners,
                         cb.data.subsystems, colorBase, bestKCnt)
      requires u != RootOf(aux) ==> CoveredBelow(graph.vertices, graph.edges, u, aux, colorBase, cs, |graph.edges|)
      modifies graph
      ensures colorBase == old(colorBase) && bestKCnt == old(bestKCnt) && cb.data.subsystems == old(cb.data.subsystems)
      ensures Valid() && graph.edges == old(graph.edges)
      ensures MatchStep(vs0, es0, ps0, graph.vertices, graph.edges, graph.planners,
                        cb.data.subsystems, colorBase, bestKCnt)
      ensures IsBlack(ColorOf(graph.vertices[u].idata, aux), colorBase)
      ensures u != RootOf(aux) ==> CoveredBelow(graph.vertices, graph.edges, u, aux, colorBase, cs, |graph.edges|)
    {
      ghost var vs1, es1, ps1 := graph.vertices, graph.edges, graph.planners;
      Color(u, aux, Black(colorBase));
      if u != RootOf(aux) {
        CoveredStays(vs1, es1, ps1, graph.vertices, graph.edges, graph.planners, u, aux, cb.data.subsystems,
                     colorBase, bestKCnt, cs, |graph.edges|);
      }
      MatchStepTrans(vs0, es0, ps0, vs1, es1, ps1, graph.vertices, graph.edges, graph.planners,
                     cb.data.subsystems, colorBase, bestKCnt);
    }

    /** The child loop of `aux_upv`: each white child of u in aux is walked,
        in edge order, stopping at the first that fails; the aggregator is
        the upward fold of the descents. */
    method AuxChildren(meta: JobMeta, u: nat, aux: Subsystem, resources: seq<Resource>, excl: bool, upv: Scoring)
      returns (rc: int, upv': Scoring, ghost cs: seq<Descent>)
      requires Valid() && |cb.data.subsystems| > 0 && u < |graph.vertices| && aux in cb.data.subsystems
      requires AllEdgesBelow(upv, |graph.edges|)
      modifies graph, cb
      decreases Unvisited(graph.vertices, cb.data.subsystems, colorBase), 6
      ensures colorBase == old(colorBase) && bestKCnt == old(bestKCnt)
      ensures cb.data.subsystems == old(cb.data.subsystems)
      ensures Valid()
      ensures MatchStep(old(graph.vertices), old(graph.edges), old(graph.planners),
                        graph.vertices, graph.edges, graph.planners, cb.data.subsystems, colorBase, bestKCnt)
      ensures AllEdgesBelow(upv', |graph.edges|) && Extended(upv, upv')
      ensures rc == 0 || rc == -1
      ensures old(!HasEligible(graph.vertices, graph.edges, u, aux, colorBase)) ==>
                rc == 0 && upv' == upv && graph.vertices == old(graph.vertices) && graph.edges == old(graph.edges)
      ensures Descents(old(graph.vertices), old(graph.edges), u, aux, colorBase, cs)
      ensures upv' == UpFold(upv, cs)
      ensures rc == 0 <==> AllOk(cs)
      ensures forall i :: 0 <= i < |cs| - 1 ==> cs[i].ok
      ensures rc == 0 ==> CoveredBelow(graph.vertices, graph.edges, u, aux, colorBase, cs, |graph.edges|)
    {
      ghost var vs0, es0, ps0 := graph.vertices, graph.edges, graph.planners;
      ghost var n := |graph.edges|;
      ghost var idle := !HasEligible(vs0, es0, u, aux, colorBase);
      rc, upv', cs := 0, upv, [];
      var e := 0;
      while e < |graph.edges|
        invariant 0 <= e <= |graph.edges| == n
        invariant Valid()
        invariant MatchStep(vs0, es0, ps0, graph.vertices, graph.edges, graph.planners,
                            cb.data.subsystems, colorBase, bestKCnt)
        invariant AllEdgesBelow(upv', n) && Extended(upv, upv')
        invariant idle ==> upv' == upv && graph.vertices == vs0 && graph.edges == es0
        invariant Descents(vs0, es0, u, aux, colorBase, cs) && forall i :: 0 <= i < |cs| ==> cs[i].edge < e
        invariant CoveredBelow(graph.vertices, graph.edges, u, aux, colorBase, cs, e)
        invariant upv' == UpFold(upv, cs) && AllOk(cs)
      {
        var rc1;
        rc1, upv', cs := AuxEdge(meta, u, e, aux, resources, excl, upv', vs0, es0, ps0, upv, idle, cs);
        if rc1 != 0 {
          return -1, upv', cs;
        }
        e := e + 1;
      }
    }

    /** One out-edge of `aux_upv`'s child loop: nothing happens unless its
        target is still white in aux; then the target is walked, one more
        descent of the loop. */
    method AuxEdge(meta: JobMeta, u: nat, e: nat, aux: Subsystem, resources: seq<Resource>, excl: bool,
                   upv: Scoring, ghost vs0: seq<ResourcePool>, ghost es0: seq<Edge>, ghost ps0: seq<Planner>,
                   ghost d0: Scoring, ghost idle: bool, ghost cs: seq<Descent>)
      returns (rc: int, upv': Scoring, ghost cs': seq<Descent>)
      requires Valid() && |cb.data.subsystems| > 0 && u < |graph.vertices| && e < |graph.edges|
      requires aux in cb.data.subsystems && idle == !HasEligible(vs0, es0, u, aux, colorBase)
      requires AllEdgesBelow(upv, |graph.edges|) && Extended(d0, upv)
      requires MatchStep(vs0, es0, ps0, graph.vertices, graph.edges, graph.planners,
                         cb.data.subsystems, colorBase, bestKCnt)
      requires idle ==> upv == d0 && graph.vertices == vs0 && graph.edges == es0
      requires Descents(vs0, es0, u, aux, colorBase, cs) && forall i :: 0 <= i < |cs| ==> cs[i].edge < e
      requires CoveredBelow(graph.vertices, graph.edges, u, aux, colorBase, cs, e)
      requires upv == UpFold(d0, cs) && AllOk(cs)
      modifies graph, cb
      decreases Unvisited(graph.vertices, cb.data.subsystems, colorBase), 3
      ensures colorBase == old(colorBase) && bestKCnt == old(bestKCnt)
      ensures cb.data.subsystems == old(cb.data.subsystems)
      ensures Valid()
      ensures MatchStep(vs0, es0, ps0, graph.vertices, graph.edges, graph.planners,
                        cb.data.subsystems, colorBase, bestKCnt)
      ensures AllEdgesBelow(upv', |graph.edges|) && Extended(d0, upv')
      ensures rc == 0 || rc == -1
      ensures idle ==> rc == 0 && upv' == d0 && graph.vertices == vs0 && graph.edges == es0
      ensures Descents(vs0, es0, u, aux, colorBase, cs') && forall i :: 0 <= i < |cs'| ==> cs'[i].edge < e + 1
      ensures upv' == UpFold(d0, cs') && (rc == 0 <==> AllOk(cs'))
      ensures forall i :: 0 <= i < |cs'| - 1 ==> cs'[i].ok
      ensures rc == 0 ==> CoveredBelow(graph.vertices, graph.edges, u, aux, colorBase, cs', e + 1)
    {
      rc, upv', cs' := 0, upv, cs;
      var ed := graph.edges[e];
      EligibleNow(u, e, aux, vs0, es0, ps0);
      if ed.src == u && InSubsystem(e, aux) && !StopExplore(e, aux) {
        ghost var t := graph.vertices[ed.tgt].rtype;
        ghost var vs1, es1, ps1 := graph.vertices, graph.edges, graph.planners;
        ghost var b, gen, subs := colorBase, bestKCnt, cb.data.subsystems;
        assert TraceReady(vs0, es0, ps0, vs1, es1, ps1, u, aux, subs, b, gen, cs, e);
        var x;
        ghost var own, avail;
        rc, x, upv', own, avail := Descend(meta, e, aux, resources, excl, Upv, upv);
        assert b == colorBase && gen == bestKCnt && subs == cb.data.subsystems;
        ghost var c := Descent(e, t, rc == 0, x, own, avail);
        TraceStep(vs0, es0, ps0, vs1, es1, ps1, graph.vertices, graph.edges, graph.planners, u, aux,
                  subs, b, gen, cs, c, e);
        DescentStep(cs, c);
        cs' := cs + [c];
        ExtendedTrans(d0, upv, upv');
      } else {
        CoveredSkip(graph.vertices, graph.edges, u, aux, colorBase, cs, e);
      }
    }

    /** `dom_exp`: u's children are explored in every subsystem in turn,
        downward in the dominant one and upward in the others: the
        aggregator is the fold of each subsystem's descents in turn
        (`ExpDone`), and the result is that of the last subsystem, 0 exactly
        when one of its children succeeded. */
    method DomExp(meta: JobMeta, u: nat, resources: seq<Resource>, excl: bool, leaf: bool, dfu: Scoring)
      returns (rc: int, leaf': bool, dfu': Scoring, ghost css: seq<seq<Descent>>)
      requires Valid() && |cb.data.subsystems| > 0 && u < |graph.vertices|
      requires AllEdgesBelow(dfu, |graph.edges|)
      modifies graph, cb
      decreases Unvisited(graph.vertices, cb.data.subsystems, colorBase), 7
      ensures colorBase == old(colorBase) && bestKCnt == old(bestKCnt)
      ensures cb.data.subsystems == old(cb.data.subsystems)
      ensures Valid()
      ensures ExpEnd(old(graph.vertices), old(graph.edges), old(graph.planners),
                     graph.vertices, graph.edges, graph.planners, u, cb.data.subsystems, colorBase, bestKCnt,
                     dfu, leaf, rc, leaf', dfu', css)
    {
      ghost var vs0, es0, ps0 := graph.vertices, graph.edges, graph.planners;
      ghost var subs := cb.data.subsystems;
      rc, leaf', dfu', css := -1, leaf, dfu, [];
      ExtendedTrans(dfu, dfu, dfu);
      var i := 0;
      while i < |cb.data.subsystems|
        invariant Valid() && cb.data.subsystems == subs
        invariant ExpLoop(vs0, es0, ps0, graph.vertices, graph.edges, graph.planners, u, cb.data.subsystems,
                          colorBase, bestKCnt, i, dfu, leaf, rc, leaf', dfu', css)
      {
        rc, leaf', dfu', css := DomExpStep(meta, u, i, resources, excl, leaf, dfu, vs0, es0, ps0, rc, leaf', dfu', css);
        i := i + 1;
      }
      ExpLoopDone(vs0, es0, ps0, graph.vertices, graph.edges, graph.planners, u, subs, colorBase, bestKCnt,
                  dfu, leaf, rc, leaf', dfu', css);
    }

    /** One subsystem of `dom_exp`: u's children are explored in subsystem
        i, downward in the dominant one and upward in the others. */
    method DomExpStep(meta: JobMeta, u: nat, i: nat, resources: seq<Resource>, excl: bool,
                      ghost leaf0: bool, ghost dfu0: Scoring, ghost vs0: seq<ResourcePool>, ghost es0: seq<Edge>,
                      ghost ps0: seq<Planner>, rc: int, leaf: bool, dfu: Scoring, ghost css: seq<seq<Descent>>)
      returns (rc': int, leaf': bool, dfu': Scoring, ghost css': seq<seq<Descent>>)
      requires Valid() && i < |cb.data.subsystems|
      requires ExpLoop(vs0, es0, ps0, graph.vertices, graph.edges, graph.planners, u, cb.data.subsystems,
                       colorBase, bestKCnt, i, dfu0, leaf0, rc, leaf, dfu, css)
      modifies graph, cb
      decreases Unvisited(graph.vertices, cb.data.subsystems, colorBase), 6
      ensures colorBase == old(colorBase) && bestKCnt == old(bestKCnt)
      ensures cb.data.subsystems == old(cb.data.subsystems)
      ensures Valid()
      ensures ExpLoop(vs0, es0, ps0, graph.vertices, graph.edges, graph.planners, u, cb.data.subsystems,
                      colorBase, bestKCnt, i + 1, dfu0, leaf0, rc', leaf', dfu', css')
    {
      ghost var vs1, es1, ps1 := graph.vertices, graph.edges, graph.planners;
      ghost var subs := cb.data.subsystems;
      var s := cb.data.subsystems[i];
      ghost var cs;
      rc', leaf', dfu', cs := Explore(meta, u, s, resources, excl, leaf, if s == Dom() then Dfv else Upv, dfu);
      css' := css + [cs];
      ExpLoopStep(vs0, es0, ps0, vs1, es1, ps1, graph.vertices, graph.edges, graph.planners, u, subs, i,
                  colorBase, bestKCnt, dfu0, leaf0, rc, leaf, dfu, css, rc', leaf', dfu', cs);
    }

    /** `dom_slot`: the slot's shape is explored below u, exclusively, into
        an aggregator of its own; when some child succeeded, as many slot
        groups as fit are built from it and added under (dom, "slot")
        (`SlotDone`). 0 when at least one slot fits, -1 otherwise. */
    method DomSlot(meta: JobMeta, u: nat, shape: seq<Resource>, leaf: bool, dfu: Scoring)
      returns (rc: int, leaf': bool, dfu': Scoring, ghost cs: seq<Descent>, ghost curs: seq<Scoring>)
      requires Valid() && |cb.data.subsystems| > 0 && u < |graph.vertices|
      requires AllEdgesBelow(dfu, |graph.edges|)
      modifies graph, cb
      decreases Unvisited(graph.vertices, cb.data.subsystems, colorBase), 6
      ensures colorBase == old(colorBase) && bestKCnt == old(bestKCnt)
      ensures cb.data.subsystems == old(cb.data.subsystems)
      ensures Valid()
      ensures MatchStep(old(graph.vertices), old(graph.edges), old(graph.planners),
                        graph.vertices, graph.edges, graph.planners, cb.data.subsystems, colorBase, bestKCnt)
      ensures AllEdgesBelow(dfu', |graph.edges|) && Extended(dfu, dfu')
      ensures SlotDone(old(graph.vertices), old(graph.edges), u, Dom(), colorBase, shape, cs, curs, dfu, dfu')
      ensures rc == if AnyOk(cs) && SlotsFit(ExploreFold(FreshScoring(), Dom(), Dfv, cs), Dom(), shape) > 0 then 0 else -1
      ensures CoveredBelow(graph.vertices, graph.edges, u, Dom(), colorBase, cs, |graph.edges|)
      ensures leaf' ==> leaf
    {
      var dom := Dom();
      ghost var n := |graph.edges|;
      AllEdgesBelowWeakens(dfu, n);
      var rc0, slotDfu;
      rc0, leaf', slotDfu, cs := Explore(meta, u, dom, shape, true, leaf, Dfv, FreshScoring());
      dfu', curs := dfu, [slotDfu];
      if rc0 != 0 {
        return -1, leaf', dfu, cs, curs;
      }
      var rc1 := cb.DomFinishSlot();
      var qual := SlotCount(slotDfu, dom, shape);
      SlotsFitIsLargest(slotDfu, dom, shape, qual);
      dfu', curs := AddSlots(slotDfu, dom, shape, qual, dfu, n);
      rc := if qual > 0 then 0 else -1;
    }

    /** `dom_dfv`: the walk in the dominant subsystem. u is exclusive when
        its parent's request was or some request of its type asks for it. A
        pruned vertex fails with nothing changed: a vertex that is not
        pruned always succeeds. Its visit (`DomVisit`) builds its aggregator
        as `test` directs (`VisitDone`); the post-order hook scores it, and
        it is resolved into the parent's, which takes u's avail and that
        score (`DfvInto`). */
    method DomDfv(meta: JobMeta, u: nat, resources: seq<Resource>, excl: bool, toParent: Scoring)
      returns (rc: int, excl': bool, toParent': Scoring, ghost own: Scoring, ghost visit: Visit, ghost visited: Scoring)
      requires Valid() && |cb.data.subsystems| > 0 && u < |graph.vertices|
      requires AllEdgesBelow(toParent, |graph.edges|)
      modifies graph, cb
      decreases Unvisited(graph.vertices, cb.data.subsystems, colorBase),
                if IsWhite(ColorOf(graph.vertices[u].idata, Dom()), colorBase) then 1 else 10, 1
      ensures colorBase == old(colorBase) && bestKCnt == old(bestKCnt)
      ensures cb.data.subsystems == old(cb.data.subsystems)
      ensures Valid()
      ensures MatchStep(old(graph.vertices), old(graph.edges), old(graph.planners),
                        graph.vertices, graph.edges, graph.planners, cb.data.subsystems, colorBase, bestKCnt)
      ensures AllEdgesBelow(toParent', |graph.edges|) && Extended(toParent, toParent')
      ensures rc == 0 || rc == -1
      ensures rc == 0 <==>
                !old(PruneSpec(meta, excl || AnyExclusive(resources, graph.vertices[u].rtype), Dom(), u, resources))
      ensures rc != 0 ==> excl' == excl && toParent' == toParent
                          && graph.vertices == old(graph.vertices) && graph.edges == old(graph.edges)
      ensures rc == 0 ==> excl' == (excl || AnyExclusive(resources, graph.vertices[u].rtype))
                          && IsBlack(ColorOf(graph.vertices[u].idata, Dom()), colorBase)
      ensures rc == 0 ==>
                var kn := TestOf(old(graph.vertices), old(graph.edges), u, resources);
                VisitDone(old(graph.vertices), old(graph.edges), u, kn.0, kn.1, cb.data.subsystems, colorBase,
                          visit, visited)
                && own == cb.Scored(Dom(), u, visited)
                && toParent' == DfvInto(toParent, own, OwnAvail(meta, u))
    {
      ghost var vs0, es0, ps0 := graph.vertices, graph.edges, graph.planners;
      var dom := Dom();
      var x := Exclusivity(resources, u);
      var xIn := excl || x;
      var kind, next := Test(u, resources);
      assert (kind, next) == TestOf(vs0, es0, u, resources);
      MatchStepRefl(vs0, es0, ps0, cb.data.subsystems, colorBase, bestKCnt);
      visit, visited, own := ExpVisit([]), FreshScoring(), FreshScoring();
      var pruned := Prune(meta, xIn, dom, u, resources);
      rc, excl', toParent' := -1, excl, toParent;
      if !pruned {
        rc := cb.DomDiscoverVtx();
        excl' := xIn;
        rc, toParent', own, visit, visited := DomDfvVisit(meta, u, kind, next, xIn, toParent);
      }
    }

    /** The part of `dom_dfv` past pruning, for a vertex with some of its
        own resources free: the visit, then the scoring of its aggregator
        into the parent's; the vertex always succeeds. */
    method DomDfvVisit(meta: JobMeta, u: nat, kind: MatchKind, next: seq<Resource>, xIn: bool, toParent: Scoring)
      returns (rc: int, toParent': Scoring, ghost own: Scoring, ghost visit: Visit, ghost visited: Scoring)
      requires Valid() && |cb.data.subsystems| > 0 && u < |graph.vertices|
      requires AllEdgesBelow(toParent, |graph.edges|) && OwnAvail(meta, u) != 0
      modifies graph, cb
      decreases Unvisited(graph.vertices, cb.data.subsystems, colorBase),
                if IsWhite(ColorOf(graph.vertices[u].idata, Dom()), colorBase) then 1 else 10, 0
      ensures colorBase == old(colorBase) && bestKCnt == old(bestKCnt)
      ensures cb.data.subsystems == old(cb.data.subsystems)
      ensures Valid()
      ensures MatchStep(old(graph.vertices), old(graph.edges), old(graph.planners),
                        graph.vertices, graph.edges, graph.planners, cb.data.subsystems, colorBase, bestKCnt)
      ensures AllEdgesBelow(toParent', |graph.edges|) && Extended(toParent, toParent')
      ensures rc == 0 && IsBlack(ColorOf(graph.vertices[u].idata, Dom()), colorBase)
      ensures VisitDone(old(graph.vertices), old(graph.edges), u, kind, next, cb.data.subsystems, colorBase,
                        visit, visited)
      ensures own == cb.Scored(Dom(), u, visited) && toParent' == DfvInto(toParent, own, OwnAvail(meta, u))
    {
      ghost var vs0, es0, ps0 := graph.vertices, graph.edges, graph.planners;
      var rc0, dfu;
      rc0, dfu, visit := DomVisit(meta, u, kind, next, xIn);
      visited := dfu;
      RecoloredKeeps(vs0, graph.vertices, u);
      ghost var vs1, es1 := graph.vertices, graph.edges;
      rc, toParent', own := DomLeave(meta, u, rc0, dfu, toParent);
      MatchStepTrans(vs0, es0, ps0, vs1, es1, ps0, graph.vertices, graph.edges, graph.planners,
                     cb.data.subsystems, colorBase, bestKCnt);
    }

    /** The end of `dom_dfv`, once u is visited: with nothing of u's own
        available the visit's code is returned unchanged; otherwise the
        post-order hook scores the aggregator, which is resolved into the
        parent's, and the parent's takes u's avail and that score; the
        vertex succeeds. */
    method DomLeave(meta: JobMeta, u: nat, rc0: int, dfu: Scoring, toParent: Scoring)
      returns (rc: int, toParent': Scoring, ghost own: Scoring)
      requires Valid() && |cb.data.subsystems| > 0 && u < |graph.vertices|
      requires AllEdgesBelow(dfu, |graph.edges|) && AllEdgesBelow(toParent, |graph.edges|)
      modifies graph, cb
      ensures colorBase == old(colorBase) && bestKCnt == old(bestKCnt)
      ensures cb.data.subsystems == old(cb.data.subsystems)
      ensures Valid()
      ensures graph.vertices == old(graph.vertices) && graph.planners == old(graph.planners)
      ensures MarkedWith(old(graph.edges), graph.edges, bestKCnt)
      ensures AllEdgesBelow(toParent', |graph.edges|) && Extended(toParent, toParent')
      ensures OwnAvail(meta, u) == 0 ==> rc == rc0 && toParent' == toParent && graph.edges == old(graph.edges)
      ensures OwnAvail(meta, u) != 0 ==>
                rc == 0 && own == cb.Scored(Dom(), u, dfu) && toParent' == DfvInto(toParent, own, OwnAvail(meta, u))
    {
      toParent', own := toParent, dfu;
      var avail := OwnAvail(meta, u);
      if avail == 0 {
        ExtendedTrans(toParent, toParent, toParent);
        return rc0, toParent, own;
      }
      var rc1, scored := cb.DomFinishVtx(Dom(), u, dfu);
      own := scored;
      rc, toParent' := ResolveInto(scored, toParent);
      ghost var tp := toParent';
      toParent' := SetOverallScore(SetAvail(toParent', ToUint64(avail)), scored.overallScore);
      assert forall s, t :: Groups(toParent', s, t) == Groups(tp, s, t);
    }

    /** The coloured middle of `dom_dfv`: u turns gray, the slot shape or
        the next requests are explored below it into a fresh aggregator, as
        `test` directed (`VisitDone`), and u turns black. */
    method DomVisit(meta: JobMeta, u: nat, kind: MatchKind, next: seq<Resource>, xIn: bool)
      returns (rc: int, dfu: Scoring, ghost visit: Visit)
      requires Valid() && |cb.data.subsystems| > 0 && u < |graph.vertices|
      modifies graph, cb
      decreases Unvisited(graph.vertices, cb.data.subsystems, colorBase),
                if IsWhite(ColorOf(graph.vertices[u].idata, Dom()), colorBase) then 0 else 9
      ensures colorBase == old(colorBase) && bestKCnt == old(bestKCnt)
      ensures cb.data.subsystems == old(cb.data.subsystems)
      ensures Valid()
      ensures MatchStep(old(graph.vertices), old(graph.edges), old(graph.planners),
                        graph.vertices, graph.edges, graph.planners, cb.data.subsystems, colorBase, bestKCnt)
      ensures AllEdgesBelow(dfu, |graph.edges|)
      ensures rc == 0 || rc == -1
      ensures IsBlack(ColorOf(graph.vertices[u].idata, Dom()), colorBase)
      ensures VisitDone(old(graph.vertices), old(graph.edges), u, kind, next, cb.data.subsystems, colorBase,
                        visit, dfu)
    {
      ghost var vs0, es0, ps0 := graph.vertices, graph.edges, graph.planners;
      ghost var subs := cb.data.subsystems;
      var dom := Dom();
      Color(u, dom, Gray(colorBase));
      ghost var vs1 := graph.vertices;
      rc, dfu, visit := DomVisitBody(meta, u, kind, next, xIn);
      VisitEarlier(vs0, es0, ps0, vs1, es0, ps0, u, kind, next, subs, colorBase, bestKCnt, visit, dfu);
      MatchStepTrans(vs0, es0, ps0, vs1, es0, ps0, graph.vertices, graph.edges, graph.planners,
                     subs, colorBase, bestKCnt);
      ghost var vs2, es2 := graph.vertices, graph.edges;
      Color(u, dom, Black(colorBase));
      MatchStepTrans(vs0, es0, ps0, vs2, es2, ps0, graph.vertices, graph.edges, graph.planners,
                     subs, colorBase, bestKCnt);
    }

    /** What `dom_dfv` does while u is gray: the slot shape is explored
        (`dom_slot`) or the next requests are (`dom_exp`), into a fresh
        aggregator, as `test` directed. */
    method DomVisitBody(meta: JobMeta, u: nat, kind: MatchKind, next: seq<Resource>, xIn: bool)
      returns (rc: int, dfu: Scoring, ghost visit: Visit)
      requires Valid() && |cb.data.subsystems| > 0 && u < |graph.vertices|
      modifies graph, cb
      decreases Unvisited(graph.vertices, cb.data.subsystems, colorBase), 8
      ensures colorBase == old(colorBase) && bestKCnt == old(bestKCnt)
      ensures cb.data.subsystems == old(cb.data.subsystems)
      ensures Valid()
      ensures MatchStep(old(graph.vertices), old(graph.edges), old(graph.planners),
                        graph.vertices, graph.edges, graph.planners, cb.data.subsystems, colorBase, bestKCnt)
      ensures AllEdgesBelow(dfu, |graph.edges|)
      ensures rc == 0 || rc == -1
      ensures VisitDone(old(graph.vertices), old(graph.edges), u, kind, next, cb.data.subsystems, colorBase,
                        visit, dfu)
    {
      var leaf := true;
      AllEdgesBelowWeakens(FreshScoring(), |graph.edges|);
      if kind == SlotKind {
        ghost var cs, curs;
        rc, leaf, dfu, cs, curs := DomSlot(meta, u, next, leaf, FreshScoring());
        visit := SlotVisit(cs, curs);
      } else {
        ghost var css;
        rc, leaf, dfu, css := DomExp(meta, u, next, xIn, leaf, FreshScoring());
        visit := ExpVisit(css);
      }
    }

    /** `resolve` at the root, after the walk: every request of the root's
        type must get a non-zero count from the root's avail (the last one
        sets needs), and every type recorded under every subsystem a
        non-zero qualified count; then each type without a top-K choice gets
        all its groups chosen, and the choice is enforced in every
        subsystem. */
    method Resolve(root: nat, resources: seq<Resource>, dfu: Scoring, excl: bool, needs: nat)
      returns (rc: int, needs': nat, dfu': Scoring)
      requires Valid() && |cb.data.subsystems| > 0 && root < |graph.vertices|
      requires EdgesBelow(dfu, |graph.edges|)
      requires RootCountsEnd(resources, graph.vertices[root].rtype)
      modifies graph
      ensures colorBase == old(colorBase) && bestKCnt == old(bestKCnt) && cb.data.subsystems == old(cb.data.subsystems)
      ensures Valid()
      ensures graph.vertices == old(graph.vertices) && graph.planners == old(graph.planners)
      ensures MarkedWith(old(graph.edges), graph.edges, bestKCnt)
      ensures rc == 0 || rc == -1
      ensures rc == 0 <==> RootCountsOk(resources, graph.vertices[root].rtype, ToUint32(dfu.avail))
                           && AllQualified(dfu, cb.data.subsystems)
      ensures rc == 0 ==>
                needs' == RootNeeds(resources, graph.vertices[root].rtype, ToUint32(dfu.avail), needs)
                && dfu' == ChooseRest(dfu, cb.data.subsystems)
                && graph.edges == EnforceAll(old(graph.edges), dfu', cb.data.subsystems, bestKCnt)
      ensures rc != 0 ==> graph.edges == old(graph.edges)
    {
      needs', dfu' := needs, dfu;
      var rc0 := cb.DomFinishGraph();
      if rc0 != 0 {
        return rc0, needs', dfu';
      }
      var ok;
      ok, needs' := RootCounts(graph.vertices[root].rtype, resources, ToUint32(dfu.avail), needs);
      if !ok {
        return -1, needs', dfu';
      }
      ok, dfu' := ChooseQualified(dfu);
      if !ok {
        return -1, needs', dfu';
      }
      EnforceEach(dfu');
      rc := 0;
    }

    /** The root's requests in `resolve`: `select_count` of each request of
        the root's type against the root's avail, failing at the first zero;
        the last count becomes needs. */
    method RootCounts(t: string, resources: seq<Resource>, qc: uint, needs: nat) returns (ok: bool, needs': nat)
      requires |cb.data.subsystems| > 0
      requires RootCountsEnd(resources, t)
      ensures ok <==> RootCountsOk(resources, t, qc)
      ensures ok ==> needs' == RootNeeds(resources, t, qc, needs)
    {
      needs' := needs;
      var i := 0;
      while i < |resources|
        invariant 0 <= i <= |resources|
        invariant RootCountsOk(resources[..i], t, qc)
        invariant forall k :: 0 <= k < i && resources[k].rtype == t ==> SelectCountTerminates(resources[k].count, qc)
        invariant needs' == RootNeeds(resources[..i], t, qc, needs)
      {
        assert resources[..i + 1][..i] == resources[..i];
        if resources[i].rtype == t {
          CountTerminatesAlways(resources[i].count, qc);
          var count := cb.data.SelectCount(resources[i], qc);
          if count == 0 {
            return false, needs';
          }
          needs' := count;
        }
        i := i + 1;
      }
      assert resources[..i] == resources;
      ok := true;
    }

    /** The types of `resolve`: every type recorded under every subsystem
        must have a non-zero qualified count, failing at the first that has
        none; each type without a top-K choice gets all its groups
        chosen. */
    method ChooseQualified(dfu: Scoring) returns (ok: bool, dfu': Scoring)
      requires |cb.data.subsystems| > 0
      ensures ok <==> AllQualified(dfu, cb.data.subsystems)
      ensures ok ==> dfu' == ChooseRest(dfu, cb.data.subsystems)
      ensures dfu'.groups == dfu.groups
    {
      dfu' := dfu;
      var subs := cb.data.subsystems;
      ghost var goal := ChooseRest(dfu, subs);
      var si := 0;
      while si < |subs|
        invariant 0 <= si <= |subs|
        invariant dfu'.groups == dfu.groups && dfu'.types == dfu.types && dfu'.bestK == dfu.bestK
        invariant ChooseRest(dfu', subs[si..]) == goal
        invariant forall i', k :: 0 <= i' < si && 0 <= k < |ResrcTypes(dfu, subs[i'])| ==>
                    QualifiedCount(dfu, subs[i'], ResrcTypes(dfu, subs[i'])[k]) > 0
      {
        assert subs[si..][0] == subs[si] && subs[si..][1..] == subs[si + 1..];
        var okS;
        okS, dfu' := ChooseSubsystem(dfu', subs[si]);
        if !okS {
          assert !AllQualified(dfu, subs) by {
            var k :| 0 <= k < |ResrcTypes(dfu, subs[si])| && QualifiedCount(dfu, subs[si], ResrcTypes(dfu, subs[si])[k]) == 0;
          }
          return false, dfu';
        }
        si := si + 1;
      }
      assert subs[si..] == [];
      ok := true;
    }

    /** The types of one subsystem in `resolve`: each must have a non-zero
        qualified count, failing at the first that has none; each type
        without a top-K choice gets all its groups chosen. */
    method ChooseSubsystem(dfu: Scoring, s: Subsystem) returns (ok: bool, dfu': Scoring)
      ensures dfu'.groups == dfu.groups && dfu'.types == dfu.types && dfu'.bestK == dfu.bestK
      ensures ok <==> forall k :: 0 <= k < |ResrcTypes(dfu, s)| ==> QualifiedCount(dfu, s, ResrcTypes(dfu, s)[k]) > 0
      ensures ok ==> dfu' == ChooseTypes(dfu, s, ResrcTypes(dfu, s))
    {
      dfu' := dfu;
      var ts := ResrcTypes(dfu, s);
      assert ts[0..] == ts;
      var k := 0;
      while k < |ts|
        invariant 0 <= k <= |ts|
        invariant dfu'.groups == dfu.groups && dfu'.types == dfu.types && dfu'.bestK == dfu.bestK
        invariant ChooseTypes(dfu', s, ts[k..]) == ChooseTypes(dfu, s, ts)
        invariant forall k' :: 0 <= k' < k ==> QualifiedCount(dfu, s, ts[k']) > 0
      {
        assert ts[k..][0] == ts[k] && ts[k..][1..] == ts[k + 1..];
        assert Groups(dfu', s, ts[k]) == Groups(dfu, s, ts[k]);
        if QualifiedCount(dfu', s, ts[k]) == 0 {
          return false, dfu';
        } else if !BestK(dfu', s, ts[k]) {
          dfu' := ChooseAccumAll(dfu', s, ts[k]);
        }
        k := k + 1;
      }
      assert ts[k..] == [];
      ok := true;
    }

    /** `select`: a new match generation, then the dominant walk from the
        root; the aggregator it leaves (`walked`: the root's visit, scored
        and resolved as `dom_dfv` does) gets a root group of the root's
        type, and `resolve` at the root decides: the match succeeds exactly
        when the root is not pruned, the root's requests all get a count
        from the walked avail and every recorded type is qualified. The walk
        writes only this generation's decisions. */
    method Select(j: Jobspec, root: nat, meta: JobMeta, excl: bool, needs: nat)
      returns (rc: int, needs': nat, ghost walked: Scoring, ghost own: Scoring, ghost visit: Visit,
               ghost visited: Scoring)
      requires Valid() && |cb.data.subsystems| > 0 && root < |graph.vertices|
      requires RootCountsEnd(j.resources, graph.vertices[root].rtype)
      modifies this, graph, cb
      ensures Valid()
      ensures bestKCnt == old(bestKCnt) + 1 && colorBase == Reset(old(colorBase)) && travLevel == old(travLevel)
      ensures Recolored(old(graph.vertices), graph.vertices) && graph.planners == old(graph.planners)
      ensures MarkedWith(old(graph.edges), graph.edges, bestKCnt)
      ensures rc == 0 || rc == -1
      ensures old(PruneSpec(meta, excl || AnyExclusive(j.resources, graph.vertices[root].rtype), Dom(), root, j.resources))
              ==> rc == -1 && graph.edges == old(graph.edges)
      ensures var t := old(graph.vertices[root].rtype);
              rc == 0 <==>
                !old(PruneSpec(meta, excl || AnyExclusive(j.resources, t), Dom(), root, j.resources))
                && RootResolves(j.resources, t, walked, excl, cb.data.subsystems)
      ensures rc == 0 ==> needs' == RootNeeds(j.resources, old(graph.vertices[root].rtype), ToUint32(walked.avail), needs)
      ensures !old(PruneSpec(meta, excl || AnyExclusive(j.resources, graph.vertices[root].rtype), Dom(), root, j.resources))
              ==> var kn := TestOf(old(graph.vertices), old(graph.edges), root, j.resources);
                  VisitDone(old(graph.vertices), old(graph.edges), root, kn.0, kn.1, cb.data.subsystems, colorBase,
                            visit, visited)
                  && own == cb.Scored(Dom(), root, visited)
                  && walked == DfvInto(FreshScoring(), own, OwnAvail(meta, root))
    {
      ghost var vs0, es0 := graph.vertices, graph.edges;
      Tick();
      var xIn, dfu;
      rc, xIn, dfu, own, visit, visited := DomDfv(meta, root, j.resources, excl, FreshScoring());
      walked := dfu;
      needs' := needs;
      RecoloredKeeps(vs0, graph.vertices, root);
      if rc == 0 {
        var g := RootGroup(dfu, excl);
        var t := graph.vertices[root].rtype;
        AllEdgesBelowWeakens(dfu, |graph.edges|);
        AddWf(dfu, Dom(), t, g, |graph.edges|);
        dfu := Add(dfu, Dom(), t, g);
        ghost var es1 := graph.edges;
        rc, needs', dfu := Resolve(root, j.resources, dfu, excl, needs);
        MarkedWithTrans(es0, es1, graph.edges, bestKCnt);
      }
    }

    /** `updcore`: u is booked as `CoreEffect` states; the count of
        committed vertices grows by one for an exclusive u; the traversal
        level drops by one, wrapping around as an unsigned int. The
        emitted vertex line is output only. */
    method Updcore(meta: JobMeta, u: nat, s: Subsystem, needs: nat, excl: bool, n: nat,
                   dfu: map<string, int>, toParent: map<string, int>)
      returns (n': nat, toParent': map<string, int>)
      requires Valid() && u < |graph.vertices|
      modifies this, graph
      ensures Valid()
      ensures graph.edges == old(graph.edges) && bestKCnt == old(bestKCnt) && colorBase == old(colorBase)
      ensures travLevel == DecLevel(old(travLevel))
      ensures n' == n + (if excl then 1 else 0)
      ensures (graph.vertices, graph.planners, toParent')
              == CoreEffect(old(graph.vertices), old(graph.planners), cb.data.sdauResourceTypes,
                            u, s, needs, excl, n, meta, dfu, toParent)
    {
      var span, acc1 := UpdOwn(meta, u, s, needs, excl, toParent);
      n' := n + (if excl then 1 else 0);
      toParent' := UpdBook(meta, u, s, excl, n', span, dfu, acc1);
      travLevel := DecLevel(travLevel);
    }

    /** The first half of `updcore`, as `OwnEffect` states. */
    method UpdOwn(meta: JobMeta, u: nat, s: Subsystem, needs: nat, excl: bool, toParent: map<string, int>)
      returns (span: int, toParent': map<string, int>)
      requires Valid() && u < |graph.vertices|
      modifies graph
      ensures colorBase == old(colorBase) && bestKCnt == old(bestKCnt) && cb.data.subsystems == old(cb.data.subsystems)
      ensures Valid()
      ensures graph.edges == old(graph.edges) && graph.vertices == old(graph.vertices)
      ensures (graph.planners, span, toParent')
              == OwnEffect(old(graph.vertices), old(graph.planners), cb.data.sdauResourceTypes,
                           u, s, needs, excl, meta, toParent)
    {
      span, toParent' := -1, toParent;
      if excl {
        var own := graph.vertices[u].schedule.plans;
        var added := AddSpan(graph.planners[own], meta.at, meta.duration, [needs]);
        graph.SetPlanner(own, added.0);
        span := added.1;
        toParent' := AccumIf(cb.data.sdauResourceTypes, s, graph.vertices[u].rtype, needs, toParent).1;
      }
    }

    /** The second half of `updcore`, as `BookEffect` states. */
    method UpdBook(meta: JobMeta, u: nat, s: Subsystem, excl: bool, n: nat, span: int,
                   dfu: map<string, int>, toParent: map<string, int>)
      returns (toParent': map<string, int>)
      requires Valid() && u < |graph.vertices|
      modifies graph
      ensures colorBase == old(colorBase) && bestKCnt == old(bestKCnt) && cb.data.subsystems == old(cb.data.subsystems)
      ensures Valid()
      ensures graph.edges == old(graph.edges)
      ensures (graph.vertices, graph.planners, toParent')
              == BookEffect(old(graph.vertices), old(graph.planners), cb.data.sdauResourceTypes,
                            u, s, excl, n, span, meta, dfu, toParent)
    {
      toParent' := toParent;
      BookEffectKeeps(graph.vertices, graph.edges, graph.planners, cb.data.sdauResourceTypes,
                      u, s, excl, n, span, meta, dfu, toParent);
      if n > 0 {
        var p := graph.vertices[u];
        var h := SubplanOf(p.idata, s);
        var sched := p.schedule;
        if meta.allocate {
          sched := sched.(tags := sched.tags[meta.jobid := meta.jobid]);
        }
        if excl {
          if meta.allocate {
            sched := sched.(allocations := sched.allocations[meta.jobid := span]);
          } else {
            sched := sched.(reservations := sched.reservations[meta.jobid := span]);
          }
        }
        var idata := p.idata;
        if 0 <= h && dfu != map[] {
          var agg := Count(h, dfu);
          var added := AddSpan(graph.planners[h], meta.at, meta.duration, agg);
          graph.SetPlanner(h, added.0);
          idata := idata.(job2span := idata.job2span[meta.jobid := added.1]);
        }
        graph.SetVertex(u, p.(schedule := sched, idata := idata));
        toParent' := AccumEach(s, dfu, toParent);
      }
    }

    /** `upd_upv`: the update of an auxiliary subsystem is a stub that
        commits nothing. */
    method UpdUpv(meta: JobMeta, u: nat, s: Subsystem, needs: nat, excl: bool, toParent: map<string, int>)
      returns (n: nat)
      ensures n == 0
    {
      return 0;
    }

    /** `upd_dfv`: the children of u reached by followed edges are updated
        first, subsystem by subsystem (only the dominant one descends), then
        u is painted black and booked by `updcore`. Only u's chosen subtree
        changes; nothing but colours when nothing was committed, some
        vertex booked otherwise; an exclusive u commits itself, and a
        committing u is tagged when allocating. The traversal level comes
        back where it was. */
    method UpdDfv(meta: JobMeta, u: nat, needs: nat, excl: bool, toParent: map<string, int>,
                  ghost rank: seq<nat>)
      returns (n: nat, toParent': map<string, int>)
      requires Valid() && |cb.data.subsystems| > 0 && u < |graph.vertices|
      requires |rank| == |graph.vertices| && RankedBy(graph.edges, rank, Dom(), bestKCnt)
      modifies this, graph
      decreases rank[u], 3
      ensures Valid()
      ensures graph.edges == old(graph.edges) && bestKCnt == old(bestKCnt) && colorBase == old(colorBase)
      ensures travLevel == old(travLevel)
      ensures UpdOutcome(old(graph.vertices), old(graph.planners), graph.vertices, graph.planners,
                         graph.edges, rank, u, Dom(), bestKCnt, meta, n, toParent, toParent')
      ensures excl ==> n > 0 && BookedAt(graph.vertices[u], meta)
      ensures n > 0 && meta.allocate ==>
                meta.jobid in graph.vertices[u].schedule.tags
                && graph.vertices[u].schedule.tags[meta.jobid] == meta.jobid
      ensures IsBlack(ColorOf(graph.vertices[u].idata, Dom()), colorBase)
    {
      ghost var t0 := travLevel;
      travLevel := IncLevel(travLevel);
      var n0, dfu := UpdChildren(meta, u, rank);
      n, toParent' := UpdFinish(meta, u, needs, excl, n0, dfu, toParent, rank, old(graph.vertices), old(graph.planners));
      LevelRestored(t0);
    }

    /** The end of `upd_dfv`, after the children: u is painted black in the
        dominant subsystem and booked by `updcore`. */
    method UpdFinish(meta: JobMeta, u: nat, needs: nat, excl: bool, n0: nat, dfu: map<string, int>,
                     toParent: map<string, int>, ghost rank: seq<nat>,
                     ghost vs0: seq<ResourcePool>, ghost ps0: seq<Planner>)
      returns (n: nat, toParent': map<string, int>)
      requires Valid() && |cb.data.subsystems| > 0 && u < |graph.vertices|
      requires UpdOutcome(vs0, ps0, graph.vertices, graph.planners, graph.edges, rank, u, Dom(), bestKCnt,
                          meta, n0, map[], dfu)
      modifies this, graph
      ensures Valid()
      ensures graph.edges == old(graph.edges) && bestKCnt == old(bestKCnt) && colorBase == old(colorBase)
      ensures travLevel == DecLevel(old(travLevel))
      ensures UpdOutcome(vs0, ps0, graph.vertices, graph.planners, graph.edges, rank, u, Dom(), bestKCnt,
                         meta, n, toParent, toParent')
      ensures excl ==> n > 0 && BookedAt(graph.vertices[u], meta)
      ensures n > 0 && meta.allocate ==>
                meta.jobid in graph.vertices[u].schedule.tags
                && graph.vertices[u].schedule.tags[meta.jobid] == meta.jobid
      ensures IsBlack(ColorOf(graph.vertices[u].idata, Dom()), colorBase)
    {
      ghost var vs1, ps1 := graph.vertices, graph.planners;
      var dom := Dom();
      Color(u, dom, Black(colorBase));
      ghost var vs2 := graph.vertices;
      assert forall v :: 0 <= v < |vs1| && v != u ==> vs2[v] == vs1[v];
      RecoloredKeeps(vs1, vs2, u);
      n, toParent' := Updcore(meta, u, dom, needs, excl, n0, dfu, toParent);
      CoreEffectMeans(vs2, ps1, cb.data.sdauResourceTypes, u, dom, needs, excl, n0, meta, dfu, toParent);
      UpdLeaveOutcome(vs0, ps0, vs1, ps1, vs2, graph.vertices, graph.planners, cb.data.sdauResourceTypes,
                      graph.edges, rank, u, dom, bestKCnt, meta, needs, excl, n0, dfu, toParent, toParent');
    }

    /** The subsystem loop of `upd_dfv`: the out-edges of u in every
        subsystem in turn. */
    method UpdChildren(meta: JobMeta, u: nat, ghost rank: seq<nat>) returns (n: nat, dfu: map<string, int>)
      requires Valid() && |cb.data.subsystems| > 0 && u < |graph.vertices|
      requires |rank| == |graph.vertices| && RankedBy(graph.edges, rank, Dom(), bestKCnt)
      modifies this, graph
      decreases rank[u], 2
      ensures Valid()
      ensures graph.edges == old(graph.edges) && bestKCnt == old(bestKCnt) && colorBase == old(colorBase)
      ensures travLevel == old(travLevel)
      ensures UpdOutcome(old(graph.vertices), old(graph.planners), graph.vertices, graph.planners,
                         graph.edges, rank, u, Dom(), bestKCnt, meta, n, map[], dfu)
    {
      ghost var vs0, ps0 := graph.vertices, graph.planners;
      CommittedRefl(vs0, ps0, meta);
      n, dfu := 0, map[];
      var subs := cb.data.subsystems;
      var dom := Dom();
      var i := 0;
      while i < |subs|
        invariant 0 <= i <= |subs|
        invariant Valid() && |rank| == |graph.vertices|
        invariant graph.edges == old(graph.edges) && bestKCnt == old(bestKCnt) && colorBase == old(colorBase)
        invariant travLevel == old(travLevel)
        invariant UpdOutcome(vs0, ps0, graph.vertices, graph.planners, graph.edges, rank, u, dom, bestKCnt,
                             meta, n, map[], dfu)
      {
        n, dfu := UpdSubsystem(meta, u, subs[i], subs[i] == dom, n, dfu, rank, vs0, ps0);
        i := i + 1;
      }
    }

    /** The edge loop of `upd_dfv` for one subsystem. */
    method UpdSubsystem(meta: JobMeta, u: nat, s: Subsystem, isDom: bool, n: nat, dfu: map<string, int>,
                        ghost rank: seq<nat>, ghost vs0: seq<ResourcePool>, ghost ps0: seq<Planner>)
      returns (n': nat, dfu': map<string, int>)
      requires Valid() && |cb.data.subsystems| > 0 && u < |graph.vertices| && isDom == (s == Dom())
      requires |rank| == |graph.vertices| && RankedBy(graph.edges, rank, Dom(), bestKCnt)
      requires UpdOutcome(vs0, ps0, graph.vertices, graph.planners, graph.edges, rank, u, Dom(), bestKCnt,
                          meta, n, map[], dfu)
      modifies this, graph
      decreases rank[u], 1
      ensures Valid()
      ensures graph.edges == old(graph.edges) && bestKCnt == old(bestKCnt) && colorBase == old(colorBase)
      ensures travLevel == old(travLevel)
      ensures UpdOutcome(vs0, ps0, graph.vertices, graph.planners, graph.edges, rank, u, Dom(), bestKCnt,
                         meta, n', map[], dfu')
    {
      n', dfu' := n, dfu;
      var e := 0;
      while e < |graph.edges|
        invariant 0 <= e <= |graph.edges|
        invariant Valid() && |rank| == |graph.vertices|
        invariant graph.edges == old(graph.edges) && bestKCnt == old(bestKCnt) && colorBase == old(colorBase)
        invariant travLevel == old(travLevel)
        invariant UpdOutcome(vs0, ps0, graph.vertices, graph.planners, graph.edges, rank, u, Dom(), bestKCnt,
                             meta, n', map[], dfu')
      {
        n', dfu' := UpdEdge(meta, u, e, s, isDom, n', dfu', rank, vs0, ps0);
        e := e + 1;
      }
    }

    /** One out-edge of `upd_dfv`'s loops: an edge of u in s whose target is
        neither gray nor black and whose decision is of the current
        generation is followed, with the edge's exclusivity and its needs
        (cast to an unsigned int); any other edge is skipped. The emitted
        edge line is output only. */
    method UpdEdge(meta: JobMeta, u: nat, e: nat, s: Subsystem, isDom: bool, n: nat, dfu: map<string, int>,
                   ghost rank: seq<nat>, ghost vs0: seq<ResourcePool>, ghost ps0: seq<Planner>)
      returns (n': nat, dfu': map<string, int>)
      requires Valid() && |cb.data.subsystems| > 0 && u < |graph.vertices| && e < |graph.edges|
      requires isDom == (s == Dom())
      requires |rank| == |graph.vertices| && RankedBy(graph.edges, rank, Dom(), bestKCnt)
      requires UpdOutcome(vs0, ps0, graph.vertices, graph.planners, graph.edges, rank, u, Dom(), bestKCnt,
                          meta, n, map[], dfu)
      modifies this, graph
      decreases rank[u], 0
      ensures Valid()
      ensures graph.edges == old(graph.edges) && bestKCnt == old(bestKCnt) && colorBase == old(colorBase)
      ensures travLevel == old(travLevel)
      ensures UpdOutcome(vs0, ps0, graph.vertices, graph.planners, graph.edges, rank, u, Dom(), bestKCnt,
                         meta, n', map[], dfu')
    {
      n', dfu' := n, dfu;
      var ed := graph.edges[e];
      if ed.src == u && InSubsystem(e, s) && !StopExplore(e, s) && ed.relation.idata.bestKCnt == bestKCnt {
        var x := ed.relation.idata.exclusive != 0;
        var needs := ToUint32(ed.relation.idata.needs);
        if isDom {
          assert Followed(ed, Dom(), bestKCnt);
          ghost var vs1, ps1 := graph.vertices, graph.planners;
          var k;
          k, dfu' := UpdDfv(meta, ed.tgt, needs, x, dfu, rank);
          UpdOutcomeTrans(vs0, ps0, vs1, ps1, graph.vertices, graph.planners, graph.edges, rank,
                          u, e, Dom(), bestKCnt, meta, n, k, map[], dfu, dfu');
          n' := n + k;
        } else {
          var k := UpdUpv(meta, ed.tgt, s, needs, x, dfu);
          n' := n + k;
        }
      }
    }

    /** `update`: a new colour epoch, then `upd_dfv` from the root with an
        empty accumulator. 0 when the walk committed something, and then
        some vertex is booked for the job; -1 when it committed nothing,
        and then only colours changed. An exclusive root always commits.
        Only the root and the vertices reached along followed edges below
        it change, no planner gets over-committed, and every span added is
        over the job's window. */
    method Update(root: nat, meta: JobMeta, needs: nat, excl: bool, ghost rank: seq<nat>) returns (rc: int)
      requires Valid() && |cb.data.subsystems| > 0 && root < |graph.vertices|
      requires |rank| == |graph.vertices| && RankedBy(graph.edges, rank, Dom(), bestKCnt)
      modifies this, graph
      ensures Valid()
      ensures graph.edges == old(graph.edges) && bestKCnt == old(bestKCnt)
      ensures colorBase == Reset(old(colorBase)) && travLevel == old(travLevel)
      ensures rc == 0 || rc == -1
      ensures Committed(old(graph.vertices), old(graph.planners), graph.vertices, graph.planners, meta)
      ensures TouchedOnly(old(graph.vertices), graph.vertices, graph.edges, rank, root, Dom(), bestKCnt)
      ensures rc == 0 ==> AnyBooked(graph.vertices, meta)
      ensures rc == -1 ==> Recolored(old(graph.vertices), graph.vertices) && graph.planners == old(graph.planners)
      ensures excl ==> rc == 0
    {
      TickColorBase();
      var n, acc := UpdDfv(meta, root, needs, excl, map[], rank);
      rc := if n > 0 then 0 else -1;
    }
  }

  lemma FirstHitSkips(rs: seq<Resource>, t: string, i: nat)
    requires i < FirstHit(rs, t)
    ensures i + 1 <= FirstHit(rs, t)
  {
  }
}
