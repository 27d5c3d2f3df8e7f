/** The traverser front end (dfu_traverser_t in dfu_traverse.hpp). It primes
    every subsystem once from its root. It then runs one match request at a
    time: it tries to allocate at the requested time, or else it reserves at
    the first later time that the dominant root's subtree planner offers, and
    then it commits the match. */
module DfuTraverser {
  import opened Jobspec
  import opened ResourceData
  import opened MatcherData
  import opened DfuMatchCb
  import opened Planners
  import opened DfuJobMeta
  import opened DfuTraverseImpl
  import opened ScoringApi

  /** Every subsystem of the matcher has a root. */
  predicate AllRooted(subs: seq<Subsystem>, roots: map<Subsystem, nat>)
  {
    forall i :: 0 <= i < |subs| ==> subs[i] in roots
  }

  /** Ranks strictly fall along every edge of the dominant subsystem, so its
      hierarchy has no cycle. */
  ghost predicate DomRanked(es: seq<Edge>, rank: seq<nat>, dom: Subsystem)
  {
    forall e :: 0 <= e < |es| && dom in es[e].relation.idata.memberOf ==>
      es[e].src < |rank| && es[e].tgt < |rank| && rank[es[e].tgt] < rank[es[e].src]
  }

  /** An acyclic dominant hierarchy stays acyclic when a walk reweights its
      edges. Its edges of any one generation are then ranked too. */
  lemma DomRankedReweighted(es0: seq<Edge>, es: seq<Edge>, rank: seq<nat>, dom: Subsystem, gen: nat)
    requires DomRanked(es0, rank, dom) && Reweighted(es0, es)
    ensures DomRanked(es, rank, dom) && RankedBy(es, rank, dom, gen)
  {
    forall e | 0 <= e < |es| && dom in es[e].relation.idata.memberOf
      ensures es[e].src < |rank| && es[e].tgt < |rank| && rank[es[e].tgt] < rank[es[e].src]
    {
      assert Shape(es0[e]) == Shape(es[e]);
    }
  }

  /** Two forests of the same shape agree on every top-level request, apart
      from `with` lists and user data. */
  lemma {:induction false} SameShapeTop(a: seq<Resource>, b: seq<Resource>)
    requires SameShape(a, b)
    ensures |a| == |b| && forall i :: 0 <= i < |a| ==> Bare(a[i]) == Bare(b[i])
    decreases a
  {
    if |a| > 0 {
      SameShapeTop(a[1..], b[1..]);
      forall i | 1 <= i < |a|
        ensures Bare(a[i]) == Bare(b[i])
      {
        assert a[1..][i - 1] == a[i] && b[1..][i - 1] == b[i];
      }
    }
  }

  /** What a successful run leaves under metadata meta. Every vertex is
      booked for this job only, and every planner gained only spans over the
      job's window. Some vertex is booked. */
  ghost predicate RunCommitted(vs0: seq<ResourcePool>, ps0: seq<Planner>, vs: seq<ResourcePool>, ps: seq<Planner>,
                               meta: JobMeta)
  {
    Committed(vs0, ps0, vs, ps, meta) && AnyBooked(vs, meta)
  }

  /** The root's subtree planner for the dominant subsystem, and the demand
      the primed request puts on it: the times a reservation may use. */
  ghost predicate ReservableAt(vs: seq<ResourcePool>, ps: seq<Planner>, root: nat, dom: Subsystem,
                               dfv: map<string, int>, t: int, duration: nat)
  {
    root < |vs|
    && var h := SubplanOf(vs[root].idata, dom);
       0 <= h < |ps| && Fits(ps[h], t, duration, AggregateOf(ps[h].resourceTypes, dfv))
  }

  class DfuTraverser {
    const impl: DfuImpl
    /** The duration a request gets when its jobspec names none. */
    const defaultDuration: nat

    ghost predicate Valid()
      reads this, impl, impl.graph, impl.cb.data
    {
      impl.Valid()
    }

    /** A traverser over graph g with roots and match callback m. */
    constructor (g: ResourceGraph, roots: map<Subsystem, nat>, m: DfuMatchCb, defaultDuration: nat)
      ensures fresh(impl) && impl.graph == g && impl.roots == roots && impl.cb == m
      ensures impl.bestKCnt == 0 && impl.colorBase == 0 && impl.travLevel == 0
      ensures this.defaultDuration == defaultDuration
    {
      impl := new DfuImpl(g, m, roots);
      this.defaultDuration := defaultDuration;
    }

    /** `initialize ()`: the older `prime` of each subsystem from its root,
        in subsystem order. It fails with -1 at the first subsystem that has
        no root (ERANGE); the subsystems before it stay primed. Priming
        changes only colours and subtree planners and adds planners. */
    method Initialize() returns (rc: int)
      requires Valid()
      modifies impl.graph
      ensures Valid()
      ensures impl.graph.edges == old(impl.graph.edges)
      ensures Reprimed(old(impl.graph.vertices), impl.graph.vertices)
      ensures Extends(old(impl.graph.planners), impl.graph.planners)
      ensures rc == 0 || rc == -1
      ensures rc == 0 <==> AllRooted(impl.cb.data.subsystems, impl.roots)
    {
      ghost var vs0, ps0 := impl.graph.vertices, impl.graph.planners;
      var subs := impl.cb.data.subsystems;
      rc := 0;
      var i := 0;
      while i < |subs|
        invariant 0 <= i <= |subs|
        invariant Valid() && impl.graph.edges == old(impl.graph.edges)
        invariant Reprimed(vs0, impl.graph.vertices) && Extends(ps0, impl.graph.planners)
        invariant rc == 0 && forall k :: 0 <= k < i ==> subs[k] in impl.roots
      {
        if subs[i] !in impl.roots {
          return -1;
        }
        ghost var vs1, ps1 := impl.graph.vertices, impl.graph.planners;
        var r := PrimeRoot(subs[i], impl.roots[subs[i]]);
        ReprimedTrans(vs0, vs1, impl.graph.vertices);
        ExtendsTrans(ps0, ps1, impl.graph.planners);
        rc := rc + r;
        i := i + 1;
      }
    }

    /** One subsystem's priming in `initialize ()`, with a fresh parent
        map: it succeeds, and it changes only colours and subtree planners
        and adds planners. */
    method PrimeRoot(s: Subsystem, u: nat) returns (rc: int)
      requires Valid() && u < |impl.graph.vertices|
      modifies impl.graph
      ensures Valid()
      ensures impl.graph.edges == old(impl.graph.edges)
      ensures Reprimed(old(impl.graph.vertices), impl.graph.vertices)
      ensures Extends(old(impl.graph.planners), impl.graph.planners)
      ensures rc == 0
    {
      var toParent, childAgg;
      rc, toParent, childAgg := impl.PrimeLegacy(s, u, map[]);
    }

    /** `initialize (g, roots, m)`: a traverser over g, roots and m, then
        `initialize ()`. */
    static method InitializeWith(g: ResourceGraph, roots: map<Subsystem, nat>, m: DfuMatchCb, defaultDuration: nat)
      returns (t: DfuTraverser, rc: int)
      requires g.Valid() && m.data.Valid() && ColorsBelow(g.vertices, 0)
      requires forall s :: s in roots ==> roots[s] < |g.vertices|
      modifies g
      ensures fresh(t) && t.Valid() && t.impl.graph == g && t.impl.roots == roots && t.impl.cb == m
      ensures t.defaultDuration == defaultDuration
      ensures g.edges == old(g.edges) && Reprimed(old(g.vertices), g.vertices) && Extends(old(g.planners), g.planners)
      ensures rc == 0 || rc == -1
      ensures rc == 0 <==> AllRooted(m.data.subsystems, roots)
    {
      t := new DfuTraverser(g, roots, m, defaultDuration);
      rc := t.Initialize();
    }

    /** `run`: allocate at `at`, or else, under MatchAllocateOrElseReserve,
        reserve at a later time; then commit. The result is -1 and nothing
        changes when the dominant subsystem has no root or the request list
        is empty. Otherwise the request list comes back primed. A failed run
        changes only colours and edge marks. A successful run either
        allocated at `at`, or reserved at a later time at which the root's
        subtree planner fits the request's totals. In both cases it
        committed the job under the request's duration. */
    method Run(j: Jobspec, op: MatchOp, jobid: int, at: int, ghost rank: seq<nat>)
      returns (rc: int, at': int, j': Jobspec)
      requires Valid() && |impl.cb.data.subsystems| > 0
      requires impl.Dom() in impl.roots ==>
                 RootCountsEnd(j.resources, impl.graph.vertices[impl.roots[impl.Dom()]].rtype)
      requires |rank| == |impl.graph.vertices| && DomRanked(impl.graph.edges, rank, impl.Dom())
      modifies impl, impl.graph, impl.cb
      ensures Valid()
      ensures rc == 0 || rc == -1
      ensures Reweighted(old(impl.graph.edges), impl.graph.edges)
      ensures DomRanked(impl.graph.edges, rank, impl.Dom())
      ensures impl.Dom() !in impl.roots || |j.resources| == 0 ==>
                rc == -1 && at' == at && j' == j
                && impl.graph.vertices == old(impl.graph.vertices) && impl.graph.edges == old(impl.graph.edges)
                && impl.graph.planners == old(impl.graph.planners)
      ensures impl.Dom() in impl.roots && |j.resources| > 0 ==>
                j' == j.(resources := PrimedRequests(impl.cb.data.sdauResourceTypes, impl.Dom(), j.resources, map[]).0)
      ensures rc != 0 ==> Recolored(old(impl.graph.vertices), impl.graph.vertices)
                          && impl.graph.planners == old(impl.graph.planners)
      ensures rc == 0 ==>
                var d := Build(DefaultJobMeta(defaultDuration), j, true, jobid, at).duration;
                var dfv := PrimedRequests(impl.cb.data.sdauResourceTypes, impl.Dom(), j.resources, map[]).1;
                (at' == at && RunCommitted(old(impl.graph.vertices), old(impl.graph.planners),
                                           impl.graph.vertices, impl.graph.planners, JobMeta(true, jobid, at, d)))
                || (op == MatchAllocateOrElseReserve && at' > at
                    && ReservableAt(old(impl.graph.vertices), old(impl.graph.planners), impl.roots[impl.Dom()],
                                    impl.Dom(), dfv, at', d)
                    && RunCommitted(old(impl.graph.vertices), old(impl.graph.planners),
                                    impl.graph.vertices, impl.graph.planners, JobMeta(false, jobid, at', d)))
    {
      at', j' := at, j;
      var dom := impl.Dom();
      if dom !in impl.roots || |j.resources| == 0 {
        return -1, at', j';
      }
      var root := impl.roots[dom];
      var ex := impl.ExclusivityLegacy(j.resources, root);
      // The older `prime` of a request list always returns 0.
      var resources, dfv := impl.PrimeResources(j.resources, map[]);
      j' := j.(resources := resources);
      PrimedKeepsShape(impl.cb.data.sdauResourceTypes, dom, j.resources, map[]);
      SameShapeTop(j.resources, resources);
      assert forall i :: 0 <= i < |resources| ==>
               resources[i].count == Bare(j.resources[i]).count && resources[i].rtype == Bare(j.resources[i]).rtype;
      var meta := Build(DefaultJobMeta(defaultDuration), j, true, jobid, at);
      assert meta == JobMeta(true, jobid, at, meta.duration);
      rc, at' := RunPrimed(j', root, meta, ex, op, dfv, rank);
    }

    /** `run` once the request list is primed and the job's metadata
        built: match at meta's time, or else reserve later, then commit. */
    method RunPrimed(j: Jobspec, root: nat, meta: JobMeta, ex: bool, op: MatchOp,
                     dfv: map<string, int>, ghost rank: seq<nat>)
      returns (rc: int, at': int)
      requires Valid() && |impl.cb.data.subsystems| > 0 && root < |impl.graph.vertices|
      requires RootCountsEnd(j.resources, impl.graph.vertices[root].rtype)
      requires |rank| == |impl.graph.vertices| && DomRanked(impl.graph.edges, rank, impl.Dom())
      modifies impl, impl.graph, impl.cb
      ensures Valid()
      ensures rc == 0 || rc == -1
      ensures Reweighted(old(impl.graph.edges), impl.graph.edges)
      ensures DomRanked(impl.graph.edges, rank, impl.Dom())
      ensures rc != 0 ==> Recolored(old(impl.graph.vertices), impl.graph.vertices)
                          && impl.graph.planners == old(impl.graph.planners)
      ensures rc == 0 ==>
                (at' == meta.at && RunCommitted(old(impl.graph.vertices), old(impl.graph.planners),
                                                impl.graph.vertices, impl.graph.planners, meta))
                || (op == MatchAllocateOrElseReserve && at' > meta.at
                    && ReservableAt(old(impl.graph.vertices), old(impl.graph.planners), root,
                                    impl.Dom(), dfv, at', meta.duration)
                    && RunCommitted(old(impl.graph.vertices), old(impl.graph.planners),
                                    impl.graph.vertices, impl.graph.planners,
                                    JobMeta(false, meta.jobid, at', meta.duration)))
    {
      ghost var vs0, ps0 := impl.graph.vertices, impl.graph.planners;
      at' := meta.at;
      var needs, meta';
      ghost var walked, first, offered, tries, rcs;
      rc, needs, meta', walked, first, offered, tries, rcs := SelectOrElse(j, root, meta, ex, op, dfv, rank);
      if rc == 0 {
        at' := meta'.at;
        rc := Commit(root, meta', needs, ex, vs0, ps0, rank);
      }
    }

    /** The match step of `run`: select at meta's time (its result is
        first), and on failure, under MatchAllocateOrElseReserve, the
        or-else-reserve retry over the offered times. On success the
        metadata is meta itself, or a reservation at a later time at which
        the root's subtree planner fits the request, and the successful
        select's walk resolves at the root. */
    method SelectOrElse(j: Jobspec, root: nat, meta: JobMeta, ex: bool, op: MatchOp,
                        dfv: map<string, int>, ghost rank: seq<nat>)
      returns (rc: int, needs: nat, meta': JobMeta, ghost walked: Scoring, ghost first: int,
               ghost offered: seq<int>, ghost tries: nat, ghost rcs: seq<int>)
      requires Valid() && |impl.cb.data.subsystems| > 0 && root < |impl.graph.vertices|
      requires RootCountsEnd(j.resources, impl.graph.vertices[root].rtype)
      requires |rank| == |impl.graph.vertices| && DomRanked(impl.graph.edges, rank, impl.Dom())
      modifies impl, impl.graph, impl.cb
      ensures Valid()
      ensures rc == 0 || rc == -1
      ensures Recolored(old(impl.graph.vertices), impl.graph.vertices) && impl.graph.planners == old(impl.graph.planners)
      ensures Reweighted(old(impl.graph.edges), impl.graph.edges)
      ensures DomRanked(impl.graph.edges, rank, impl.Dom())
      ensures RankedBy(impl.graph.edges, rank, impl.Dom(), impl.bestKCnt)
      ensures first == 0 || first == -1
      ensures first == 0 ==> rc == 0 && meta' == meta
      ensures first != 0 && op != MatchAllocateOrElseReserve ==> rc == -1
      ensures first != 0 && op == MatchAllocateOrElseReserve ==>
                offered == OfferedTimes(old(impl.graph.vertices), old(impl.graph.planners), root, impl.Dom(), dfv,
                                        meta.at + 1, meta.duration)
                && tries <= |offered| && (rc != 0 ==> tries == |offered|)
                && (rc == 0 ==> 0 < tries && meta'.at == offered[tries - 1])
                && FirstSuccess(rcs, tries, rc)
      ensures rc == 0 ==>
                RootResolves(j.resources, old(impl.graph.vertices[root].rtype), walked, ex, impl.cb.data.subsystems)
      ensures rc == 0 ==>
                meta' == meta
                || (op == MatchAllocateOrElseReserve && meta' == JobMeta(false, meta.jobid, meta'.at, meta.duration)
                    && meta'.at > meta.at
                    && ReservableAt(old(impl.graph.vertices), old(impl.graph.planners), root, impl.Dom(),
                                    dfv, meta'.at, meta.duration))
    {
      ghost var vs0, es0, ps0 := impl.graph.vertices, impl.graph.edges, impl.graph.planners;
      meta', offered, tries, rcs := meta, [], 0, [];
      rc, needs, walked := SelectAt(j, root, meta, ex, 0);
      first := rc;
      if rc != 0 && op == MatchAllocateOrElseReserve {
        ghost var vs1, es1 := impl.graph.vertices, impl.graph.edges;
        RecoloredKeeps(vs0, vs1, root);
        rc, needs, meta', walked, offered, tries, rcs := OrElseReserve(j, root, meta, ex, needs, dfv, rank);
        RecoloredTrans(vs0, vs1, impl.graph.vertices);
        ReweightedTrans(es0, es1, impl.graph.edges);
      }
      DomRankedReweighted(es0, impl.graph.edges, rank, impl.Dom(), impl.bestKCnt);
    }

    /** The update step of `run` after a successful select: on success the
        job is committed from the snapshot (vs0, ps0) that the select walks
        only recoloured; on failure only colours changed. */
    method Commit(root: nat, meta: JobMeta, needs: nat, ex: bool,
                  ghost vs0: seq<ResourcePool>, ghost ps0: seq<Planner>, ghost rank: seq<nat>)
      returns (rc: int)
      requires Valid() && |impl.cb.data.subsystems| > 0 && root < |impl.graph.vertices|
      requires |rank| == |impl.graph.vertices| && RankedBy(impl.graph.edges, rank, impl.Dom(), impl.bestKCnt)
      requires Recolored(vs0, impl.graph.vertices) && impl.graph.planners == ps0
      modifies impl, impl.graph
      ensures Valid()
      ensures impl.graph.edges == old(impl.graph.edges)
      ensures rc == 0 || rc == -1
      ensures rc == 0 ==> RunCommitted(vs0, ps0, impl.graph.vertices, impl.graph.planners, meta)
      ensures rc != 0 ==> Recolored(vs0, impl.graph.vertices) && impl.graph.planners == ps0
    {
      ghost var vs1 := impl.graph.vertices;
      rc := impl.Update(root, meta, needs, ex, rank);
      if rc == 0 {
        RecoloredCommits(vs0, vs1, ps0, meta);
        CommittedTrans(vs0, ps0, vs1, ps0, impl.graph.vertices, impl.graph.planners, meta);
      } else {
        RecoloredTrans(vs0, vs1, impl.graph.vertices);
      }
    }

    /** One select at meta's time, seen from `run`: the walk only recolours
        vertices and reweights edges, and on success it resolves at the
        root. */
    method SelectAt(j: Jobspec, root: nat, meta: JobMeta, ex: bool, needs: nat)
      returns (rc: int, needs': nat, ghost walked: Scoring)
      requires Valid() && |impl.cb.data.subsystems| > 0 && root < |impl.graph.vertices|
      requires RootCountsEnd(j.resources, impl.graph.vertices[root].rtype)
      modifies impl, impl.graph, impl.cb
      ensures Valid() && impl.cb.data.subsystems == old(impl.cb.data.subsystems)
      ensures Recolored(old(impl.graph.vertices), impl.graph.vertices) && impl.graph.planners == old(impl.graph.planners)
      ensures Reweighted(old(impl.graph.edges), impl.graph.edges)
      ensures rc == 0 || rc == -1
      ensures rc == 0 ==>
                RootResolves(j.resources, old(impl.graph.vertices[root].rtype), walked, ex, impl.cb.data.subsystems)
    {
      ghost var own, visit, visited;
      rc, needs', walked, own, visit, visited := impl.Select(j, root, meta, ex, needs);
    }

    /** The or-else-reserve retry of `run`: allocation is off. The root's
        subtree planner of the dominant subsystem offers the times after
        meta.at at which the request's totals fit, and select is tried at
        each offered time in turn until one succeeds: -1 only once all
        offered times were tried. A root without that planner offers none
        and ends the run with -1. The select walks only recolour vertices
        and reweight edges. */
    method OrElseReserve(j: Jobspec, root: nat, meta: JobMeta, ex: bool, needs: nat,
                         dfv: map<string, int>, ghost rank: seq<nat>)
      returns (rc: int, needs': nat, meta': JobMeta, ghost walked: Scoring, ghost offered: seq<int>, ghost tries: nat,
               ghost rcs: seq<int>)
      requires Valid() && |impl.cb.data.subsystems| > 0 && root < |impl.graph.vertices|
      requires RootCountsEnd(j.resources, impl.graph.vertices[root].rtype)
      modifies impl, impl.graph, impl.cb
      ensures Valid()
      ensures rc == 0 || rc == -1
      ensures Recolored(old(impl.graph.vertices), impl.graph.vertices) && impl.graph.planners == old(impl.graph.planners)
      ensures Reweighted(old(impl.graph.edges), impl.graph.edges)
      ensures meta' == JobMeta(false, meta.jobid, meta'.at, meta.duration)
      ensures offered == OfferedTimes(old(impl.graph.vertices), old(impl.graph.planners), root, impl.Dom(), dfv,
                                      meta.at + 1, meta.duration)
      ensures tries <= |offered| && (rc != 0 ==> tries == |offered|)
      ensures FirstSuccess(rcs, tries, rc)
      ensures rc == 0 ==> 0 < tries && meta'.at == offered[tries - 1]
                          && RootResolves(j.resources, old(impl.graph.vertices[root].rtype), walked, ex,
                                          impl.cb.data.subsystems)
      ensures rc == 0 ==> meta'.at > meta.at
                          && ReservableAt(old(impl.graph.vertices), old(impl.graph.planners), root, impl.Dom(),
                                          dfv, meta'.at, meta.duration)
    {
      ghost var vs0, ps0 := impl.graph.vertices, impl.graph.planners;
      needs', meta', walked, offered, tries, rcs := needs, meta.(allocate := false), FreshScoring(), [], 0, [];
      rc := -1;
      var dom := impl.Dom();
      if dom !in impl.graph.vertices[root].idata.subplans {
        // `subplans.at (dom)` throws out_of_range.
        return;
      }
      var h := impl.graph.vertices[root].idata.subplans[dom];
      var agg := impl.Count(h, dfv);
      var times := if 0 <= h < |impl.graph.planners|
                   then AvailTimes(impl.graph.planners[h], meta.at + 1, meta.duration, agg)
                   else [];
      offered := times;
      assert offered == OfferedTimes(vs0, ps0, root, dom, dfv, meta.at + 1, meta.duration);
      rc, needs', meta', walked, tries, rcs := TryTimes(j, root, meta, ex, needs, times);
      ReservedAtOffered(vs0, ps0, root, dom, dfv, meta, times, rc, meta', tries);
    }

    /** The loop of the or-else-reserve retry: select is tried at each of
        times in turn, with allocation off, until one succeeds; -1 only
        once every time was tried. */
    method TryTimes(j: Jobspec, root: nat, meta: JobMeta, ex: bool, needs: nat, times: seq<int>)
      returns (rc: int, needs': nat, meta': JobMeta, ghost walked: Scoring, ghost tries: nat, ghost rcs: seq<int>)
      requires Valid() && |impl.cb.data.subsystems| > 0 && root < |impl.graph.vertices|
      requires RootCountsEnd(j.resources, impl.graph.vertices[root].rtype)
      modifies impl, impl.graph, impl.cb
      ensures Valid() && impl.cb.data.subsystems == old(impl.cb.data.subsystems) && impl.Dom() == old(impl.Dom())
      ensures Recolored(old(impl.graph.vertices), impl.graph.vertices) && impl.graph.planners == old(impl.graph.planners)
      ensures Reweighted(old(impl.graph.edges), impl.graph.edges)
      ensures rc == 0 || rc == -1
      ensures meta' == JobMeta(false, meta.jobid, meta'.at, meta.duration)
      ensures tries <= |times| && (rc != 0 ==> tries == |times|)
      ensures FirstSuccess(rcs, tries, rc)
      ensures rc == 0 ==> 0 < tries && meta'.at == times[tries - 1]
                          && RootResolves(j.resources, old(impl.graph.vertices[root].rtype), walked, ex,
                                          impl.cb.data.subsystems)
    {
      ghost var vs0, es0, ps0 := impl.graph.vertices, impl.graph.edges, impl.graph.planners;
      ghost var subs, t := impl.cb.data.subsystems, impl.graph.vertices[root].rtype;
      needs', meta', walked, tries, rcs := needs, meta.(allocate := false), FreshScoring(), 0, [];
      rc := -1;
      var i := 0;
      while i < |times| && rc != 0
        invariant 0 <= i <= |times| && tries == i
        invariant FirstSuccess(rcs, i, rc)
        invariant Valid() && impl.cb.data.subsystems == subs
        invariant Recolored(vs0, impl.graph.vertices) && impl.graph.planners == ps0
        invariant Reweighted(es0, impl.graph.edges)
        invariant rc == 0 || rc == -1
        invariant meta' == JobMeta(false, meta.jobid, meta'.at, meta.duration)
        invariant rc == 0 ==> 0 < i && meta'.at == times[i - 1]
                              && RootResolves(j.resources, t, walked, ex, subs)
      {
        meta' := meta'.(at := times[i]);
        ghost var vs1, es1 := impl.graph.vertices, impl.graph.edges;
        RecoloredKeeps(vs0, vs1, root);
        rc, needs', walked := SelectAt(j, root, meta', ex, needs');
        rcs := rcs + [rc];
        RecoloredTrans(vs0, vs1, impl.graph.vertices);
        ReweightedTrans(es0, es1, impl.graph.edges);
        i := i + 1;
        tries := i;
      }
    }
  }

  /** The results of `tries` selects in turn, the last of them rc: every
      select before the last one failed, so the retry stops at the first
      success. */
  ghost predicate FirstSuccess(rcs: seq<int>, tries: nat, rc: int)
  {
    |rcs| == tries && (forall k :: 0 <= k < tries - 1 ==> rcs[k] == -1) && (tries > 0 ==> rcs[tries - 1] == rc)
  }

  /** The times `run`'s or-else-reserve retry offers select: those the
      root's subtree planner of dom enumerates from `from` at which the
      request's totals fit over the duration; none when the root has no
      such planner. */
  ghost function OfferedTimes(vs: seq<ResourcePool>, ps: seq<Planner>, root: nat, dom: Subsystem,
                              dfv: map<string, int>, from: int, duration: nat): seq<int>
    requires root < |vs|
  {
    if dom !in vs[root].idata.subplans then []
    else
      var h := vs[root].idata.subplans[dom];
      if 0 <= h < |ps| then AvailTimes(ps[h], from, duration, AggregateOf(ps[h].resourceTypes, dfv)) else []
  }

  /** A reservation at the last of the offered times tried is at a time
      later than meta's at which the request's totals fit. */
  lemma ReservedAtOffered(vs: seq<ResourcePool>, ps: seq<Planner>, root: nat, dom: Subsystem,
                          dfv: map<string, int>, meta: JobMeta, times: seq<int>, rc: int, meta': JobMeta, tries: nat)
    requires root < |vs| && times == OfferedTimes(vs, ps, root, dom, dfv, meta.at + 1, meta.duration)
    requires rc == 0 ==> 0 < tries <= |times| && meta'.at == times[tries - 1]
    ensures rc == 0 ==> meta'.at > meta.at && ReservableAt(vs, ps, root, dom, dfv, meta'.at, meta.duration)
  {
    if rc == 0 {
      AvailTimesReservable(vs, ps, root, dom, dfv, meta.at + 1, meta.duration, times);
    }
  }

  /** The enumerated times of the root's subtree planner are later than
      `from - 1`, and the request's totals fit at each of them. */
  lemma AvailTimesReservable(vs: seq<ResourcePool>, ps: seq<Planner>, root: nat, dom: Subsystem,
                             dfv: map<string, int>, from: int, duration: nat, times: seq<int>)
    requires root < |vs| && dom in vs[root].idata.subplans
    requires var h := vs[root].idata.subplans[dom];
      times == (if 0 <= h < |ps| then AvailTimes(ps[h], from, duration, AggregateOf(ps[h].resourceTypes, dfv)) else [])
    ensures forall k :: 0 <= k < |times| ==>
              times[k] >= from && ReservableAt(vs, ps, root, dom, dfv, times[k], duration)
  {
    var h := vs[root].idata.subplans[dom];
    if 0 <= h < |ps| {
      AvailTimesExact(ps[h], from, duration, AggregateOf(ps[h].resourceTypes, dfv));
    }
  }
}
