/** Records of the resource graph store (resource_data.hpp): the colour epoch
    arithmetic used to reset a traversal in O(1), and the bookkeeping records
    carried by every vertex (resource pool) and edge (resource relation).

    The C++ records are value structs; their copy constructors and copy
    assignments are modelled as functions from the source record to the new
    one, and `scrub` as a function from the old record to the scrubbed one. */
module ResourceData {

  type Subsystem = string

  /** A planner handle: an index into the graph's planner arena, or NO_PLANNER
      for a NULL `planner_t *`. */
  type PlannerRef = int
  const NO_PLANNER: PlannerRef := -1

  // ---------------------------------------------------------------------
  // color_t
  // ---------------------------------------------------------------------

  const WHITE_OFFSET: nat := 0
  const GRAY_OFFSET: nat := 1
  const BLACK_OFFSET: nat := 2
  const NEW_BASE: nat := 3

  /** The base of the next epoch. */
  function Reset(colorBase: nat): nat { colorBase + NEW_BASE }

  /** The colour values written for a vertex under a given base. */
  function White(colorBase: nat): nat { colorBase + WHITE_OFFSET }
  function Gray(colorBase: nat): nat { colorBase + GRAY_OFFSET }
  function Black(colorBase: nat): nat { colorBase + BLACK_OFFSET }

  /** The colour tests against a base. */
  predicate IsWhite(c: nat, colorBase: nat) { c <= colorBase + WHITE_OFFSET }
  predicate IsGray(c: nat, colorBase: nat) { c == colorBase + GRAY_OFFSET }
  predicate IsBlack(c: nat, colorBase: nat) { c == colorBase + BLACK_OFFSET }

  /** The base after n resets. */
  function ResetN(colorBase: nat, n: nat): nat
  {
    if n == 0 then colorBase else Reset(ResetN(colorBase, n - 1))
  }

  /** reset moves the base up by the stride NEW_BASE, and the three writers put a
      colour at offsets 0, 1 and 2 from the base. */
  lemma ColorWriters(b: nat)
    ensures Reset(b) == b + 3
    ensures White(b) == b && Gray(b) == b + 1 && Black(b) == b + 2
  {
  }

  /** For a fixed base the three tests are exclusive: white is "at most the
      base", gray is exactly base + 1 and black exactly base + 2. */
  lemma ColorTestsDisjoint(c: nat, b: nat)
    ensures IsWhite(c, b) <==> c <= b
    ensures IsGray(c, b) <==> c == b + 1
    ensures IsBlack(c, b) <==> c == b + 2
    ensures !(IsWhite(c, b) && IsGray(c, b))
    ensures !(IsWhite(c, b) && IsBlack(c, b))
    ensures !(IsGray(c, b) && IsBlack(c, b))
    ensures IsWhite(White(b), b) && IsGray(Gray(b), b) && IsBlack(Black(b), b)
  {
  }

  /** Reset acts as a full recolour: any colour written under the base b (or
      earlier) reads as white, and neither gray nor black, under Reset(b). */
  lemma ResetIsFullRecolor(c: nat, b: nat)
    requires c <= Black(b)
    ensures IsWhite(c, Reset(b))
    ensures !IsGray(c, Reset(b)) && !IsBlack(c, Reset(b))
  {
  }

  /** The same holds across any number n >= 1 of later resets: colours left by
      an earlier session never leak into a later one. */
  lemma {:induction false} ResetsForgetOldColors(c: nat, b: nat, n: nat)
    requires c <= Black(b) && n >= 1
    ensures IsWhite(c, ResetN(b, n))
    ensures !IsGray(c, ResetN(b, n)) && !IsBlack(c, ResetN(b, n))
    ensures ResetN(b, n) == b + 3 * n
  {
    if n == 1 {
      assert ResetN(b, 1) == Reset(ResetN(b, 0));
    } else {
      ResetsForgetOldColors(c, b, n - 1);
      assert ResetN(b, n) == Reset(ResetN(b, n - 1));
    }
  }

  // ---------------------------------------------------------------------
  // schedule_t
  // ---------------------------------------------------------------------

  /** Current schedule state of a vertex: job tags, the span ids of its
      allocations and reservations keyed by job id, and its own planner. */
  datatype Schedule = Schedule(
    tags: map<int, int>,
    allocations: map<int, int>,
    reservations: map<int, int>,
    plans: PlannerRef)

  /** `schedule_t ()`: empty maps and a NULL planner. */
  function FreshSchedule(): (r: Schedule)
    ensures r.tags == map[] && r.allocations == map[] && r.reservations == map[]
    ensures r.plans == NO_PLANNER
  {
    Schedule(map[], map[], map[], NO_PLANNER)
  }

  /** The copy constructor and the copy assignment of schedule_t copy the three
      maps and share the planner handle (no planner is duplicated). */
  function CopySchedule(o: Schedule): (r: Schedule)
    ensures r.tags == o.tags && r.allocations == o.allocations
    ensures r.reservations == o.reservations
    ensures r.plans == o.plans
  {
    Schedule(o.tags, o.allocations, o.reservations, o.plans)
  }

  // ---------------------------------------------------------------------
  // pool_infra_t / relation_infra_t (both carry infra_base_t::member_of)
  // ---------------------------------------------------------------------

  /** Scheduling infrastructure data of a vertex. */
  datatype PoolInfra = PoolInfra(
    memberOf: map<Subsystem, string>,
    job2span: map<int, int>,
    subplans: map<Subsystem, PlannerRef>,
    colors: map<Subsystem, nat>)

  /** `colors[s]` of std::map: a subsystem never coloured reads as 0. */
  function ColorOf(p: PoolInfra, s: Subsystem): nat
  {
    if s in p.colors then p.colors[s] else 0
  }

  /** `subplans[s]` of std::map: a subsystem without a subtree planner reads
      as NULL. */
  function SubplanOf(p: PoolInfra, s: Subsystem): PlannerRef
  {
    if s in p.subplans then p.subplans[s] else NO_PLANNER
  }

  function FreshPoolInfra(): (r: PoolInfra)
    ensures r.memberOf == map[] && r.job2span == map[]
    ensures r.subplans == map[] && r.colors == map[]
  {
    PoolInfra(map[], map[], map[], map[])
  }

  /** The copy constructor of pool_infra_t copies member_of, job2span and the
      colours but NOT the subtree planners, which start out empty. */
  function CopyPoolInfra(o: PoolInfra): (r: PoolInfra)
    ensures r.memberOf == o.memberOf && r.job2span == o.job2span
    ensures r.colors == o.colors
    ensures r.subplans == map[]
  {
    PoolInfra(o.memberOf, o.job2span, map[], o.colors)
  }

  /** The copy assignment of pool_infra_t also copies the subtree planner
      handles. */
  function AssignPoolInfra(o: PoolInfra): (r: PoolInfra)
    ensures r.memberOf == o.memberOf && r.job2span == o.job2span
    ensures r.colors == o.colors && r.subplans == o.subplans
  {
    PoolInfra(o.memberOf, o.job2span, o.subplans, o.colors)
  }

  /** `pool_infra_t::scrub`: clears job2span and the colours and destroys every
      subtree planner (planner_destroy leaves the handle NULL); member_of is
      kept. */
  function ScrubPoolInfra(p: PoolInfra): (r: PoolInfra)
    ensures r.memberOf == p.memberOf
    ensures r.job2span == map[] && r.colors == map[]
    ensures r.subplans.Keys == p.subplans.Keys
    ensures forall s :: s in r.subplans ==> r.subplans[s] == NO_PLANNER
  {
    PoolInfra(p.memberOf, map[], map s | s in p.subplans :: NO_PLANNER, map[])
  }

  /** Scheduling infrastructure data of an edge: the decision of the latest
      match that chose it (needs, exclusivity) and that match's generation. */
  datatype RelationInfra = RelationInfra(
    memberOf: map<Subsystem, string>,
    needs: nat,
    bestKCnt: nat,
    exclusive: int)

  /** A fresh relation record has needs, best_k_cnt and exclusive all 0. */
  function FreshRelationInfra(): (r: RelationInfra)
    ensures r.memberOf == map[]
    ensures r.needs == 0 && r.bestKCnt == 0 && r.exclusive == 0
  {
    RelationInfra(map[], 0, 0, 0)
  }

  /** Copy construction and copy assignment of relation_infra_t copy member_of,
      needs, best_k_cnt and exclusive. */
  function CopyRelationInfra(o: RelationInfra): (r: RelationInfra)
    ensures r.memberOf == o.memberOf && r.needs == o.needs
    ensures r.bestKCnt == o.bestKCnt && r.exclusive == o.exclusive
  {
    RelationInfra(o.memberOf, o.needs, o.bestKCnt, o.exclusive)
  }

  /** `relation_infra_t::scrub` resets the three decision fields and keeps
      member_of. */
  function ScrubRelationInfra(e: RelationInfra): (r: RelationInfra)
    ensures r.memberOf == e.memberOf
    ensures r.needs == 0 && r.bestKCnt == 0 && r.exclusive == 0
  {
    RelationInfra(e.memberOf, 0, 0, 0)
  }

  /** Scrubbing restores exactly the fresh decision state, and scrubbing twice
      is the same as scrubbing once. */
  lemma ScrubRestoresFresh(e: RelationInfra)
    ensures ScrubRelationInfra(e) == FreshRelationInfra().(memberOf := e.memberOf)
    ensures ScrubRelationInfra(ScrubRelationInfra(e)) == ScrubRelationInfra(e)
    ensures CopyRelationInfra(e) == e
  {
  }

  // ---------------------------------------------------------------------
  // resource_pool_t / resource_relation_t
  // ---------------------------------------------------------------------

  /** A vertex: a schedulable resource pool. */
  datatype ResourcePool = ResourcePool(
    rtype: string,
    paths: map<string, string>,
    basename: string,
    name: string,
    properties: map<string, string>,
    id: int,
    uuid: seq<bv8>,
    size: nat,
    unit: string,
    schedule: Schedule,
    idata: PoolInfra)

  /** `resource_pool_t ()`: id -1, size 0, empty strings and maps, a fresh
      schedule and infra data. The constructor leaves the 16-byte `uuid_t`
      uninitialised, so its bytes are a parameter: whatever the memory held. */
  function FreshResourcePool(uuid: seq<bv8>): (r: ResourcePool)
    requires |uuid| == 16
    ensures r.rtype == "" && r.paths == map[] && r.basename == "" && r.name == ""
    ensures r.properties == map[] && r.unit == ""
    ensures r.id == -1 && r.size == 0 && r.uuid == uuid
    ensures r.schedule == FreshSchedule() && r.idata == FreshPoolInfra()
  {
    ResourcePool("", map[], "", "", map[], -1, uuid, 0, "", FreshSchedule(), FreshPoolInfra())
  }

  /** Copying a vertex copies every field; its schedule and idata are copied by
      ASSIGNMENT (the members are first default-constructed), so unlike a bare
      pool_infra_t copy the subtree planner handles are kept. */
  function CopyResourcePool(o: ResourcePool): (r: ResourcePool)
    ensures r.rtype == o.rtype && r.paths == o.paths && r.basename == o.basename
    ensures r.name == o.name && r.properties == o.properties && r.id == o.id
    ensures r.uuid == o.uuid && r.size == o.size && r.unit == o.unit
    ensures r.schedule == o.schedule
    ensures r.idata.subplans == o.idata.subplans && r.idata == o.idata
  {
    ResourcePool(o.rtype, o.paths, o.basename, o.name, o.properties, o.id, o.uuid,
                 o.size, o.unit, CopySchedule(o.schedule), AssignPoolInfra(o.idata))
  }

  /** An edge: a relation between two pools, a member of one or more
      subsystems. */
  datatype ResourceRelation = ResourceRelation(name: string, idata: RelationInfra)

  /** Copying an edge copies its name and its infrastructure record. */
  function CopyResourceRelation(o: ResourceRelation): (r: ResourceRelation)
    ensures r.name == o.name && r.idata == o.idata
  {
    ResourceRelation(o.name, CopyRelationInfra(o.idata))
  }

  /** The two pool_infra_t copies differ exactly in the subtree planners. */
  lemma PoolInfraCopyVersusAssign(o: PoolInfra)
    ensures CopyPoolInfra(o) == AssignPoolInfra(o).(subplans := map[])
    ensures AssignPoolInfra(o) == o
    ensures o.subplans != map[] ==> CopyPoolInfra(o) != AssignPoolInfra(o)
  {
  }
}
