/** The base match callback (dfu_match_cb.hpp): the visitor hooks the
    traverser calls on every pre- and post-order visit, and the traversal
    depth they keep. Every hook succeeds. The callback is a matcher_data_t;
    the model holds that part as `data`.

    The post-order hooks are where a matcher scores the visited vertex
    from its aggregator (dfu_match_cb.hpp:110-112). The base class leaves
    the score alone; the matchers derived from it override the hooks. The
    model takes that scoring as the callback's `scorer`, a function of the
    subsystem, the vertex and its aggregator: the base constructors give
    the one that keeps the aggregator's score, `WithScorer` any other. */
module DfuMatchCb {
  import opened ResourceData
  import opened MatcherData
  import opened ScoringApi

  /** The name of a matcher built without one. */
  const ANONYMOUS: string := "anonymous"

  /** The callback's indentation unit (four dashes), one per traversal
      level. */
  const LEVEL_UNIT: string := "----"

  /** The base class's scoring: the aggregator keeps its score. */
  function KeepScore(s: Subsystem, u: nat, d: Scoring): int
  {
    d.overallScore
  }

  class DfuMatchCb {
    const data: MatcherData
    var travLevel: int
    /** The score the post-order hooks give a vertex, from the subsystem,
        the vertex and its aggregator. */
    const scorer: (Subsystem, nat, Scoring) -> int

    constructor ()
      ensures fresh(data) && data.name == ANONYMOUS && data.Valid()
      ensures data.subsystems == [] && data.sdauResourceTypes == map[]
      ensures travLevel == 0 && scorer == KeepScore
    {
      data := new MatcherData(ANONYMOUS);
      travLevel := 0;
      scorer := KeepScore;
    }

    constructor Named(name: string)
      ensures fresh(data) && data.name == name && data.Valid()
      ensures data.subsystems == [] && data.sdauResourceTypes == map[]
      ensures travLevel == 0 && scorer == KeepScore
    {
      data := new MatcherData(name);
      travLevel := 0;
      scorer := KeepScore;
    }

    /** A matcher derived from the base callback whose post-order hooks
        score each vertex with `score`. */
    constructor WithScorer(name: string, score: (Subsystem, nat, Scoring) -> int)
      ensures fresh(data) && data.name == name && data.Valid()
      ensures data.subsystems == [] && data.sdauResourceTypes == map[]
      ensures travLevel == 0 && scorer == score
    {
      data := new MatcherData(name);
      travLevel := 0;
      scorer := score;
    }

    /** The copy constructor copies the matcher data and the level; the
        copy scores as the original does. */
    constructor Copy(o: DfuMatchCb)
      ensures fresh(data)
      ensures data.name == o.data.name && data.subsystems == o.data.subsystems
      ensures data.subsystemsMap == o.data.subsystemsMap
      ensures data.sdauResourceTypes == o.data.sdauResourceTypes
      ensures travLevel == o.travLevel && scorer == o.scorer
    {
      data := new MatcherData.Copy(o.data);
      travLevel := o.travLevel;
      scorer := o.scorer;
    }

    /** The aggregator d of vertex u in subsystem s, as the post-order
        hooks leave it: scored by `scorer`, nothing else changed. */
    function Scored(s: Subsystem, u: nat, d: Scoring): Scoring
    {
      SetOverallScore(d, scorer(s, u, d))
    }

    /** Copy assignment: the matcher data part, then the level. The
        scoring is the object's own (its dynamic type), which assignment
        does not change. */
    method Assign(o: DfuMatchCb)
      modifies this, data
      ensures data.name == old(o.data.name) && data.subsystems == old(o.data.subsystems)
      ensures data.subsystemsMap == old(o.data.subsystemsMap)
      ensures data.sdauResourceTypes == old(o.data.sdauResourceTypes)
      ensures travLevel == old(o.travLevel)
    {
      var level := o.travLevel;
      data.Assign(o.data);
      travLevel := level;
    }

    /** `dom_finish_graph`: accepts the whole walk. */
    method DomFinishGraph() returns (rc: int)
      ensures rc == 0
    {
      return 0;
    }

    /** `dom_finish_slot`: accepts every slot. */
    method DomFinishSlot() returns (rc: int)
      ensures rc == 0
    {
      return 0;
    }

    /** `dom_discover_vtx`: one level deeper. */
    method DomDiscoverVtx() returns (rc: int)
      modifies this
      ensures rc == 0 && travLevel == old(travLevel) + 1
    {
      travLevel := travLevel + 1;
      return 0;
    }

    /** `dom_finish_vtx`: one level up, and u's aggregator dfu scored. */
    method DomFinishVtx(s: Subsystem, u: nat, dfu: Scoring) returns (rc: int, dfu': Scoring)
      modifies this
      ensures rc == 0 && travLevel == old(travLevel) - 1
      ensures dfu' == dfu.(overallScore := scorer(s, u, dfu))
    {
      travLevel := travLevel - 1;
      return 0, Scored(s, u, dfu);
    }

    /** `aux_discover_vtx`: one level deeper. */
    method AuxDiscoverVtx() returns (rc: int)
      modifies this
      ensures rc == 0 && travLevel == old(travLevel) + 1
    {
      travLevel := travLevel + 1;
      return 0;
    }

    /** `aux_finish_vtx`: one level up, and u's aggregator upv scored. */
    method AuxFinishVtx(s: Subsystem, u: nat, upv: Scoring) returns (rc: int, upv': Scoring)
      modifies this
      ensures rc == 0 && travLevel == old(travLevel) - 1
      ensures upv' == upv.(overallScore := scorer(s, u, upv))
    {
      travLevel := travLevel - 1;
      return 0, Scored(s, u, upv);
    }

    method Incr()
      modifies this
      ensures travLevel == old(travLevel) + 1
    {
      travLevel := travLevel + 1;
    }

    method Decr()
      modifies this
      ensures travLevel == old(travLevel) - 1
    {
      travLevel := travLevel - 1;
    }

    /** `level`: one LEVEL_UNIT per level; nothing at a level of 0 or below. */
    method Level() returns (prefix: string)
      ensures |prefix| == 4 * (if travLevel > 0 then travLevel else 0)
      ensures forall k :: 0 <= k < |prefix| ==> prefix[k] == '-'
    {
      prefix := "";
      var i := 0;
      while i < travLevel
        invariant 0 <= i <= (if travLevel > 0 then travLevel else 0)
        invariant |prefix| == 4 * i
        invariant forall k :: 0 <= k < |prefix| ==> prefix[k] == '-'
      {
        prefix := prefix + LEVEL_UNIT;
        i := i + 1;
      }
    }
  }
}
