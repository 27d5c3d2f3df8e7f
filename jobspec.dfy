/** The job request records (jobspec.hpp) and the validating constructors
    that build them from a YAML document (jobspec.cpp).

    A YAML node is modelled as an already-loaded value: a scalar carrying its
    text and, when the text reads as an integer, that integer; a mapping with
    string keys in document order; a sequence. A failed yaml-cpp conversion
    (`as<unsigned>` of a word, `as<string>` of a mapping) is an error, like the
    `invalid_argument` exceptions the constructors throw.

    Each constructor is an imperative method returning a Result; each is proved
    to agree with a declarative decoder (DecodeCount, DecodeResource,
    DecodeTask, DecodeJobspec) about which documents are accepted and what
    they produce, and the properties the constructors promise are lemmas about
    the decoders. */
module Jobspec {
  import opened Wrappers

  const UINT_LIMIT: int := 0x1_0000_0000
  /** C++ `unsigned` (32 bits). */
  type uint = x: int | 0 <= x < UINT_LIMIT
  /** C++ `int` (32 bits). */
  type int32 = x: int | -0x8000_0000 <= x < 0x8000_0000

  const UINT64_LIMIT: int := 0x1_0000_0000_0000_0000

  /** A conversion to `unsigned int`: wraps modulo 2^32. */
  function ToUint32(x: int): uint
  {
    x % UINT_LIMIT
  }

  /** A conversion to `uint64_t`: wraps modulo 2^64. */
  function ToUint64(x: int): nat
  {
    x % UINT64_LIMIT
  }

  // ---------------------------------------------------------------------
  // YAML nodes
  // ---------------------------------------------------------------------

  datatype Node =
    | Scalar(text: string, num: Option<int>)
    | Map(entries: seq<(string, Node)>)
    | Seq(items: seq<Node>)

  /** `node.size()`: entries of a mapping, items of a sequence, 0 for a scalar. */
  function Size(n: Node): nat
  {
    match n
    case Scalar(_, _) => 0
    case Map(es) => |es|
    case Seq(items) => |items|
  }

  /** The set of keys of a mapping's entries. */
  function KeySet(es: seq<(string, Node)>): set<string>
  {
    set i | 0 <= i < |es| :: es[i].0
  }

  predicate DistinctKeys(es: seq<(string, Node)>)
  {
    forall i, j :: 0 <= i < j < |es| ==> es[i].0 != es[j].0
  }

  /** The value of the first entry with the given key. */
  function LookupIn(es: seq<(string, Node)>, key: string): Option<Node>
  {
    if |es| == 0 then None
    else if es[0].0 == key then Some(es[0].1)
    else LookupIn(es[1..], key)
  }

  /** `node[key]` on a const node: the value of the first entry with that key
      in a mapping; an undefined node (None) when the key is absent or the node
      is not a mapping. */
  function Lookup(n: Node, key: string): Option<Node>
  {
    if n.Map? then LookupIn(n.entries, key) else None
  }

  /** LookupIn finds the first entry with the key, and finds one iff the key
      is among the entries' keys. */
  lemma {:induction false} LookupInFinds(es: seq<(string, Node)>, key: string)
    ensures LookupIn(es, key).Some? <==> key in KeySet(es)
    ensures LookupIn(es, key).Some? ==>
              exists i :: 0 <= i < |es| && es[i] == (key, LookupIn(es, key).value)
                          && forall j :: 0 <= j < i ==> es[j].0 != key
  {
    if |es| > 0 {
      LookupInFinds(es[1..], key);
      if es[0].0 != key {
        if key in KeySet(es) {
          var i :| 0 <= i < |es| && es[i].0 == key;
          assert es[1..][i - 1] == es[i];
        }
        if LookupIn(es, key).Some? {
          var i :| 0 <= i < |es[1..]| && es[1..][i] == (key, LookupIn(es, key).value)
                   && forall j :: 0 <= j < i ==> es[1..][j].0 != key;
          assert es[i + 1] == es[1..][i];
          assert forall j :: 0 < j < i + 1 ==> es[j] == es[1..][j - 1];
        }
      } else {
        assert es[0].0 in KeySet(es);
      }
    }
  }

  /** A key is found iff the node is a mapping holding it. */
  lemma LookupFinds(n: Node, key: string)
    ensures Lookup(n, key).Some? <==> n.Map? && key in KeySet(n.entries)
  {
    if n.Map? { LookupInFinds(n.entries, key); }
  }

  /** A looked-up value is a proper part of the node. */
  lemma LookupRank(n: Node, key: string)
    ensures Lookup(n, key).Some? ==> Lookup(n, key).value < n
  {
    if n.Map? && Lookup(n, key).Some? {
      LookupInFinds(n.entries, key);
      var i :| 0 <= i < |n.entries| && n.entries[i] == (key, Lookup(n, key).value);
      assert n.entries[i].1 < n;
    }
  }

  /** yaml-cpp conversions of a node; None is a conversion failure. */
  function AsString(n: Node): Option<string>
  {
    if n.Scalar? then Some(n.text) else None
  }

  function AsUnsigned(n: Node): Option<uint>
  {
    if n.Scalar? && n.num.Some? && 0 <= n.num.value < UINT_LIMIT then Some(n.num.value) else None
  }

  function AsInt(n: Node): Option<int32>
  {
    if n.Scalar? && n.num.Some? && -0x8000_0000 <= n.num.value < 0x8000_0000 then Some(n.num.value) else None
  }

  function AsChar(n: Node): Option<char>
  {
    if n.Scalar? && |n.text| == 1 then Some(n.text[0]) else None
  }

  /** The key is absent, or present with a value convertible to a string. */
  predicate OptionalString(n: Node, key: string)
  {
    Lookup(n, key).None? || AsString(Lookup(n, key).value).Some?
  }

  /** The string value under key, or dflt when it is absent or not a string. */
  function StringOr(n: Node, key: string, dflt: string): string
  {
    var v := Lookup(n, key);
    if v.Some? && AsString(v.value).Some? then AsString(v.value).value else dflt
  }

  // ---------------------------------------------------------------------
  // Records (jobspec.hpp)
  // ---------------------------------------------------------------------

  /** The count of a request: a range and the operator with its operand that
      shrinks max towards the available quantity. */
  datatype Count = Count(min: uint, max: uint, oper: char, operand: int32)

  const DEFAULT_OPER: char := '+'
  const DEFAULT_OPERAND: int32 := 1

  /** A request node; its child requests form the nested `with` list, so a
      request is a finite tree. user_data is the per-type aggregate demand
      filled in by the traverser's priming. */
  datatype Resource = Resource(
    rtype: string,
    count: Count,
    unit: string,
    labelName: string,
    id: string,
    exclusive: bool,
    with: seq<Resource>,
    userData: map<string, int>)

  datatype Task = Task(
    command: string,
    slotType: string,
    slotValue: string,
    count: map<string, string>,
    distribution: string,
    attributes: map<string, string>)

  datatype Jobspec = Jobspec(
    version: uint,
    resources: seq<Resource>,
    tasks: seq<Task>,
    attributes: map<string, map<string, string>>)

  // ---------------------------------------------------------------------
  // Declarative decoders
  // ---------------------------------------------------------------------

  const COUNT_OPERATORS: set<char> := {'+', '-', '^'}

  /** A count is a scalar unsigned (min = max = it), or a mapping with
      unsigned min >= 1 and max >= min, a one-character operator among
      COUNT_OPERATORS, and an int operand. */
  function DecodeCount(n: Node): Option<Count>
  {
    if n.Scalar? then
      (if AsUnsigned(n).Some?
       then Some(Count(AsUnsigned(n).value, AsUnsigned(n).value, DEFAULT_OPER, DEFAULT_OPERAND))
       else None)
    else if !n.Map? then None
    else
      var mn, mx, op, od := Lookup(n, "min"), Lookup(n, "max"), Lookup(n, "operator"), Lookup(n, "operand");
      if mn.None? || mx.None? || op.None? || od.None? then None
      else
        var lo, hi, oper, operand := AsUnsigned(mn.value), AsUnsigned(mx.value), AsChar(op.value), AsInt(od.value);
        if lo.None? || hi.None? || oper.None? || operand.None? then None
        else if lo.value < 1 || hi.value < lo.value || oper.value !in COUNT_OPERATORS then None
        else Some(Count(lo.value, hi.value, oper.value, operand.value))
  }

  const RESOURCE_KEYS: set<string> := {"type", "count", "unit", "exclusive", "with", "label", "id"}
  const RESOURCE_MIN_ENTRIES: nat := 2
  const RESOURCE_MAX_ENTRIES: nat := 10

  /** An optional string field: Some(None) when absent, Some(Some(s)) when
      present with a string value, None when present but not convertible. */
  function FieldString(n: Node, key: string): Option<Option<string>>
  {
    var v := Lookup(n, key);
    if v.None? then Some(None)
    else if AsString(v.value).Some? then Some(Some(AsString(v.value).value))
    else None
  }

  function OrElse(o: Option<string>, dflt: string): string
  {
    if o.Some? then o.value else dflt
  }

  /** The part of a resource checked first: a mapping of 2 to 10 entries with
      a string `type` and a valid `count`. */
  predicate ResourceHeader(n: Node)
  {
    && n.Map? && RESOURCE_MIN_ENTRIES <= Size(n) <= RESOURCE_MAX_ENTRIES
    && Lookup(n, "type").Some? && AsString(Lookup(n, "type").value).Some?
    && Lookup(n, "count").Some? && DecodeCount(Lookup(n, "count").value).Some?
  }

  /** Every key is recognised and none repeats. */
  predicate ResourceKeysOk(es: seq<(string, Node)>)
  {
    DistinctKeys(es) && KeySet(es) <= RESOURCE_KEYS
  }

  /** A resource is a mapping passing ResourceHeader whose keys are distinct
      members of RESOURCE_KEYS, whose optional string fields convert and whose
      `with` is a valid resource list. `label` overrides `unit`; exclusive
      holds only for the text "true". */
  function DecodeResource(n: Node): Option<Resource>
    decreases n, 3, 0
  {
    if !ResourceHeader(n) then None else DecodeResourceBody(n)
  }

  function DecodeResourceBody(n: Node): Option<Resource>
    requires ResourceHeader(n)
    decreases n, 2, 0
  {
    var unit, excl, lbl, id := FieldString(n, "unit"), FieldString(n, "exclusive"),
                               FieldString(n, "label"), FieldString(n, "id");
    if unit.None? || excl.None? || lbl.None? || id.None? then None
    else
      var w := Lookup(n, "with");
      LookupRank(n, "with");
      var children := if w.Some? then DecodeResources(w.value) else Some([]);
      if children.None? then None
      else if !ResourceKeysOk(n.entries) then None
      else Some(Resource(AsString(Lookup(n, "type").value).value,
                         DecodeCount(Lookup(n, "count").value).value,
                         OrElse(lbl.value, OrElse(unit.value, "")), "",
                         OrElse(id.value, ""), excl.value == Some("true"),
                         children.value, map[]))
  }

  /** A resource list is a sequence of valid resources. */
  function DecodeResources(n: Node): Option<seq<Resource>>
    decreases n, 1, 0
  {
    if !n.Seq? then None else DecodeResourceItems(n.items, n)
  }

  function DecodeResourceItems(items: seq<Node>, ghost parent: Node): (r: Option<seq<Resource>>)
    requires forall i :: 0 <= i < |items| ==> items[i] < parent
    decreases parent, 0, |items|
  {
    if |items| == 0 then Some([])
    else
      var init := DecodeResourceItems(items[..|items| - 1], parent);
      var last := DecodeResource(items[|items| - 1]);
      if init.None? || last.None? then None else Some(init.value + [last.value])
  }

  predicate ScalarValues(es: seq<(string, Node)>)
  {
    forall i :: 0 <= i < |es| ==> es[i].1.Scalar?
  }

  /** The string map filled by assigning each entry in order: a later entry
      overwrites an earlier one with the same key. */
  function MapOf(es: seq<(string, Node)>): map<string, string>
    requires ScalarValues(es)
  {
    if |es| == 0 then map[]
    else MapOf(es[..|es| - 1])[es[|es| - 1].0 := es[|es| - 1].1.text]
  }

  const TASK_MIN_ENTRIES: nat := 3
  const TASK_MAX_ENTRIES: nat := 5

  /** A task is a mapping of 3 to 5 entries with a string `command`, a `slot`
      mapping holding one pair with a string value, an optional `count`
      mapping of strings, an optional string `distribution` and an optional
      `attributes` mapping of strings. A task's own count map stays empty. */
  function DecodeTask(n: Node): Option<Task>
  {
    if !n.Map? || Size(n) < TASK_MIN_ENTRIES || Size(n) > TASK_MAX_ENTRIES then None
    else
      var cmd, slot := Lookup(n, "command"), Lookup(n, "slot");
      if cmd.None? || AsString(cmd.value).None? then None
      else if slot.None? || !slot.value.Map? || Size(slot.value) != 1
              || AsString(slot.value.entries[0].1).None? then None
      else
        var cnt, attrs := Lookup(n, "count"), Lookup(n, "attributes");
        if cnt.Some? && !(cnt.value.Map? && ScalarValues(cnt.value.entries)) then None
        else if !OptionalString(n, "distribution") then None
        else if attrs.Some? && !(attrs.value.Map? && ScalarValues(attrs.value.entries)) then None
        else Some(Task(AsString(cmd.value).value, slot.value.entries[0].0,
                       AsString(slot.value.entries[0].1).value, map[],
                       StringOr(n, "distribution", ""),
                       if attrs.Some? then MapOf(attrs.value.entries) else map[]))
  }

  function DecodeTasks(n: Node): Option<seq<Task>>
  {
    if !n.Seq? then None else DecodeTaskItems(n.items)
  }

  function DecodeTaskItems(items: seq<Node>): (r: Option<seq<Task>>)
  {
    if |items| == 0 then Some([])
    else
      var init, last := DecodeTaskItems(items[..|items| - 1]), DecodeTask(items[|items| - 1]);
      if init.None? || last.None? then None else Some(init.value + [last.value])
  }

  const TOP_KEYS: set<string> := {"version", "resources", "tasks", "attributes"}
  const TOP_ENTRIES: nat := 4

  /** Every attribute value is a mapping of strings. */
  predicate AttributeMaps(es: seq<(string, Node)>)
  {
    forall i :: 0 <= i < |es| ==> es[i].1.Map? && ScalarValues(es[i].1.entries)
  }

  /** The nested attribute map filled entry by entry: an attribute name that
      occurs twice merges its two inner maps, the later value winning. */
  function AttributesOf(es: seq<(string, Node)>): map<string, map<string, string>>
    requires AttributeMaps(es)
  {
    if |es| == 0 then map[]
    else
      var prev, k := AttributesOf(es[..|es| - 1]), es[|es| - 1].0;
      prev[k := (if k in prev then prev[k] else map[]) + MapOf(es[|es| - 1].1.entries)]
  }

  /** A jobspec is a mapping of exactly four entries holding version (a scalar
      unsigned), resources, tasks and attributes (a mapping of mappings). */
  function DecodeJobspec(n: Node): Option<Jobspec>
  {
    if !n.Map? || Size(n) != TOP_ENTRIES then None
    else
      var v, rs, ts, at := Lookup(n, "version"), Lookup(n, "resources"), Lookup(n, "tasks"), Lookup(n, "attributes");
      if v.None? || rs.None? || ts.None? || at.None? then None
      else if !v.value.Scalar? || AsUnsigned(v.value).None? then None
      else if !(at.value.Map? && AttributeMaps(at.value.entries)) then None
      else
        var res, tasks := DecodeResources(rs.value), DecodeTasks(ts.value);
        if res.None? || tasks.None? then None
        else Some(Jobspec(AsUnsigned(v.value).value, res.value, tasks.value, AttributesOf(at.value.entries)))
  }

  // ---------------------------------------------------------------------
  // The constructors (jobspec.cpp)
  // ---------------------------------------------------------------------

  /** `Resource::parse_yaml_count`. */
  method ParseYamlCount(cnode: Node) returns (r: Result<Count>)
    ensures Agrees(r, DecodeCount(cnode))
  {
    if cnode.Scalar? {
      var v := AsUnsigned(cnode);
      if v.None? { return Failure("count is not an unsigned integer"); }
      return Success(Count(v.value, v.value, DEFAULT_OPER, DEFAULT_OPERAND));
    }
    if !cnode.Map? { return Failure("count is not a mapping"); }
    var mn := Lookup(cnode, "min");
    if mn.None? { return Failure("count has no min"); }
    var mx := Lookup(cnode, "max");
    if mx.None? { return Failure("count has no max"); }
    var op := Lookup(cnode, "operator");
    if op.None? { return Failure("count has no operator"); }
    var od := Lookup(cnode, "operand");
    if od.None? { return Failure("count has no operand"); }
    var lo := AsUnsigned(mn.value);
    if lo.None? { return Failure("min is not an unsigned integer"); }
    if lo.value < 1 { return Failure("min must be positive"); }
    var hi := AsUnsigned(mx.value);
    if hi.None? { return Failure("max is not an unsigned integer"); }
    if hi.value < 1 { return Failure("max must be positive"); }
    if hi.value < lo.value { return Failure("max must be at least min"); }
    var oper := AsChar(op.value);
    if oper.None? { return Failure("operator is not a character"); }
    if oper.value != '+' && oper.value != '-' && oper.value != '^' {
      return Failure("invalid count operator");
    }
    var operand := AsInt(od.value);
    if operand.None? { return Failure("operand is not an integer"); }
    return Success(Count(lo.value, hi.value, oper.value, operand.value));
  }

  /** The Resource constructor: counts the recognised keys it finds and
      rejects the mapping when that count differs from the mapping's size. */
  method ParseResource(resnode: Node) returns (r: Result<Resource>)
    ensures Agrees(r, DecodeResource(resnode))
    decreases resnode, 3
  {
    if !resnode.Map? { return Failure("resource is not a mapping"); }
    if Size(resnode) < RESOURCE_MIN_ENTRIES || Size(resnode) > RESOURCE_MAX_ENTRIES {
      return Failure("impossible number of entries in resource mapping");
    }
    var t := Lookup(resnode, "type");
    if t.None? { return Failure("resource has no type"); }
    var rtype := AsString(t.value);
    if rtype.None? { return Failure("type is not a string"); }
    var c := Lookup(resnode, "count");
    if c.None? { return Failure("resource has no count"); }
    var count := ParseYamlCount(c.value);
    if count.Failure? { return Failure(count.error); }
    r := ParseResourceFields(resnode, rtype.value, count.value);
  }

  /** The rest of the Resource constructor, after type and count (the first
      two recognised fields): the optional fields, then the field-count test. */
  method ParseResourceFields(resnode: Node, rtype: string, count: Count) returns (r: Result<Resource>)
    requires ResourceHeader(resnode)
    requires rtype == AsString(Lookup(resnode, "type").value).value
    requires count == DecodeCount(Lookup(resnode, "count").value).value
    ensures Agrees(r, DecodeResourceBody(resnode))
    decreases resnode, 2
  {
    var fieldCount := 2;
    var unit := "";
    var u := FieldString(resnode, "unit");
    if u.None? { return Failure("unit is not a string"); }
    if u.value.Some? {
      fieldCount := fieldCount + 1;
      unit := u.value.value;
    }
    assert fieldCount == 2 + Present(resnode, "unit") && unit == OrElse(u.value, "");
    var exclusive := false;
    var x := FieldString(resnode, "exclusive");
    if x.None? { return Failure("exclusive is not a string"); }
    if x.value.Some? {
      fieldCount := fieldCount + 1;
      if x.value.value == "true" {
        exclusive := true;
      }
    }
    assert fieldCount == 2 + Present(resnode, "unit") + Present(resnode, "exclusive");
    assert exclusive == (x.value == Some("true"));
    var with: seq<Resource> := [];
    var w := Lookup(resnode, "with");
    if w.Some? {
      fieldCount := fieldCount + 1;
      LookupRank(resnode, "with");
      var children := ParseYamlResources(w.value);
      if children.Failure? { return Failure(children.error); }
      with := children.value;
    }
    assert fieldCount == 2 + Present(resnode, "unit") + Present(resnode, "exclusive")
      + Present(resnode, "with");
    var l := FieldString(resnode, "label");
    if l.None? { return Failure("label is not a string"); }
    if l.value.Some? {
      fieldCount := fieldCount + 1;
      unit := l.value.value;
    }
    assert fieldCount == 2 + Present(resnode, "unit") + Present(resnode, "exclusive")
      + Present(resnode, "with") + Present(resnode, "label");
    assert unit == OrElse(l.value, OrElse(u.value, ""));
    var id := "";
    var i := FieldString(resnode, "id");
    if i.None? { return Failure("id is not a string"); }
    if i.value.Some? {
      fieldCount := fieldCount + 1;
      id := i.value.value;
    }
    assert fieldCount == 2 + Present(resnode, "unit") + Present(resnode, "exclusive")
      + Present(resnode, "with") + Present(resnode, "label") + Present(resnode, "id");
    FieldCountTest(resnode);
    if fieldCount != Size(resnode) {
      return Failure("unrecognized key in resource mapping");
    }
    return Success(Resource(rtype, count, unit, "", id, exclusive, with, map[]));
  }

  /** `parse_yaml_resources`. */
  method ParseYamlResources(resources: Node) returns (r: Result<seq<Resource>>)
    ensures Agrees(r, DecodeResources(resources))
    decreases resources, 1
  {
    if !resources.Seq? { return Failure("resources is not a sequence"); }
    var resvec: seq<Resource> := [];
    var i := 0;
    while i < |resources.items|
      invariant 0 <= i <= |resources.items|
      invariant DecodeResourceItems(resources.items[..i], resources) == Some(resvec)
    {
      var res := ParseResource(resources.items[i]);
      assert resources.items[..i + 1][..i] == resources.items[..i];
      if res.Failure? {
        DecodeItemsFailurePersists(resources.items, i + 1, resources);
        return Failure(res.error);
      }
      resvec := resvec + [res.value];
      i := i + 1;
    }
    assert resources.items[..i] == resources.items;
    return Success(resvec);
  }

  /** A failing item makes every longer prefix fail. */
  lemma {:induction false} DecodeItemsFailurePersists(items: seq<Node>, k: nat, parent: Node)
    requires forall i :: 0 <= i < |items| ==> items[i] < parent
    requires 1 <= k <= |items| && DecodeResourceItems(items[..k], parent).None?
    ensures DecodeResourceItems(items, parent).None?
    decreases |items| - k
  {
    if k < |items| {
      assert items[..k + 1][..k] == items[..k];
      DecodeItemsFailurePersists(items, k + 1, parent);
    } else {
      assert items[..k] == items;
    }
  }

  /** The loop over a task's count mapping: converts every value to a string
      (and keeps nothing). */
  method CheckStringValues(es: seq<(string, Node)>) returns (ok: bool)
    ensures ok <==> ScalarValues(es)
  {
    var j := 0;
    while j < |es|
      invariant 0 <= j <= |es|
      invariant ScalarValues(es[..j])
    {
      if AsString(es[j].1).None? { return false; }
      j := j + 1;
    }
    assert es[..j] == es;
    return true;
  }

  /** The loop that assigns each entry of a string mapping, in order, into
      the map m (a later entry overwriting an earlier one). */
  method AssignStrings(m: map<string, string>, es: seq<(string, Node)>)
    returns (r: Option<map<string, string>>)
    ensures r.Some? <==> ScalarValues(es)
    ensures r.Some? ==> r.value == m + MapOf(es)
  {
    var acc := m;
    var j := 0;
    while j < |es|
      invariant 0 <= j <= |es|
      invariant ScalarValues(es[..j]) && acc == m + MapOf(es[..j])
    {
      var s := AsString(es[j].1);
      if s.None? { return None; }
      assert es[..j + 1][..j] == es[..j];
      acc := acc[es[j].0 := s.value];
      j := j + 1;
    }
    assert es[..j] == es;
    return Some(acc);
  }

  /** The `Task` constructor. */
  method ParseTask(tasknode: Node) returns (r: Result<Task>)
    ensures Agrees(r, DecodeTask(tasknode))
  {
    if !tasknode.Map? { return Failure("task is not a mapping"); }
    if Size(tasknode) < TASK_MIN_ENTRIES || Size(tasknode) > TASK_MAX_ENTRIES {
      return Failure("impossible number of entries in task mapping");
    }
    var cmd := Lookup(tasknode, "command");
    if cmd.None? { return Failure("task has no command"); }
    var command := AsString(cmd.value);
    if command.None? { return Failure("command is not a string"); }
    var slot := Lookup(tasknode, "slot");
    if slot.None? { return Failure("task has no slot"); }
    if !slot.value.Map? { return Failure("slot is not a mapping"); }
    if Size(slot.value) != 1 { return Failure("slot must hold a single pair"); }
    var slotType := slot.value.entries[0].0;
    var slotValue := AsString(slot.value.entries[0].1);
    if slotValue.None? { return Failure("slot value is not a string"); }
    var cnt := Lookup(tasknode, "count");
    if cnt.Some? {
      // the local node shadows the member: the entries are only converted
      if !cnt.value.Map? { return Failure("task count is not a mapping"); }
      var ok := CheckStringValues(cnt.value.entries);
      if !ok { return Failure("task count value is not a string"); }
    }
    var distribution := "";
    var d := Lookup(tasknode, "distribution");
    if d.Some? {
      var s := AsString(d.value);
      if s.None? { return Failure("distribution is not a string"); }
      distribution := s.value;
    }
    var attributes: map<string, string> := map[];
    var attrs := Lookup(tasknode, "attributes");
    if attrs.Some? {
      if !attrs.value.Map? { return Failure("task attributes is not a mapping"); }
      var m := AssignStrings(attributes, attrs.value.entries);
      if m.None? { return Failure("task attribute value is not a string"); }
      assert map[] + MapOf(attrs.value.entries) == MapOf(attrs.value.entries);
      attributes := m.value;
    }
    return Success(Task(command.value, slotType, slotValue.value, map[], distribution, attributes));
  }

  /** `parse_yaml_tasks`. */
  method ParseYamlTasks(tasks: Node) returns (r: Result<seq<Task>>)
    ensures Agrees(r, DecodeTasks(tasks))
  {
    if !tasks.Seq? { return Failure("tasks is not a sequence"); }
    var taskvec: seq<Task> := [];
    var i := 0;
    while i < |tasks.items|
      invariant 0 <= i <= |tasks.items|
      invariant DecodeTaskItems(tasks.items[..i]) == Some(taskvec)
    {
      var t := ParseTask(tasks.items[i]);
      assert tasks.items[..i + 1][..i] == tasks.items[..i];
      if t.Failure? {
        TaskItemsFailurePersists(tasks.items, i + 1);
        return Failure(t.error);
      }
      taskvec := taskvec + [t.value];
      i := i + 1;
    }
    assert tasks.items[..i] == tasks.items;
    return Success(taskvec);
  }

  lemma {:induction false} TaskItemsFailurePersists(items: seq<Node>, k: nat)
    requires 1 <= k <= |items| && DecodeTaskItems(items[..k]).None?
    ensures DecodeTaskItems(items).None?
    decreases |items| - k
  {
    if k < |items| {
      assert items[..k + 1][..k] == items[..k];
      TaskItemsFailurePersists(items, k + 1);
    } else {
      assert items[..k] == items;
    }
  }

  /** The loop importing the top-level attributes: each value must be a
      mapping, whose entries are assigned into the attribute's inner map
      (created empty on first sight). */
  method ParseAttributes(es: seq<(string, Node)>) returns (r: Option<map<string, map<string, string>>>)
    ensures r.Some? <==> AttributeMaps(es)
    ensures r.Some? ==> r.value == AttributesOf(es)
  {
    var attributes: map<string, map<string, string>> := map[];
    var i := 0;
    while i < |es|
      invariant 0 <= i <= |es|
      invariant AttributeMaps(es[..i]) && attributes == AttributesOf(es[..i])
    {
      var k := es[i].0;
      if k !in attributes {
        attributes := attributes[k := map[]];
      }
      if !es[i].1.Map? {
        AttributeMapsPrefix(es, i + 1);
        return None;
      }
      var inner := AssignStrings(attributes[k], es[i].1.entries);
      if inner.None? {
        AttributeMapsPrefix(es, i + 1);
        return None;
      }
      assert es[..i + 1][..i] == es[..i];
      attributes := attributes[k := inner.value];
      i := i + 1;
    }
    assert es[..i] == es;
    return Some(attributes);
  }

  /** The Jobspec constructor from a loaded YAML node. */
  method ParseJobspec(top: Node) returns (r: Result<Jobspec>)
    ensures Agrees(r, DecodeJobspec(top))
  {
    if !top.Map? { return Failure("top level of jobspec is not a mapping"); }
    if Size(top) != TOP_ENTRIES { return Failure("top mapping must have four entries"); }
    var v := Lookup(top, "version");
    if v.None? { return Failure("missing version"); }
    var rs := Lookup(top, "resources");
    if rs.None? { return Failure("missing resources"); }
    var ts := Lookup(top, "tasks");
    if ts.None? { return Failure("missing tasks"); }
    var at := Lookup(top, "attributes");
    if at.None? { return Failure("missing attributes"); }
    if !v.value.Scalar? { return Failure("version must be an unsigned integer"); }
    var version := AsUnsigned(v.value);
    if version.None? { return Failure("version is not an unsigned integer"); }
    if !at.value.Map? { return Failure("attributes is not a mapping"); }
    var attributes := ParseAttributes(at.value.entries);
    if attributes.None? { return Failure("an attribute is not a mapping of strings"); }
    var resources := ParseYamlResources(rs.value);
    if resources.Failure? { return Failure(resources.error); }
    var tasks := ParseYamlTasks(ts.value);
    if tasks.Failure? { return Failure(tasks.error); }
    return Success(Jobspec(version.value, resources.value, tasks.value, attributes.value));
  }

  /** If some entry's value is not a mapping of strings, no longer prefix
      satisfies AttributeMaps. */
  lemma AttributeMapsPrefix(es: seq<(string, Node)>, k: nat)
    requires 1 <= k <= |es|
    requires !(es[k - 1].1.Map? && ScalarValues(es[k - 1].1.entries))
    ensures !AttributeMaps(es)
  {
  }

  // ---------------------------------------------------------------------
  // The field-count check
  // ---------------------------------------------------------------------

  /** 1 when the key is present. */
  function Present(n: Node, key: string): nat
  {
    Ind(Lookup(n, key).Some?)
  }

  /** The constructor's field count (type and count, plus one for each
      optional key present) is the number of recognised keys the mapping
      holds, so it equals the mapping's size iff every key is recognised and
      none repeats. */
  lemma FieldCountTest(n: Node)
    requires ResourceHeader(n)
    ensures var fieldCount := 2 + Present(n, "unit") + Present(n, "exclusive")
              + Present(n, "with") + Present(n, "label") + Present(n, "id");
            && fieldCount == |RESOURCE_KEYS * KeySet(n.entries)|
            && (fieldCount == Size(n) <==> ResourceKeysOk(n.entries))
  {
    var K := KeySet(n.entries);
    LookupFinds(n, "type");
    LookupFinds(n, "count");
    LookupFinds(n, "unit");
    LookupFinds(n, "exclusive");
    LookupFinds(n, "with");
    LookupFinds(n, "label");
    LookupFinds(n, "id");
    RecognizedKeyCount(K);
    RecognizedKeysCoverEntries(n.entries, RESOURCE_KEYS);
  }

  function Ind(b: bool): nat { if b then 1 else 0 }

  /** The number of recognised keys in a key set holding type and count. */
  lemma RecognizedKeyCount(K: set<string>)
    requires "type" in K && "count" in K
    ensures |RESOURCE_KEYS * K| == 2 + Ind("unit" in K) + Ind("exclusive" in K)
              + Ind("with" in K) + Ind("label" in K) + Ind("id" in K)
  {
    KeyLiterals();
    SevenKeys(K, "type", "count", "unit", "exclusive", "with", "label", "id");
  }

  /** Adding a key absent from S adds one to the number of present keys iff
      the key is present. */
  lemma AddOneKey<T>(S: set<T>, x: T, K: set<T>)
    requires x !in S
    ensures |(S + {x}) * K| == |S * K| + Ind(x in K)
  {
    if x in K {
      assert (S + {x}) * K == S * K + {x};
    } else {
      assert (S + {x}) * K == S * K;
    }
  }
  /** For seven distinct keys of which the first two are present, the number
      present is two plus one for each further key present. */
  lemma SevenKeys<T>(K: set<T>, a: T, b: T, c: T, d: T, e: T, f: T, g: T)
    requires a in K && b in K && a != b
    requires c !in {a, b} && d !in {a, b} + {c} && e !in {a, b} + {c} + {d}
    requires f !in {a, b} + {c} + {d} + {e} && g !in {a, b} + {c} + {d} + {e} + {f}
    ensures |({a, b} + {c} + {d} + {e} + {f} + {g}) * K|
            == 2 + Ind(c in K) + Ind(d in K) + Ind(e in K) + Ind(f in K) + Ind(g in K)
  {
    var s0: set<T> := {a, b};
    assert s0 * K == s0;
    AddOneKey(s0, c, K);
    AddOneKey(s0 + {c}, d, K);
    AddOneKey(s0 + {c} + {d}, e, K);
    AddOneKey(s0 + {c} + {d} + {e}, f, K);
    AddOneKey(s0 + {c} + {d} + {e} + {f}, g, K);
  }
  /** The seven recognised resource keys are distinct. */
  lemma KeyLiterals()
    ensures "type" != "count"
    ensures "unit" !in {"type", "count"}
    ensures "exclusive" !in {"type", "count"} + {"unit"}
    ensures "with" !in {"type", "count"} + {"unit"} + {"exclusive"}
    ensures "label" !in {"type", "count"} + {"unit"} + {"exclusive"} + {"with"}
    ensures "id" !in {"type", "count"} + {"unit"} + {"exclusive"} + {"with"} + {"label"}
    ensures RESOURCE_KEYS == {"type", "count"} + {"unit"} + {"exclusive"} + {"with"} + {"label"} + {"id"}
  {
  }
  /** A mapping has at least as many entries as distinct keys, and exactly as
      many iff its keys are distinct. */
  lemma {:induction false} KeySetSize(es: seq<(string, Node)>)
    ensures |KeySet(es)| <= |es|
    ensures |KeySet(es)| == |es| <==> DistinctKeys(es)
  {
    if |es| == 0 {
      assert KeySet(es) == {};
    } else {
      var init := es[..|es| - 1];
      var last := es[|es| - 1].0;
      KeySetSize(init);
      assert KeySet(es) == KeySet(init) + {last} by {
        forall k | k in KeySet(es) ensures k in KeySet(init) + {last} {
          var i :| 0 <= i < |es| && es[i].0 == k;
          if i < |es| - 1 { assert init[i] == es[i]; }
        }
        forall k | k in KeySet(init) ensures k in KeySet(es) {
          var i :| 0 <= i < |init| && init[i].0 == k;
          assert es[i] == init[i];
        }
      }
      if last in KeySet(init) {
        var i :| 0 <= i < |init| && init[i].0 == last;
        assert es[i].0 == es[|es| - 1].0;
        assert !DistinctKeys(es);
      } else {
        if DistinctKeys(init) {
          forall i, j | 0 <= i < j < |es| ensures es[i].0 != es[j].0 {
            if j < |es| - 1 {
              assert es[i] == init[i] && es[j] == init[j];
            } else {
              assert es[i].0 == init[i].0 && init[i].0 in KeySet(init);
            }
          }
        } else {
          var i, j :| 0 <= i < j < |init| && init[i].0 == init[j].0;
          assert es[i] == init[i] && es[j] == init[j];
        }
      }
    }
  }

  /** The number of recognised keys present equals the number of entries iff
      every key is recognised and no key repeats: the field-count test of the
      Resource constructor rejects exactly the unknown and the repeated keys. */
  lemma RecognizedKeysCoverEntries(es: seq<(string, Node)>, recognized: set<string>)
    ensures |recognized * KeySet(es)| <= |es|
    ensures |recognized * KeySet(es)| == |es| <==> DistinctKeys(es) && KeySet(es) <= recognized
  {
    KeySetSize(es);
    var present := recognized * KeySet(es);
    assert KeySet(es) == present + (KeySet(es) - recognized);
    assert |KeySet(es)| == |present| + |KeySet(es) - recognized|;
    if KeySet(es) <= recognized {
      assert KeySet(es) - recognized == {};
    } else {
      var k :| k in KeySet(es) && k !in recognized;
      assert k in KeySet(es) - recognized;
    }
  }

  // ---------------------------------------------------------------------
  // Properties of the decoders
  // ---------------------------------------------------------------------

  /** A scalar count sets min = max = its value and keeps the default operator
      '+' with operand 1; nothing requires the value to be positive. */
  lemma ScalarCount(n: Node)
    requires n.Scalar?
    ensures DecodeCount(n).Some? <==> n.num.Some? && 0 <= n.num.value < UINT_LIMIT
    ensures DecodeCount(n).Some? ==>
              DecodeCount(n).value == Count(n.num.value, n.num.value, '+', 1)
    ensures DecodeCount(Scalar("0", Some(0))) == Some(Count(0, 0, '+', 1))
  {
  }

  /** A mapping count missing any of min, max, operator, operand is rejected. */
  lemma CountRequiresAllKeys(n: Node)
    requires n.Map?
    requires !({"min", "max", "operator", "operand"} <= KeySet(n.entries))
    ensures DecodeCount(n).None?
  {
    LookupFinds(n, "min");
    LookupFinds(n, "max");
    LookupFinds(n, "operator");
    LookupFinds(n, "operand");
  }

  /** An accepted mapping count has 1 <= min <= max and an operator among '+',
      '-' and '^'; in particular '*' is rejected. */
  lemma AcceptedCountBounds(n: Node)
    requires n.Map? && DecodeCount(n).Some?
    ensures 1 <= DecodeCount(n).value.min <= DecodeCount(n).value.max
    ensures DecodeCount(n).value.oper in {'+', '-', '^'}
    ensures DecodeCount(n).value.oper != '*'
  {
  }

  /** An accepted resource has a type and a count and only distinct recognised
      keys, so it has at most 7 entries (the bound 10 never binds). */
  lemma AcceptedResourceKeys(n: Node)
    requires DecodeResource(n).Some?
    ensures n.Map? && "type" in KeySet(n.entries) && "count" in KeySet(n.entries)
    ensures DistinctKeys(n.entries) && KeySet(n.entries) <= RESOURCE_KEYS
    ensures 2 <= |n.entries| <= 7
  {
    LookupFinds(n, "type");
    LookupFinds(n, "count");
    KeySetSize(n.entries);
    SubsetSize(KeySet(n.entries), RESOURCE_KEYS);
    assert |RESOURCE_KEYS| == 7;
  }

  lemma SubsetSize<T>(a: set<T>, b: set<T>)
    requires a <= b
    ensures |a| <= |b|
  {
    assert b == a + (b - a);
  }

  /** A key outside RESOURCE_KEYS, or a repeated key, makes the resource fail. */
  lemma UnknownResourceKeyRejected(n: Node)
    requires n.Map? && !(DistinctKeys(n.entries) && KeySet(n.entries) <= RESOURCE_KEYS)
    ensures DecodeResource(n).None?
  {
  }

  /** exclusive is true only for the text "true"; a label is stored into unit
      (overriding unit); the label field itself stays empty, and user_data
      starts empty. */
  lemma ResourceFields(n: Node)
    requires DecodeResource(n).Some?
    ensures var r := DecodeResource(n).value;
      && (r.exclusive <==> StringOr(n, "exclusive", "") == "true")
      && (Lookup(n, "label").Some? ==> r.unit == StringOr(n, "label", ""))
      && (Lookup(n, "label").None? ==> r.unit == StringOr(n, "unit", ""))
      && (Lookup(n, "with").None? ==> r.with == [])
      && r.rtype == StringOr(n, "type", "")
      && r.count == DecodeCount(Lookup(n, "count").value).value
      && r.labelName == "" && r.userData == map[]
  {
  }

  /** An accepted task has a command and a single-pair slot, and its own count
      map stays empty whatever the document's count mapping holds. */
  lemma TaskFields(n: Node)
    requires DecodeTask(n).Some?
    ensures n.Map? && 3 <= |n.entries| <= 5
    ensures "command" in KeySet(n.entries) && "slot" in KeySet(n.entries)
    ensures |Lookup(n, "slot").value.entries| == 1
    ensures DecodeTask(n).value.slotType == Lookup(n, "slot").value.entries[0].0
    ensures DecodeTask(n).value.count == map[]
  {
    LookupFinds(n, "command");
    LookupFinds(n, "slot");
  }

  /** MapOf gives each key the value of its LAST entry. */
  lemma {:induction false} MapOfLastWins(es: seq<(string, Node)>, i: nat)
    requires ScalarValues(es) && i < |es|
    requires forall j :: i < j < |es| ==> es[j].0 != es[i].0
    ensures es[i].0 in MapOf(es) && MapOf(es)[es[i].0] == es[i].1.text
  {
    if i < |es| - 1 {
      MapOfLastWins(es[..|es| - 1], i);
    }
  }

  /** The keys of MapOf are the entry keys. */
  lemma {:induction false} MapOfKeys(es: seq<(string, Node)>)
    requires ScalarValues(es)
    ensures MapOf(es).Keys == KeySet(es)
  {
    if |es| > 0 {
      var init := es[..|es| - 1];
      MapOfKeys(init);
      assert KeySet(es) == KeySet(init) + {es[|es| - 1].0} by {
        forall k | k in KeySet(es) ensures k in KeySet(init) + {es[|es| - 1].0} {
          var i :| 0 <= i < |es| && es[i].0 == k;
          if i < |es| - 1 { assert init[i] == es[i]; }
        }
        forall k | k in KeySet(init) ensures k in KeySet(es) {
          var i :| 0 <= i < |init| && init[i].0 == k;
          assert es[i] == init[i];
        }
      }
    }
  }

  /** The top level of an accepted jobspec holds exactly the four keys
      version, resources, tasks and attributes, once each, and every attribute
      value is a mapping. */
  lemma TopLevelKeys(n: Node)
    requires DecodeJobspec(n).Some?
    ensures n.Map? && KeySet(n.entries) == TOP_KEYS && DistinctKeys(n.entries)
    ensures Lookup(n, "attributes").value.Map?
    ensures AttributeMaps(Lookup(n, "attributes").value.entries)
  {
    LookupFinds(n, "version");
    LookupFinds(n, "resources");
    LookupFinds(n, "tasks");
    LookupFinds(n, "attributes");
    KeySetSize(n.entries);
    assert TOP_KEYS <= KeySet(n.entries);
    assert |TOP_KEYS| == 4;
    SubsetOfEqualSize(TOP_KEYS, KeySet(n.entries));
  }

  lemma SubsetOfEqualSize<T>(a: set<T>, b: set<T>)
    requires a <= b && |b| <= |a|
    ensures a == b
  {
    assert |b - a| == |b| - |a| == 0;
  }
}
