/**
 * Refusing a JSON schema that strict output cannot enforce, by a worklist over its nodes
 * (packages/openai/src/model/strict-schema-validator.adapter.ts).
 */
module StrictSchemas {
  import opened Options
  import opened Decimals

  /** A schema as it was parsed. The keys of a record are distinct, in the order it lists them. */
  datatype Field = Field(key: string, value: Json)

  datatype Json =
    | Record(fields: seq<Field>)
    | Array(items: seq<Json>)
    | Text(text: string)
    | Boolean(value: bool)
    | Other

  const NAMED_GROUPS: seq<string> := ["properties", "$defs", "definitions"]
  const BRANCH_GROUPS: seq<string> := ["anyOf", "oneOf", "allOf"]

  function Get(fields: seq<Field>, key: string): (value: Option<Json>)
    ensures value.Some? ==> Field(key, value.value) in fields
    ensures value.None? ==> forall field :: field in fields ==> field.key != key
    decreases |fields|
  {
    if fields == [] then None
    else if fields[|fields| - 1].key == key then Some(fields[|fields| - 1].value)
    else Get(fields[..|fields| - 1], key)
  }

  function At(node: Json, key: string): Option<Json> {
    if node.Record? then Get(node.fields, key) else None
  }

  function RecordAt(node: Json, key: string): (record: Option<Json>)
    ensures record.Some? ==> record.value.Record?
  {
    var value := At(node, key);
    if value.Some? && value.value.Record? then value else None
  }

  predicate DescribesObject(node: Json) {
    RecordAt(node, "properties").Some? || At(node, "type") == Some(Text("object"))
  }

  // ---------------------------------------------------------------- closed nodes

  datatype Reason = NotClosed | LeavesOut(key: string)

  function Declared(node: Json): seq<Field> {
    var properties := RecordAt(node, "properties");
    if properties.Some? then properties.value.fields else []
  }

  predicate Listed(node: Json, key: string) {
    var required := At(node, "required");
    required.Some? && required.value.Array? && Text(key) in required.value.items
  }

  ghost predicate Closed(node: Json) {
    && At(node, "additionalProperties") == Some(Boolean(false))
    && forall i :: 0 <= i < |Declared(node)| ==> Listed(node, Declared(node)[i].key)
  }

  /** A record has an entry under a key. */
  ghost predicate Has(fields: seq<Field>, key: string, value: Json) {
    Get(fields, key) == Some(value)
  }

  /**
   * A node that describes an object, entry by entry: one with a record of properties or the type "object".
   * It is closed when it refuses additional properties and lists every one of its own as required.
   */
  lemma {:induction false} ClosedExactly(fields: seq<Field>)
    ensures DescribesObject(Record(fields))
      <==> (exists properties :: Has(fields, "properties", Record(properties))) || Has(fields, "type", Text("object"))
    ensures Closed(Record(fields))
      <==> && Has(fields, "additionalProperties", Boolean(false))
           && forall properties, key, value :: Has(fields, "properties", Record(properties)) && Field(key, value) in properties ==>
                exists required :: Has(fields, "required", Array(required)) && Text(key) in required
  {
    var node := Record(fields);
    var properties := RecordAt(node, "properties");
    if properties.Some? {
      var declared := properties.value.fields;
      assert Has(fields, "properties", Record(declared));
      forall key, value | Field(key, value) in declared
        ensures Closed(node) ==> Listed(node, key)
      {
        var i :| 0 <= i < |declared| && declared[i] == Field(key, value);
        assert Closed(node) ==> Listed(node, Declared(node)[i].key);
      }
      forall i | 0 <= i < |declared|
        ensures Declared(node)[i] == declared[i] && Field(declared[i].key, declared[i].value) in declared
      {
      }
    }
    forall key
      ensures Listed(node, key) <==> exists required :: Has(fields, "required", Array(required)) && Text(key) in required
    {
      ListedExactly(fields, key);
    }
  }

  lemma {:induction false} ListedExactly(fields: seq<Field>, key: string)
    ensures Listed(Record(fields), key)
      <==> exists required :: Has(fields, "required", Array(required)) && Text(key) in required
  {
    var required := Get(fields, "required");
    if required.Some? && required.value.Array? {
      assert Has(fields, "required", Array(required.value.items));
    }
  }

  /** Why a node is not closed: the first thing wrong with it. */
  ghost predicate Explains(node: Json, reason: Reason) {
    match reason
    case NotClosed => At(node, "additionalProperties") != Some(Boolean(false))
    case LeavesOut(key) =>
      && At(node, "additionalProperties") == Some(Boolean(false))
      && exists i :: 0 <= i < |Declared(node)| && Declared(node)[i].key == key && !Listed(node, key)
           && forall j :: 0 <= j < i ==> Listed(node, Declared(node)[j].key)
  }

  method VerifyClosed(node: Json) returns (reason: Option<Reason>)
    ensures reason.None? <==> Closed(node)
    ensures reason.Some? ==> Explains(node, reason.value)
  {
    if At(node, "additionalProperties") != Some(Boolean(false)) {
      return Some(NotClosed);
    }
    var declared := Declared(node);
    for i := 0 to |declared|
      invariant forall j :: 0 <= j < i ==> Listed(node, declared[j].key)
    {
      if !Listed(node, declared[i].key) {
        return Some(LeavesOut(declared[i].key));
      }
    }
    return None;
  }

  // ---------------------------------------------------------------- children

  type Path = string
  type Item = (Path, Json)

  function JoinPath(path: Path, step: string): Path {
    if path == "" then step else path + "." + step
  }

  function NamedChildren(fields: seq<Field>, path: Path, group: string): seq<Item>
    decreases |fields|
  {
    if fields == [] then []
    else
      var last := |fields| - 1;
      NamedChildren(fields[..last], path, group)
      + if fields[last].value.Record? then [(JoinPath(path, group + "." + fields[last].key), fields[last].value)] else []
  }

  function BranchChildren(items: seq<Json>, path: Path, group: string): seq<Item>
    decreases |items|
  {
    if items == [] then []
    else
      var last := |items| - 1;
      BranchChildren(items[..last], path, group)
      + if items[last].Record? then [(JoinPath(path, group + "[" + Digits(last) + "]"), items[last])] else []
  }

  function NamedIn(node: Json, path: Path, group: string): seq<Item> {
    var named := RecordAt(node, group);
    if named.Some? then NamedChildren(named.value.fields, path, group) else []
  }

  function BranchesIn(node: Json, path: Path, group: string): seq<Item> {
    var list := At(node, group);
    if list.Some? && list.value.Array? then BranchChildren(list.value.items, path, group) else []
  }

  function ItemsOf(node: Json, path: Path): seq<Item> {
    var items := RecordAt(node, "items");
    if items.Some? then [(JoinPath(path, "items"), items.value)] else []
  }

  function AllNamed(node: Json, path: Path, groups: seq<string>): seq<Item>
    decreases |groups|
  {
    if groups == [] then []
    else AllNamed(node, path, groups[..|groups| - 1]) + NamedIn(node, path, groups[|groups| - 1])
  }

  function AllBranches(node: Json, path: Path, groups: seq<string>): seq<Item>
    decreases |groups|
  {
    if groups == [] then []
    else AllBranches(node, path, groups[..|groups| - 1]) + BranchesIn(node, path, groups[|groups| - 1])
  }

  /** Every node a node holds, in the order they are read. */
  function Children(node: Json, path: Path): seq<Item> {
    AllNamed(node, path, NAMED_GROUPS) + AllBranches(node, path, BRANCH_GROUPS) + ItemsOf(node, path)
  }

  method ReadNamed(node: Json, path: Path, group: string) returns (children: seq<Item>)
    ensures children == NamedIn(node, path, group)
  {
    children := [];
    var named := RecordAt(node, group);
    if named.None? {
      return;
    }
    var fields := named.value.fields;
    for next := 0 to |fields|
      invariant children == NamedChildren(fields[..next], path, group)
    {
      assert fields[..next + 1][..next] == fields[..next];
      if fields[next].value.Record? {
        children := children + [(JoinPath(path, group + "." + fields[next].key), fields[next].value)];
      }
    }
    assert fields[..|fields|] == fields;
  }

  method ReadBranches(node: Json, path: Path, group: string) returns (children: seq<Item>)
    ensures children == BranchesIn(node, path, group)
  {
    children := [];
    var list := At(node, group);
    if list.None? || !list.value.Array? {
      return;
    }
    var items := list.value.items;
    for index := 0 to |items|
      invariant children == BranchChildren(items[..index], path, group)
    {
      assert items[..index + 1][..index] == items[..index];
      if items[index].Record? {
        children := children + [(JoinPath(path, group + "[" + Digits(index) + "]"), items[index])];
      }
    }
    assert items[..|items|] == items;
  }

  method ReadAllNamed(node: Json, path: Path, groups: seq<string>) returns (children: seq<Item>)
    ensures children == AllNamed(node, path, groups)
  {
    children := [];
    for at := 0 to |groups|
      invariant children == AllNamed(node, path, groups[..at])
    {
      assert groups[..at + 1][..at] == groups[..at];
      var more := ReadNamed(node, path, groups[at]);
      children := children + more;
    }
    assert groups[..|groups|] == groups;
  }

  method ReadAllBranches(node: Json, path: Path, groups: seq<string>) returns (children: seq<Item>)
    ensures children == AllBranches(node, path, groups)
  {
    children := [];
    for at := 0 to |groups|
      invariant children == AllBranches(node, path, groups[..at])
    {
      assert groups[..at + 1][..at] == groups[..at];
      var more := ReadBranches(node, path, groups[at]);
      children := children + more;
    }
    assert groups[..|groups|] == groups;
  }

  method ReadChildren(node: Json, path: Path) returns (children: seq<Item>)
    ensures children == Children(node, path)
  {
    var named := ReadAllNamed(node, path, NAMED_GROUPS);
    var branches := ReadAllBranches(node, path, BRANCH_GROUPS);
    children := named + branches + ItemsOf(node, path);
  }

  // ---------------------------------------------------------------- which nodes a node holds

  /** A path goes on by one step, behind a dot unless it begins with it. */
  ghost predicate GoesOn(path: Path, step: string, to: Path) {
    if path == "" then to == step else to == path + "." + step
  }

  ghost predicate HoldsNamed(node: Json, path: Path, group: string, item: Item) {
    var named := RecordAt(node, group);
    && item.1.Record? && named.Some?
    && exists i :: 0 <= i < |named.value.fields| && IsNamed(named.value.fields[i], path, group, item)
  }

  ghost predicate IsNamed(field: Field, path: Path, group: string, item: Item) {
    field.value == item.1 && GoesOn(path, group + "." + field.key, item.0)
  }

  ghost predicate HoldsBranch(node: Json, path: Path, group: string, item: Item) {
    var list := At(node, group);
    item.1.Record? && list.Some? && list.value.Array? && IsABranch(list.value.items, path, group, item)
  }

  ghost predicate IsBranch(branch: Json, at: nat, path: Path, group: string, item: Item) {
    branch == item.1 && GoesOn(path, group + "[" + Digits(at) + "]", item.0)
  }

  /** Nodes are records that stand under properties or definitions, in a list of branches, or as the items. */
  ghost predicate Holds(node: Json, path: Path, item: Item) {
    || HoldsNamed(node, path, "properties", item)
    || HoldsNamed(node, path, "$defs", item)
    || HoldsNamed(node, path, "definitions", item)
    || HoldsBranch(node, path, "anyOf", item)
    || HoldsBranch(node, path, "oneOf", item)
    || HoldsBranch(node, path, "allOf", item)
    || (item.1.Record? && At(node, "items") == Some(item.1) && GoesOn(path, "items", item.0))
  }

  lemma {:induction false} NamedExactly(fields: seq<Field>, path: Path, group: string, item: Item)
    ensures item in NamedChildren(fields, path, group)
      <==> item.1.Record? && exists i :: 0 <= i < |fields| && IsNamed(fields[i], path, group, item)
    decreases |fields|
  {
    if fields != [] {
      var last := |fields| - 1;
      var front := fields[..last];
      NamedExactly(front, path, group, item);
      assert forall i :: 0 <= i < last ==> front[i] == fields[i];
      assert IsNamed(fields[last], path, group, item) || !IsNamed(fields[last], path, group, item);
    }
  }

  lemma {:induction false} OneBranchMore(items: seq<Json>, path: Path, group: string, item: Item)
    requires items != []
    ensures var last := |items| - 1;
      item in BranchChildren(items, path, group)
      <==> || item in BranchChildren(items[..last], path, group)
           || (items[last].Record? && IsBranch(items[last], last, path, group, item))
  {
  }

  ghost predicate IsABranch(items: seq<Json>, path: Path, group: string, item: Item) {
    exists i :: 0 <= i < |items| && IsBranch(items[i], i, path, group, item)
  }

  lemma {:induction false} OneMoreOfThem(items: seq<Json>, path: Path, group: string, item: Item)
    requires items != []
    ensures var last := |items| - 1;
      IsABranch(items, path, group, item)
      <==> IsABranch(items[..last], path, group, item) || IsBranch(items[last], last, path, group, item)
  {
    var last := |items| - 1;
    if IsABranch(items[..last], path, group, item) {
      var i :| 0 <= i < last && IsBranch(items[..last][i], i, path, group, item);
      assert IsBranch(items[i], i, path, group, item);
    }
    if IsABranch(items, path, group, item) {
      var i :| 0 <= i < |items| && IsBranch(items[i], i, path, group, item);
      if i < last {
        assert IsBranch(items[..last][i], i, path, group, item);
      }
    }
  }

  lemma {:induction false} BranchesExactly(items: seq<Json>, path: Path, group: string, item: Item)
    ensures item in BranchChildren(items, path, group) <==> item.1.Record? && IsABranch(items, path, group, item)
    decreases |items|
  {
    if items != [] {
      BranchesExactly(items[..|items| - 1], path, group, item);
      OneBranchMore(items, path, group, item);
      OneMoreOfThem(items, path, group, item);
    }
  }

  lemma {:induction false} InNamedExactly(node: Json, path: Path, group: string, item: Item)
    ensures item in NamedIn(node, path, group) <==> HoldsNamed(node, path, group, item)
  {
    var named := RecordAt(node, group);
    if named.Some? {
      NamedExactly(named.value.fields, path, group, item);
    }
  }

  lemma {:induction false} InBranchesExactly(node: Json, path: Path, group: string, item: Item)
    ensures item in BranchesIn(node, path, group) <==> HoldsBranch(node, path, group, item)
  {
    var list := At(node, group);
    if list.Some? && list.value.Array? {
      BranchesExactly(list.value.items, path, group, item);
    }
  }

  lemma {:induction false} AllNamedExactly(node: Json, path: Path, groups: seq<string>, item: Item)
    ensures item in AllNamed(node, path, groups)
      <==> exists i :: 0 <= i < |groups| && HoldsNamed(node, path, groups[i], item)
    decreases |groups|
  {
    if groups != [] {
      var last := |groups| - 1;
      AllNamedExactly(node, path, groups[..last], item);
      InNamedExactly(node, path, groups[last], item);
      assert groups == groups[..last] + [groups[last]];
    }
  }

  lemma {:induction false} AllBranchesExactly(node: Json, path: Path, groups: seq<string>, item: Item)
    ensures item in AllBranches(node, path, groups)
      <==> exists i :: 0 <= i < |groups| && HoldsBranch(node, path, groups[i], item)
    decreases |groups|
  {
    if groups != [] {
      var last := |groups| - 1;
      AllBranchesExactly(node, path, groups[..last], item);
      InBranchesExactly(node, path, groups[last], item);
      assert groups == groups[..last] + [groups[last]];
    }
  }

  lemma {:induction false} ThreeNamed(node: Json, path: Path, item: Item)
    ensures item in AllNamed(node, path, NAMED_GROUPS)
      <==> || HoldsNamed(node, path, "properties", item)
           || HoldsNamed(node, path, "$defs", item)
           || HoldsNamed(node, path, "definitions", item)
  {
    AllNamedExactly(node, path, NAMED_GROUPS, item);
    assert NAMED_GROUPS[0] == "properties" && NAMED_GROUPS[1] == "$defs" && NAMED_GROUPS[2] == "definitions";
  }

  lemma {:induction false} ThreeBranches(node: Json, path: Path, item: Item)
    ensures item in AllBranches(node, path, BRANCH_GROUPS)
      <==> || HoldsBranch(node, path, "anyOf", item)
           || HoldsBranch(node, path, "oneOf", item)
           || HoldsBranch(node, path, "allOf", item)
  {
    AllBranchesExactly(node, path, BRANCH_GROUPS, item);
    assert BRANCH_GROUPS[0] == "anyOf" && BRANCH_GROUPS[1] == "oneOf" && BRANCH_GROUPS[2] == "allOf";
  }

  lemma {:induction false} ItemsExactly(node: Json, path: Path, item: Item)
    ensures item in ItemsOf(node, path)
      <==> item.1.Record? && At(node, "items") == Some(item.1) && GoesOn(path, "items", item.0)
  {
  }

  /** A node's children are exactly the nodes it holds, each with the path that leads to it. */
  lemma {:induction false} ChildrenExactly(node: Json, path: Path, item: Item)
    ensures item in Children(node, path) <==> Holds(node, path, item)
  {
    ThreeNamed(node, path, item);
    ThreeBranches(node, path, item);
    ItemsExactly(node, path, item);
    var named, branches, items := AllNamed(node, path, NAMED_GROUPS), AllBranches(node, path, BRANCH_GROUPS), ItemsOf(node, path);
    assert Children(node, path) == named + branches + items;
  }

  // ---------------------------------------------------------------- the worklist gets lighter

  function Size(node: Json): nat
    decreases node
  {
    match node
    case Record(fields) => 1 + FieldsSize(fields)
    case Array(items) => 1 + ItemsSize(items)
    case _ => 1
  }

  function FieldsSize(fields: seq<Field>): nat
    decreases fields
  {
    if fields == [] then 0 else FieldsSize(fields[..|fields| - 1]) + Size(fields[|fields| - 1].value)
  }

  function ItemsSize(items: seq<Json>): nat
    decreases items
  {
    if items == [] then 0 else ItemsSize(items[..|items| - 1]) + Size(items[|items| - 1])
  }

  function Weight(pending: seq<Item>): nat
    decreases |pending|
  {
    if pending == [] then 0 else Weight(pending[..|pending| - 1]) + Size(pending[|pending| - 1].1)
  }

  lemma {:induction false} WeightOfBoth(some: seq<Item>, more: seq<Item>)
    ensures Weight(some + more) == Weight(some) + Weight(more)
    decreases |more|
  {
    if more == [] {
      assert some + more == some;
    } else {
      assert (some + more)[..|some + more| - 1] == some + more[..|more| - 1];
      WeightOfBoth(some, more[..|more| - 1]);
    }
  }

  lemma {:induction false} WeightOfOne(item: Item)
    ensures Weight([item]) == Size(item.1)
  {
    var pending: seq<Item> := [item];
    assert pending[..0] == [];
  }

  lemma {:induction false} NamedWeight(fields: seq<Field>, path: Path, group: string)
    ensures Weight(NamedChildren(fields, path, group)) <= FieldsSize(fields)
    decreases |fields|
  {
    if fields != [] {
      var last := |fields| - 1;
      NamedWeight(fields[..last], path, group);
      if !fields[last].value.Record? {
        assert NamedChildren(fields, path, group) == NamedChildren(fields[..last], path, group);
      } else {
        var item := (JoinPath(path, group + "." + fields[last].key), fields[last].value);
        WeightOfBoth(NamedChildren(fields[..last], path, group), [item]);
        WeightOfOne(item);
      }
    }
  }

  lemma {:induction false} BranchWeight(items: seq<Json>, path: Path, group: string)
    ensures Weight(BranchChildren(items, path, group)) <= ItemsSize(items)
    decreases |items|
  {
    if items != [] {
      var last := |items| - 1;
      BranchWeight(items[..last], path, group);
      if !items[last].Record? {
        assert BranchChildren(items, path, group) == BranchChildren(items[..last], path, group);
      } else {
        var item := (JoinPath(path, group + "[" + Digits(last) + "]"), items[last]);
        WeightOfBoth(BranchChildren(items[..last], path, group), [item]);
        WeightOfOne(item);
      }
    }
  }

  function SizeAt(fields: seq<Field>, key: string): nat {
    var value := Get(fields, key);
    if value.None? then 0 else Size(value.value)
  }

  function SlotsSize(fields: seq<Field>, slots: seq<string>): nat
    decreases |slots|
  {
    if slots == [] then 0
    else SlotsSize(fields, slots[..|slots| - 1]) + SizeAt(fields, slots[|slots| - 1])
  }

  ghost predicate Distinct(slots: seq<string>) {
    forall i, j :: 0 <= i < j < |slots| ==> slots[i] != slots[j]
  }

  lemma {:induction false} OneFieldMore(fields: seq<Field>, slots: seq<string>)
    requires fields != [] && Distinct(slots)
    ensures var last := fields[|fields| - 1];
      SlotsSize(fields, slots)
      <= SlotsSize(fields[..|fields| - 1], slots) + (if last.key in slots then Size(last.value) else 0)
    decreases |slots|
  {
    if slots != [] {
      var front := slots[..|slots| - 1];
      OneFieldMore(fields, front);
      assert forall key :: key in slots <==> key in front || key == slots[|slots| - 1];
    }
  }

  /** Distinct slots hold distinct fields. */
  lemma {:induction false} SlotsFit(fields: seq<Field>, slots: seq<string>)
    requires Distinct(slots)
    ensures SlotsSize(fields, slots) <= FieldsSize(fields)
    decreases |fields|
  {
    if fields == [] {
      NoFieldNoSize(slots);
    } else {
      OneFieldMore(fields, slots);
      SlotsFit(fields[..|fields| - 1], slots);
    }
  }

  lemma {:induction false} NoFieldNoSize(slots: seq<string>)
    ensures SlotsSize([], slots) == 0
    decreases |slots|
  {
    if slots != [] {
      NoFieldNoSize(slots[..|slots| - 1]);
    }
  }

  lemma {:induction false} SlotsSizeOfBoth(fields: seq<Field>, some: seq<string>, more: seq<string>)
    ensures SlotsSize(fields, some + more) == SlotsSize(fields, some) + SlotsSize(fields, more)
    decreases |more|
  {
    if more == [] {
      assert some + more == some;
    } else {
      assert (some + more)[..|some + more| - 1] == some + more[..|more| - 1];
      SlotsSizeOfBoth(fields, some, more[..|more| - 1]);
    }
  }

  lemma {:induction false} AllNamedWeight(node: Json, path: Path, groups: seq<string>)
    requires node.Record?
    ensures Weight(AllNamed(node, path, groups)) <= SlotsSize(node.fields, groups)
    decreases |groups|
  {
    if groups != [] {
      var front, group := groups[..|groups| - 1], groups[|groups| - 1];
      AllNamedWeight(node, path, front);
      WeightOfBoth(AllNamed(node, path, front), NamedIn(node, path, group));
      var named := RecordAt(node, group);
      if named.Some? {
        NamedWeight(named.value.fields, path, group);
      }
    }
  }

  lemma {:induction false} AllBranchesWeight(node: Json, path: Path, groups: seq<string>)
    requires node.Record?
    ensures Weight(AllBranches(node, path, groups)) <= SlotsSize(node.fields, groups)
    decreases |groups|
  {
    if groups != [] {
      var front, group := groups[..|groups| - 1], groups[|groups| - 1];
      AllBranchesWeight(node, path, front);
      WeightOfBoth(AllBranches(node, path, front), BranchesIn(node, path, group));
      var list := At(node, group);
      if list.Some? && list.value.Array? {
        BranchWeight(list.value.items, path, group);
      }
    }
  }

  lemma {:induction false} SlotsAreDistinct()
    ensures Distinct(NAMED_GROUPS + BRANCH_GROUPS + ["items"])
  {
    var slots := NAMED_GROUPS + BRANCH_GROUPS + ["items"];
    assert |slots[0]| == 10 && |slots[1]| == 5 && slots[1][0] == '$' && |slots[2]| == 11;
    assert slots[3][..2] == "an" && slots[4][..2] == "on" && slots[5][..2] == "al" && slots[6][..2] == "it";
  }

  /** All a node holds weighs less than the node. */
  lemma {:induction false} ChildrenWeighLess(node: Json, path: Path)
    ensures Weight(Children(node, path)) < Size(node)
  {
    var named, branches, items := AllNamed(node, path, NAMED_GROUPS), AllBranches(node, path, BRANCH_GROUPS), ItemsOf(node, path);
    if node.Record? {
      AllNamedWeight(node, path, NAMED_GROUPS);
      AllBranchesWeight(node, path, BRANCH_GROUPS);
      WeightOfBoth(named, branches);
      WeightOfBoth(named + branches, items);
      ItemsWeight(node, path);
      SlotsSizeOfBoth(node.fields, NAMED_GROUPS, BRANCH_GROUPS);
      SlotsSizeOfBoth(node.fields, NAMED_GROUPS + BRANCH_GROUPS, ["items"]);
      SlotsAreDistinct();
      SlotsFit(node.fields, NAMED_GROUPS + BRANCH_GROUPS + ["items"]);
    } else {
      NothingInside(node, path, NAMED_GROUPS, BRANCH_GROUPS);
    }
  }

  lemma {:induction false} ItemsWeight(node: Json, path: Path)
    requires node.Record?
    ensures Weight(ItemsOf(node, path)) <= SlotsSize(node.fields, ["items"])
  {
    var slots: seq<string> := ["items"];
    assert slots[..0] == [];
    var items := ItemsOf(node, path);
    if items != [] {
      WeightOfOne(items[0]);
    }
  }

  lemma {:induction false} NothingInside(node: Json, path: Path, named: seq<string>, branches: seq<string>)
    requires !node.Record?
    ensures AllNamed(node, path, named) == [] && AllBranches(node, path, branches) == []
    decreases |named| + |branches|
  {
    if named != [] {
      NothingInside(node, path, named[..|named| - 1], branches);
    } else if branches != [] {
      NothingInside(node, path, named, branches[..|branches| - 1]);
    }
  }

  lemma {:induction false} EachWeighsLess(pending: seq<Item>)
    ensures forall i :: 0 <= i < |pending| ==> Size(pending[i].1) <= Weight(pending)
    decreases |pending|
  {
    if pending != [] {
      EachWeighsLess(pending[..|pending| - 1]);
    }
  }

  function ChildrenOf(item: Item): (children: seq<Item>)
    ensures children == Children(item.1, item.0)
    ensures forall child :: child in children ==> Size(child.1) < Size(item.1)
  {
    ChildrenWeighLess(item.1, item.0);
    EachWeighsLess(Children(item.1, item.0));
    Children(item.1, item.0)
  }

  // ---------------------------------------------------------------- the meaning, and the worklist

  ghost predicate Fine(node: Json) {
    DescribesObject(node) ==> Closed(node)
  }

  /** What the worklist decides, by recursion over the schema. */
  ghost predicate Strict(item: Item)
    decreases Size(item.1)
  {
    Fine(item.1) && forall child :: child in ChildrenOf(item) ==> Strict(child)
  }

  ghost predicate AllStrict(pending: seq<Item>) {
    forall item :: item in pending ==> Strict(item)
  }

  /** A way down: each item is one of the nodes that the item before it holds. */
  ghost predicate IsTrail(trail: seq<Item>) {
    trail != [] && forall i :: 0 <= i < |trail| - 1 ==> trail[i + 1] in ChildrenOf(trail[i])
  }

  ghost predicate Leads(trail: seq<Item>, from: Item, to: Item) {
    IsTrail(trail) && trail[0] == from && trail[|trail| - 1] == to
  }

  ghost predicate Reaches(from: Item, to: Item) {
    exists trail :: Leads(trail, from, to)
  }

  lemma {:induction false} ReachesItself(item: Item)
    ensures Reaches(item, item)
  {
    assert Leads([item], item, item);
  }

  lemma {:induction false} ReachesFurther(from: Item, to: Item, child: Item)
    requires Reaches(from, to) && child in ChildrenOf(to)
    ensures Reaches(from, child)
  {
    var trail :| Leads(trail, from, to);
    TrailGoesOn(trail, child);
    assert Leads(trail + [child], from, child);
  }

  lemma {:induction false} TrailGoesOn(trail: seq<Item>, child: Item)
    requires IsTrail(trail) && child in ChildrenOf(trail[|trail| - 1])
    ensures IsTrail(trail + [child])
  {
    var longer := trail + [child];
    forall i | 0 <= i < |longer| - 1
      ensures longer[i + 1] in ChildrenOf(longer[i])
    {
      if i < |trail| - 1 {
        assert longer[i + 1] == trail[i + 1] && longer[i] == trail[i];
      }
    }
  }

  lemma {:induction false} StrictAlong(trail: seq<Item>)
    requires IsTrail(trail) && Strict(trail[0])
    ensures Strict(trail[|trail| - 1])
    decreases |trail|
  {
    if |trail| > 1 {
      assert trail[1] in ChildrenOf(trail[0]);
      StrictAlong(trail[1..]);
    }
  }

  lemma {:induction false} FineBelow(root: Item, item: Item)
    requires Reaches(root, item)
    requires forall below :: Reaches(root, below) ==> Fine(below.1)
    ensures Strict(item)
    decreases Size(item.1)
  {
    forall child | child in ChildrenOf(item)
      ensures Strict(child)
    {
      ReachesFurther(root, item, child);
      FineBelow(root, child);
    }
  }

  /** The recursion means that every node anywhere below that describes an object is closed. */
  lemma {:induction false} StrictExactlyWhenAllBelowAreFine(root: Item)
    ensures Strict(root) <==> forall item :: Reaches(root, item) ==> Fine(item.1)
  {
    if Strict(root) {
      forall item | Reaches(root, item)
        ensures Fine(item.1)
      {
        var trail :| Leads(trail, root, item);
        StrictAlong(trail);
      }
    } else if forall item :: Reaches(root, item) ==> Fine(item.1) {
      ReachesItself(root);
      FineBelow(root, root);
    }
  }

  datatype Refusal = Refusal(path: Path, reason: Reason)

  /** The node a refusal is about: it is reached by the path the refusal names, and is open for that reason. */
  ghost predicate IsAbout(refusal: Refusal, root: Item, item: Item) {
    && Reaches(root, item) && item.0 == refusal.path
    && DescribesObject(item.1) && !Closed(item.1) && Explains(item.1, refusal.reason)
  }

  lemma {:induction false} PoppingKeeps(rest: seq<Item>, next: Item, children: seq<Item>)
    requires Fine(next.1) && children == ChildrenOf(next)
    ensures AllStrict(rest + [next]) <==> AllStrict(rest + children)
    ensures Weight(rest + children) < Weight(rest + [next])
  {
    WeightOfBoth(rest, [next]);
    WeightOfBoth(rest, children);
    WeightOfOne(next);
    ChildrenWeighLess(next.1, next.0);
    assert Strict(next) <==> AllStrict(children);
    assert AllStrict(rest + [next]) <==> AllStrict(rest) && Strict(next);
    assert AllStrict(rest + children) <==> AllStrict(rest) && AllStrict(children);
  }

  /** Accepts exactly the schemas whose every node is strict, and names a node at fault otherwise. */
  method Validate(schema: Json) returns (refusal: Option<Refusal>)
    ensures refusal.None? <==> forall item :: Reaches(("", schema), item) ==> Fine(item.1)
    ensures refusal.Some? ==> exists item :: IsAbout(refusal.value, ("", schema), item)
  {
    ghost var root: Item := ("", schema);
    StrictExactlyWhenAllBelowAreFine(root);
    ReachesItself(root);
    var pending: seq<Item> := [("", schema)];
    while pending != []
      invariant Strict(root) <==> AllStrict(pending)
      invariant forall item :: item in pending ==> Reaches(root, item)
      decreases Weight(pending)
    {
      var next, rest := pending[|pending| - 1], pending[..|pending| - 1];
      assert pending == rest + [next];
      var path, node := next.0, next.1;
      if DescribesObject(node) {
        var reason := VerifyClosed(node);
        if reason.Some? {
          refusal := Some(Refusal(path, reason.value));
          assert IsAbout(refusal.value, root, next);
          return;
        }
      }
      var children := ReadChildren(node, path);
      PoppingKeeps(rest, next, ChildrenOf(next));
      forall child | child in children
        ensures Reaches(root, child)
      {
        ReachesFurther(root, next, child);
      }
      pending := rest + children;
    }
    refusal := None;
  }
}
