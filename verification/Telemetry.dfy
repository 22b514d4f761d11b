/** Telemetry items as objects that are read and set in place. */
module Telemetry {
  import opened Options
  import opened TelemetryLogic

  /** An item with a single value. */
  class LeafItem {
    const id: string
    var val: Value

    function View(): Leaf
      reads this
    {
      Leaf(id, val)
    }

    constructor (name: string, defaultVal: Value)
      ensures View() == Leaf(name, defaultVal)
    {
      id, val := name, defaultVal;
    }

    /** `setVals` refuses a vector of another length. */
    method SetVal(v: Value) returns (ok: bool)
      requires SameKind(val, v)
      modifies this
      ensures ok == SameSize(old(val), v) && val == if ok then v else old(val)
    {
      ok := SameSize(val, v);
      if ok {
        val := v;
      }
    }

    method SetFromJson(js: Json, idExpected: bool) returns (outcome: Outcome)
      modifies this
      ensures (View(), outcome) == LeafSet(old(View()), js, idExpected)
    {
      if idExpected {
        return Failed;
      }
      if id !in js {
        return Failed;
      }
      var v := FromJson(val, js[id]);
      if v == None {
        return Threw;
      }
      var ok := SetVal(v.value);
      return if ok then Done else Failed;
    }

    method CompareItem(other: LeafItem) returns (same: bool)
      ensures same == (View() == other.View())
    {
      same := SameKind(val, other.val) && id == other.id && val == other.val;
    }
  }

  function LeafViews(leaves: seq<LeafItem>): (views: seq<Leaf>)
    reads leaves
    ensures |views| == |leaves| && forall i | 0 <= i < |leaves| :: views[i] == leaves[i].View()
  {
    if leaves == [] then [] else [leaves[0].View()] + LeafViews(leaves[1..])
  }

  predicate Separate(leaves: seq<LeafItem>) { forall i, j | 0 <= i < j < |leaves| :: leaves[i] != leaves[j] }

  /** The place of the member called `name`, or the number of members. */
  method FindMember(tiMap: seq<LeafItem>, name: string) returns (n: nat)
    ensures n == FindLeaf(LeafViews(tiMap), name)
  {
    n := 0;
    while n < |tiMap| && tiMap[n].id != name
      invariant n <= |tiMap| && FindLeaf(LeafViews(tiMap), name) == n + FindLeaf(LeafViews(tiMap[n..]), name)
    {
      assert tiMap[n..][1..] == tiMap[n + 1..];
      n := n + 1;
    }
  }

  function Ids(tiMap: seq<LeafItem>): (ids: seq<string>)
    ensures |ids| == |tiMap| && forall i | 0 <= i < |tiMap| :: ids[i] == tiMap[i].id
  {
    seq(|tiMap|, i requires 0 <= i < |tiMap| => tiMap[i].id)
  }

  /** The first place whose id is not before `name`. */
  method PlaceFor(tiMap: seq<LeafItem>, name: string) returns (n: nat)
    requires Ascending(Ids(tiMap))
    ensures n <= |tiMap| && (forall k | 0 <= k < n :: Less(tiMap[k].id, name))
    ensures forall k | n <= k < |tiMap| :: !Less(tiMap[k].id, name)
  {
    n := 0;
    while n < |tiMap| && Less(tiMap[n].id, name)
      invariant n <= |tiMap| && forall k | 0 <= k < n :: Less(tiMap[k].id, name)
    {
      n := n + 1;
    }
    forall k | n <= k < |tiMap|
      ensures !Less(tiMap[k].id, name)
    {
      if n < k && Less(tiMap[k].id, name) {
        assert Less(Ids(tiMap)[n], Ids(tiMap)[k]);
        LessIsTransitive(tiMap[n].id, tiMap[k].id, name);
      }
    }
  }

  /** `insert`, for a group under construction: a duplicate id is refused, another goes to its place, so the
      members stay in the order of their ids. */
  method Insert(tiMap: seq<LeafItem>, item: LeafItem) returns (ok: bool, grown: seq<LeafItem>)
    requires Ascending(Ids(tiMap)) && Separate(tiMap)
    ensures Ascending(Ids(grown)) && Separate(grown)
    ensures ok <==> forall l | l in tiMap :: l.id != item.id
    ensures ok ==> multiset(grown) == multiset(tiMap) + multiset{item}
    ensures !ok ==> grown == tiMap
  {
    var n := PlaceFor(tiMap, item.id);
    ok := n == |tiMap| || tiMap[n].id != item.id;
    if !ok {
      assert tiMap[n] in tiMap;
      return false, tiMap;
    }
    grown := tiMap[..n] + [item] + tiMap[n..];
    assert tiMap == tiMap[..n] + tiMap[n..];
    StaysAscending(tiMap, n, item);
    forall l | l in tiMap
      ensures l.id != item.id
    {
      NotThere(tiMap, n, item, l);
    }
  }

  lemma NotThere(tiMap: seq<LeafItem>, n: nat, item: LeafItem, l: LeafItem)
    requires Ascending(Ids(tiMap)) && n <= |tiMap| && l in tiMap
    requires forall k | 0 <= k < n :: Less(tiMap[k].id, item.id)
    requires n < |tiMap| ==> !Less(tiMap[n].id, item.id) && tiMap[n].id != item.id
    ensures l.id != item.id
  {
    var k :| 0 <= k < |tiMap| && tiMap[k] == l;
    LessIsStrict(l.id, item.id);
    if n <= k {
      LessIsStrict(tiMap[n].id, item.id);
      if n < k {
        assert Less(Ids(tiMap)[n], Ids(tiMap)[k]);
        LessIsTransitive(item.id, tiMap[n].id, l.id);
      }
    }
  }

  lemma StaysAscending(tiMap: seq<LeafItem>, n: nat, item: LeafItem)
    requires Ascending(Ids(tiMap)) && Separate(tiMap) && n <= |tiMap|
    requires forall k | 0 <= k < n :: Less(tiMap[k].id, item.id)
    requires n < |tiMap| ==> !Less(tiMap[n].id, item.id) && tiMap[n].id != item.id
    ensures Ascending(Ids(tiMap[..n] + [item] + tiMap[n..])) && Separate(tiMap[..n] + [item] + tiMap[n..])
  {
    var grown := tiMap[..n] + [item] + tiMap[n..];
    forall k | n <= k < |tiMap|
      ensures Less(item.id, tiMap[k].id)
    {
      LessIsStrict(tiMap[n].id, item.id);
      if n < k {
        assert Less(Ids(tiMap)[n], Ids(tiMap)[k]);
        LessIsTransitive(item.id, tiMap[n].id, tiMap[k].id);
      }
    }
    forall i, j | 0 <= i < j < |grown|
      ensures Less(grown[i].id, grown[j].id) && grown[i] != grown[j]
    {
      var a, b := if i < n then i else i - 1, if j < n then j else j - 1;
      if i != n && j != n {
        assert Less(Ids(tiMap)[a], Ids(tiMap)[b]);
      }
      LessIsStrict(grown[i].id, grown[j].id);
    }
  }

  /** A group of single values, fixed when it is made. */
  class GroupItem {
    const id: string
    const cls: string
    const tiMap: seq<LeafItem>

    /** The members are different objects, in the order of their ids. */
    ghost predicate Valid() { Separate(tiMap) && Ascending(Ids(tiMap)) }

    ghost function View(): Item
      reads tiMap
    {
      Compound(id, cls, LeafViews(tiMap))
    }

    constructor (name: string, className: string, members: seq<LeafItem>)
      ensures View() == Compound(name, className, LeafViews(members)) && tiMap == members
    {
      id, cls, tiMap := name, className, members;
    }

    /** `buildJsonFromMap` */
    method GetJson() returns (js: Json)
      ensures js == ItemJson(View())
    {
      js := map["id" := JText(id)];
      for i := 0 to |tiMap|
        invariant LeavesMerged(js, LeafViews(tiMap[i..])) == ItemJson(View())
      {
        assert tiMap[i..][1..] == tiMap[i + 1..];
        js := js[tiMap[i].id := ToJson(tiMap[i].val)];
      }
    }

    /** `setMapFromJson` */
    method SetFromJson(js: Json, idExpected: bool) returns (outcome: Outcome)
      requires Valid()
      modifies tiMap
      ensures (View(), outcome) == ItemSet(old(View()), js, idExpected)
    {
      hide LeavesSet;
      if idExpected && "id" !in js {
        return Asserted;
      }
      if idExpected && js["id"] != JText(id) {
        return Failed;
      }
      outcome := SetMembers(js);
    }

    /** Goes on after a member that fails, stops at one that throws. */
    method SetMembers(js: Json) returns (outcome: Outcome)
      requires Valid()
      modifies tiMap
      ensures (LeafViews(tiMap), outcome) == LeavesSet(old(LeafViews(tiMap)), js)
    {
      hide LeafSet, LeavesSet, Separate, LeafViews, SetSoFar, Valid;
      ghost var before, done := LeafViews(tiMap), [];
      outcome := Done;
      NothingSetYet(before, js);
      for i := 0 to |tiMap|
        invariant outcome != Threw && |done| == i && SetSoFar(before, i, done, outcome, js)
        invariant LeafViews(tiMap) == done + before[i..]
      {
        SetOneMore(before, i, done, outcome, js);
        Replaced(before, i, done, LeafSet(before[i], js, false).0);
        var status := SetMember(i, js);
        done := done + [LeafSet(before[i], js, false).0];
        if status == Threw {
          return Threw;
        }
        if status != Done {
          outcome := Failed;
        }
      }
      assert before[|before|..] == [] && done + [] == done;
      AllSet(before, done, outcome, js);
    }

    /** Sets one member and no other. */
    method SetMember(i: nat, js: Json) returns (status: Outcome)
      requires Valid() && i < |tiMap|
      modifies tiMap
      ensures var (set_, outcome) := LeafSet(old(LeafViews(tiMap))[i], js, false);
              LeafViews(tiMap) == old(LeafViews(tiMap))[i := set_] && status == outcome
    {
      hide LeafSet, Separate;
      SeparateFrom(tiMap, i);
      status := tiMap[i].SetFromJson(js, false);
    }

    /** Whether `other` has a member with the id and value of `item`. */
    method HasEqual(item: LeafItem) returns (same: bool)
      ensures same == LeafMatched(item.View(), LeafViews(tiMap))
    {
      var n := FindMember(tiMap, item.id);
      if n == |tiMap| {
        return false;
      }
      same := tiMap[n].CompareItem(item);
    }

    /** `compareTelemetryItemMaps` on the members, for groups of the same class. */
    method CompareItem(other: GroupItem) returns (same: bool)
      ensures same == ItemEqual(View(), other.View())
    {
      hide LeafViews, LeafMatched;
      if cls != other.cls || |tiMap| != |other.tiMap| {
        return false;
      }
      ghost var mine, theirs := LeafViews(tiMap), LeafViews(other.tiMap);
      for i := 0 to |tiMap|
        invariant forall k | 0 <= k < i :: LeafMatched(mine[k], theirs)
      {
        var match_ := other.HasEqual(tiMap[i]);
        if !match_ {
          assert mine[i] in mine && !LeafMatched(mine[i], theirs);
          return false;
        }
      }
      return true;
    }
  }

  /** The groups of `items`, all of whose members are in `members`. */
  ghost function ItemViews(items: seq<GroupItem>, members: set<LeafItem>): (views: seq<Item>)
    requires forall i | i in items :: forall l | l in i.tiMap :: l in members
    reads members
    ensures |views| == |items| && forall i | 0 <= i < |items| :: views[i] == items[i].View()
  {
    if items == [] then [] else [items[0].View()] + ItemViews(items[1..], members)
  }

  /** A message arrives for one of many groups. */
  class TelemetryMap {
    const items: seq<GroupItem>
    ghost const members: set<LeafItem>

    /** No two groups share a member object. */
    ghost predicate Valid() {
      && (forall i | i in items :: i.Valid() && forall l | l in i.tiMap :: l in members)
      && forall i, j | 0 <= i < j < |items| :: Apart(items[i], items[j])
    }

    ghost function View(): seq<Item>
      requires Valid()
      reads members
    {
      ItemViews(items, members)
    }

    constructor (groups: seq<GroupItem>)
      requires forall i | i in groups :: i.Valid()
      requires forall i, j | 0 <= i < j < |groups| :: Apart(groups[i], groups[j])
      ensures items == groups && Valid()
    {
      items := groups;
      members := set i, l | i in groups && l in i.tiMap :: l;
    }

    /** The place of the group called `id`, or the number of groups. */
    method FindItem(id: string) returns (n: nat)
      requires Valid()
      ensures n == Find(View(), id)
    {
      ghost var views := View();
      n := 0;
      while n < |items| && items[n].id != id
        invariant n <= |items| && Find(views, id) == n + Find(views[n..], id)
      {
        assert views[n..][1..] == views[n + 1..];
        n := n + 1;
      }
    }

    /** `setItemFromJson` */
    method SetItemFromJson(js: Json) returns (outcome: Outcome)
      requires Valid()
      modifies members
      ensures (View(), outcome) == MapSet(old(View()), js)
    {
      hide ItemSet, Find, LeafViews, MapSet, ItemViews;
      NotNamed(View(), js);
      if "id" !in js {
        return Asserted;
      }
      if !js["id"].JText? {
        return Threw;
      }
      ghost var before := View();
      MapSetAt(before, js);
      var n := FindItem(js["id"].t);
      if n == |items| {
        return Failed;
      }
      outcome := items[n].SetFromJson(js, true);
      forall k | 0 <= k < |items| && k != n
        ensures items[k].View() == before[k]
      {
        assert if k < n then Apart(items[k], items[n]) else Apart(items[n], items[k]);
        ghost var sub := items[k].tiMap;
        forall j | 0 <= j < |sub|
          ensures sub[j].View() == before[k].leaves[j]
        {
          assert sub[j] in sub && sub[j] !in items[n].tiMap;
        }
        assert items[k].View().leaves == before[k].leaves;
      }
      assert View() == before[n := items[n].View()];
    }

    /** Whether the map has a group with the id of `item` that is equal to it. */
    method HasEqual(item: GroupItem) returns (same: bool)
      requires Valid()
      ensures same == ItemMatched(item.View(), View())
    {
      hide ItemEqual, Find, ItemViews;
      var n := FindItem(item.id);
      if n == |items| {
        return false;
      }
      same := item.CompareItem(items[n]);
    }

    /** `compareMaps`: walks this map only. */
    method CompareMaps(other: TelemetryMap) returns (same: bool)
      requires Valid() && other.Valid()
      ensures same == MapsEqual(View(), other.View())
    {
      hide ItemMatched, ItemViews;
      if |items| != |other.items| {
        return false;
      }
      ghost var mine, theirs := View(), other.View();
      for i := 0 to |items|
        invariant forall k | 0 <= k < i :: ItemMatched(mine[k], theirs)
      {
        assert mine[i] in mine;
        var match_ := other.HasEqual(items[i]);
        if !match_ {
          return false;
        }
      }
      return true;
    }
  }

  predicate Apart(a: GroupItem, b: GroupItem) { forall l | l in a.tiMap :: l !in b.tiMap }

  lemma NotNamed(items: seq<Item>, js: Json)
    ensures "id" !in js ==> MapSet(items, js) == (items, Asserted)
    ensures "id" in js && !js["id"].JText? ==> MapSet(items, js) == (items, Threw)
  {}

  lemma MapSetAt(items: seq<Item>, js: Json)
    requires "id" in js && js["id"].JText?
    ensures var n := Find(items, js["id"].t);
            MapSet(items, js) == if n == |items| then (items, Failed)
                                 else (items[n := ItemSet(items[n], js, true).0], ItemSet(items[n], js, true).1)
  {}

  lemma SeparateFrom(leaves: seq<LeafItem>, i: nat)
    requires Separate(leaves) && i < |leaves|
    ensures forall k | 0 <= k < |leaves| && k != i :: leaves[k] != leaves[i]
  {}

  /** The first `i` members have become `done`, with `outcome` so far. */
  predicate SetSoFar(leaves: seq<Leaf>, i: nat, done: seq<Leaf>, outcome: Outcome, js: Json)
    requires i <= |leaves|
  {
    var (rest, others) := LeavesSet(leaves[i..], js);
    LeavesSet(leaves, js) == (done + rest, if others == Done then outcome else others)
  }

  lemma NothingSetYet(leaves: seq<Leaf>, js: Json)
    ensures SetSoFar(leaves, 0, [], Done, js)
  {
    assert leaves[0..] == leaves && [] + LeavesSet(leaves, js).0 == LeavesSet(leaves, js).0;
  }

  lemma SetOneMore(leaves: seq<Leaf>, i: nat, done: seq<Leaf>, outcome: Outcome, js: Json)
    requires i < |leaves| && outcome != Threw && SetSoFar(leaves, i, done, outcome, js)
    ensures var (first, status) := LeafSet(leaves[i], js, false);
            if status == Threw then LeavesSet(leaves, js) == (done + [first] + leaves[i + 1..], Threw)
            else SetSoFar(leaves, i + 1, done + [first], if status == Done then outcome else Failed, js)
  {
    hide LeafSet;
    assert leaves[i..][1..] == leaves[i + 1..];
    var (first, status) := LeafSet(leaves[i], js, false);
    var rest := LeavesSet(leaves[i + 1..], js).0;
    assert done + ([first] + rest) == done + [first] + rest;
    assert done + ([first] + leaves[i + 1..]) == done + [first] + leaves[i + 1..];
    LeafOutcome(leaves[i], js);
  }

  /** Replacing the next of the members left. */
  lemma Replaced(before: seq<Leaf>, i: nat, done: seq<Leaf>, l: Leaf)
    requires |done| == i < |before|
    ensures (done + before[i..])[i] == before[i]
    ensures (done + before[i..])[i := l] == done + [l] + before[i + 1..]
  {}

  lemma LeafOutcome(l: Leaf, js: Json)
    ensures LeafSet(l, js, false).1 in {Done, Failed, Threw}
  {}

  lemma AllSet(leaves: seq<Leaf>, done: seq<Leaf>, outcome: Outcome, js: Json)
    requires SetSoFar(leaves, |leaves|, done, outcome, js)
    ensures LeavesSet(leaves, js) == (done, outcome)
  {
    assert leaves[|leaves|..] == [] && done + [] == done;
  }

  /** A group of the program lists each member once, as the theorems of `TelemetryLogic` ask. */
  lemma ValidIsProper(g: GroupItem)
    requires g.Valid()
    ensures Proper(g.View())
  {
    assert LeafIds(g.View().leaves) == Ids(g.tiMap);
    AscendingIsDistinct(g.View().leaves);
  }
}
