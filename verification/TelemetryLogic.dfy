/** Telemetry items, their flat JSON messages, and the comparison of maps of items. */
module TelemetryLogic {
  import opened Options

  /** The values of a C++ `int`. */
  type Int32 = n: int | -0x8000_0000 <= n < 0x8000_0000

  /** A value of an item. */
  datatype Value = Double(d: real) | Boolean(b: bool) | Text(t: string) | Doubles(ds: seq<real>) | Ints(ns: seq<Int32>)

  datatype Leaf = Leaf(id: string, val: Value)

  /** An item is a single value, or a named group of them. `cls` is the class that compares such groups.
      Groups and maps list their members in the order they are walked. */
  datatype Item = Single(leaf: Leaf) | Compound(id: string, cls: string, leaves: seq<Leaf>)

  function IdOf(i: Item): string { if i.Single? then i.leaf.id else i.id }

  predicate SameKind(v: Value, w: Value) {
    match v
    case Double(_) => w.Double?
    case Boolean(_) => w.Boolean?
    case Text(_) => w.Text?
    case Doubles(ds) => w.Doubles?
    case Ints(ns) => w.Ints?
  }

  /** Vectors have a fixed length. */
  predicate SameSize(v: Value, w: Value)
    requires SameKind(v, w)
  {
    match v
    case Doubles(ds) => |ds| == |w.ds|
    case Ints(ns) => |ns| == |w.ns|
    case _ => true
  }

  // ---- JSON values ----

  datatype JsonValue =
    | JInt(n: int) | JFloat(x: real) | JBool(b: bool) | JText(t: string)
    | JArray(elems: seq<JsonValue>)

  /** A flat JSON object. */
  type Json = map<string, JsonValue>

  function ToJson(v: Value): JsonValue {
    match v
    case Double(d) => JFloat(d)
    case Boolean(b) => JBool(b)
    case Text(t) => JText(t)
    case Doubles(ds) => JArray(seq(|ds|, i requires 0 <= i < |ds| => JFloat(ds[i])))
    case Ints(ns) => JArray(seq(|ns|, i requires 0 <= i < |ns| => JInt(ns[i])))
  }

  /** The conversions of the JSON library: any number is a double; any number or truth value an int. */
  function AsDouble(j: JsonValue): Option<real> {
    match j
    case JInt(n) => Some(n as real)
    case JFloat(x) => Some(x)
    case _ => None
  }

  function AsInt(j: JsonValue): Option<Int32> {
    match j
    case JInt(n) => Some(Wrapped(n))
    case JFloat(x) => Some(Wrapped(Truncated(x)))
    case JBool(b) => Some(if b then 1 else 0)
    case _ => None
  }

  /** The low 32 bits, as a signed number. */
  function Wrapped(n: int): Int32 { (n + 0x8000_0000) % 0x1_0000_0000 - 0x8000_0000 }

  function Truncated(x: real): int { if x >= 0.0 then x.Floor else -(-x).Floor }

  function AsDoubles(js: seq<JsonValue>): Option<seq<real>> {
    if js == [] then Some([])
    else if AsDouble(js[0]).None? || AsDoubles(js[1..]).None? then None
    else Some([AsDouble(js[0]).value] + AsDoubles(js[1..]).value)
  }

  function AsInts(js: seq<JsonValue>): Option<seq<Int32>> {
    if js == [] then Some([])
    else if AsInt(js[0]).None? || AsInts(js[1..]).None? then None
    else Some([AsInt(js[0]).value] + AsInts(js[1..]).value)
  }

  /** `j` read as a value of the kind of `like`, or nothing when the library throws. */
  function FromJson(like: Value, j: JsonValue): (v: Option<Value>)
    ensures v.Some? ==> SameKind(like, v.value)
  {
    match (like, j)
    case (Double(_), _) => if AsDouble(j).Some? then Some(Double(AsDouble(j).value)) else None
    case (Boolean(_), JBool(b)) => Some(Boolean(b))
    case (Text(_), JText(t)) => Some(Text(t))
    case (Doubles(_), JArray(elems)) =>
      if AsDoubles(elems).Some? then Some(Doubles(AsDoubles(elems).value)) else None
    case (Ints(_), JArray(elems)) => if AsInts(elems).Some? then Some(Ints(AsInts(elems).value)) else None
    case _ => None
  }

  lemma {:induction false} DoublesReadBack(ds: seq<real>)
    ensures AsDoubles(seq(|ds|, i requires 0 <= i < |ds| => JFloat(ds[i]))) == Some(ds)
  {
    var js := seq(|ds|, i requires 0 <= i < |ds| => JFloat(ds[i]));
    if ds != [] {
      var rest := ds[1..];
      DoublesReadBack(rest);
      assert js[1..] == seq(|rest|, i requires 0 <= i < |rest| => JFloat(rest[i]));
      assert ds == [ds[0]] + rest;
    }
  }

  lemma {:induction false} IntsReadBack(ns: seq<Int32>)
    ensures AsInts(seq(|ns|, i requires 0 <= i < |ns| => JInt(ns[i]))) == Some(ns)
  {
    var js := seq(|ns|, i requires 0 <= i < |ns| => JInt(ns[i]));
    if ns != [] {
      var rest := ns[1..];
      IntsReadBack(rest);
      assert js[1..] == seq(|rest|, i requires 0 <= i < |rest| => JInt(rest[i]));
      assert ns == [ns[0]] + rest;
    }
  }

  /** Every value reads back as itself, as a value of its own kind. */
  lemma ValueReadsBack(like: Value, v: Value)
    requires SameKind(like, v)
    ensures FromJson(like, ToJson(v)) == Some(v)
  {
    match v {
      case Doubles(ds) => DoublesReadBack(ds);
      case Ints(ns) => IntsReadBack(ns);
      case _ =>
    }
  }

  predicate IsNumber(j: JsonValue) { j.JInt? || j.JFloat? }

  /** Which JSON values can be read for a value: numbers for a double, truth values and strings for their own
      kind, arrays of numbers for doubles, arrays of numbers and truth values for integers. */
  lemma {:induction false} ReadableIff(like: Value, j: JsonValue)
    ensures FromJson(like, j).Some? <==>
            match like
            case Double(_) => IsNumber(j)
            case Boolean(_) => j.JBool?
            case Text(_) => j.JText?
            case Doubles(_) => j.JArray? && forall e | e in j.elems :: IsNumber(e)
            case Ints(_) => j.JArray? && forall e | e in j.elems :: IsNumber(e) || e.JBool?
  {
    if j.JArray? { ArraysReadable(j.elems); }
  }

  lemma {:induction false} ArraysReadable(js: seq<JsonValue>)
    ensures AsDoubles(js).Some? <==> forall e | e in js :: IsNumber(e)
    ensures AsInts(js).Some? <==> forall e | e in js :: IsNumber(e) || e.JBool?
    ensures AsDoubles(js).Some? ==> |AsDoubles(js).value| == |js|
    ensures AsInts(js).Some? ==> |AsInts(js).value| == |js|
  {
    if js != [] {
      var rest := js[1..];
      ArraysReadable(rest);
      assert forall e | e in rest :: e in js;
      assert forall e | e in js :: e == js[0] || e in rest;
      assert js[0] in js;
    }
  }

  /** Numbers of the other kind: an integer is read for a double as it is; for an integer a fraction loses what is
      behind its point, anything beyond 32 bits wraps, and a truth value is 1 or 0. */
  lemma NumbersConvert(n: int, x: real, b: bool)
    ensures AsDouble(JInt(n)) == Some(n as real) && AsDouble(JFloat(x)) == Some(x)
    ensures var r := AsInt(JInt(n));
            && r.Some? && (exists k: int :: n - r.value == 0x1_0000_0000 * k)
            && (-0x8000_0000 <= n < 0x8000_0000 ==> r.value == n)
    ensures var t := Truncated(x);
            && (if x >= 0.0 then t as real <= x < (t + 1) as real else (t - 1) as real < x <= t as real)
            && AsInt(JFloat(x)) == AsInt(JInt(t))
    ensures AsInt(JBool(b)) == Some(if b then 1 else 0)
  {
    assert n - Wrapped(n) == 0x1_0000_0000 * ((n + 0x8000_0000) / 0x1_0000_0000);
  }

  // ---- To JSON ----

  function LeavesMerged(js: Json, leaves: seq<Leaf>): Json
    decreases |leaves|
  {
    if leaves == [] then js else LeavesMerged(js[leaves[0].id := ToJson(leaves[0].val)], leaves[1..])
  }

  /** `getJson`: a group writes its own id first, so a member called "id" replaces it. */
  function ItemJson(i: Item): Json {
    if i.Single? then map[i.leaf.id := ToJson(i.leaf.val)] else LeavesMerged(map["id" := JText(i.id)], i.leaves)
  }

  // ---- From JSON ----

  /** A value of the wrong kind throws an exception that nothing here catches; the "id" entry is looked up
      unchecked, which the JSON library asserts. */
  datatype Outcome = Done | Failed | Threw | Asserted

  /** `setFromJson` of a single value, which can never be addressed by its own id. */
  function LeafSet(l: Leaf, js: Json, idExpected: bool): (Leaf, Outcome) {
    if idExpected || l.id !in js then (l, Failed)
    else
      var v := FromJson(l.val, js[l.id]);
      if v.None? then (l, Threw)
      else if !SameSize(l.val, v.value) then (l, Failed)
      else (l.(val := v.value), Done)
  }

  /** Every member that can be set is set, unless one throws. */
  function LeavesSet(leaves: seq<Leaf>, js: Json): (seq<Leaf>, Outcome) {
    if leaves == [] then ([], Done)
    else
      var (first, outcome) := LeafSet(leaves[0], js, false);
      if outcome == Threw then ([first] + leaves[1..], Threw)
      else
        var (rest, others) := LeavesSet(leaves[1..], js);
        ([first] + rest, if others == Done then outcome else others)
  }

  /** What setting one member comes to: nothing without an entry, an exception for one that cannot be read, a
      failure for a vector of another length, and otherwise its new value. */
  lemma LeafSetIs(l: Leaf, js: Json)
    ensures var (m, outcome) := LeafSet(l, js, false);
            && m.id == l.id && (outcome != Done ==> m == l)
            && (outcome == Failed <==> l.id !in js || (FromJson(l.val, js[l.id]).Some?
                                                       && !SameSize(l.val, FromJson(l.val, js[l.id]).value)))
            && (outcome == Threw <==> l.id in js && FromJson(l.val, js[l.id]).None?)
            && (outcome == Done ==> l.id in js && FromJson(l.val, js[l.id]) == Some(m.val))
            && outcome != Asserted
    ensures LeafSet(l, js, true) == (l, Failed)
  {}

  /** A vector keeps its length: one of another length is refused, one of its own is taken whole. */
  lemma VectorsKeepLength(l: Leaf, js: Json)
    ensures var m, outcome := LeafSet(l, js, false).0.val, LeafSet(l, js, false).1;
            && (l.val.Doubles? ==> m.Doubles? && |m.ds| == |l.val.ds|)
            && (l.val.Ints? ==> m.Ints? && |m.ns| == |l.val.ns|)
            && (l.val.Doubles? && l.id in js && js[l.id].JArray? && AsDoubles(js[l.id].elems).Some? ==>
                  (outcome == Done <==> |js[l.id].elems| == |l.val.ds|))
            && (l.val.Ints? && l.id in js && js[l.id].JArray? && AsInts(js[l.id].elems).Some? ==>
                  (outcome == Done <==> |js[l.id].elems| == |l.val.ns|))
            && (!l.val.Doubles? && !l.val.Ints? && l.id in js ==> outcome != Failed)
  {
    if l.id in js && js[l.id].JArray? { ArraysReadable(js[l.id].elems); }
  }

  /** The first member that throws, or the number of members. */
  function FirstThrow(leaves: seq<Leaf>, js: Json): (n: nat)
    ensures n <= |leaves| && forall k | 0 <= k < n :: LeafSet(leaves[k], js, false).1 != Threw
    ensures n < |leaves| ==> LeafSet(leaves[n], js, false).1 == Threw
  {
    if leaves == [] || LeafSet(leaves[0], js, false).1 == Threw then 0 else 1 + FirstThrow(leaves[1..], js)
  }

  lemma {:induction false} MemberSet(leaves: seq<Leaf>, js: Json, k: nat)
    requires k < |leaves|
    ensures var set_ := LeavesSet(leaves, js).0;
            && |set_| == |leaves|
            && set_[k] == if k < FirstThrow(leaves, js) then LeafSet(leaves[k], js, false).0 else leaves[k]
  {
    hide LeafSet;
    LeafSetIs(leaves[0], js);
    if k > 0 {
      MemberSet(leaves[1..], js, k - 1);
    } else if leaves[1..] != [] {
      MemberSet(leaves[1..], js, 0);
    }
  }

  lemma {:induction false} MembersOutcome(leaves: seq<Leaf>, js: Json)
    ensures var (set_, outcome) := LeavesSet(leaves, js);
            && |set_| == |leaves| && outcome != Asserted
            && (outcome == Threw <==> FirstThrow(leaves, js) < |leaves|)
            && (outcome == Done <==> forall l | l in leaves :: LeafSet(l, js, false).1 == Done)
  {
    hide LeafSet;
    if leaves != [] {
      LeafSetIs(leaves[0], js);
      var rest := leaves[1..];
      MembersOutcome(rest, js);
      assert leaves == [leaves[0]] + rest;
    }
  }

  /** Every member before the first that throws is set on its own, whatever the others come to; those from there
      on stay as they were. The whole succeeds exactly when every member does. */
  lemma LeavesSetIs(leaves: seq<Leaf>, js: Json)
    ensures var (set_, outcome) := LeavesSet(leaves, js);
            var n := FirstThrow(leaves, js);
            && |set_| == |leaves|
            && (forall k | 0 <= k < n :: set_[k] == LeafSet(leaves[k], js, false).0)
            && (forall k | n <= k < |leaves| :: set_[k] == leaves[k])
            && (outcome == Threw <==> n < |leaves|)
            && (outcome == Done <==> forall l | l in leaves :: LeafSet(l, js, false).1 == Done)
            && outcome != Asserted
  {
    hide LeafSet, LeavesSet;
    MembersOutcome(leaves, js);
    forall k | 0 <= k < |leaves|
      ensures LeavesSet(leaves, js).0[k] ==
              if k < FirstThrow(leaves, js) then LeafSet(leaves[k], js, false).0 else leaves[k]
    {
      MemberSet(leaves, js, k);
    }
  }

  function ItemSet(i: Item, js: Json, idExpected: bool): (Item, Outcome) {
    match i
    case Single(leaf) =>
      var (l, outcome) := LeafSet(leaf, js, idExpected);
      (Single(l), outcome)
    case Compound(id, cls, leaves) =>
      if idExpected && "id" !in js then (i, Asserted)
      else if idExpected && js["id"] != JText(id) then (i, Failed)
      else
        var (ls, outcome) := LeavesSet(leaves, js);
        (Compound(id, cls, ls), outcome)
  }

  /** The place of the item called `id`, or the number of items. */
  function Find(items: seq<Item>, id: string): (n: nat)
    ensures n <= |items| && (forall k | 0 <= k < n :: IdOf(items[k]) != id)
    ensures n < |items| ==> IdOf(items[n]) == id
  {
    if items == [] || IdOf(items[0]) == id then 0 else 1 + Find(items[1..], id)
  }

  /** `setItemFromJson`: the message names its item. */
  function MapSet(items: seq<Item>, js: Json): (seq<Item>, Outcome) {
    if "id" !in js then (items, Asserted)
    else if !js["id"].JText? then (items, Threw)
    else
      var n := Find(items, js["id"].t);
      if n == |items| then (items, Failed)
      else
        var (i, outcome) := ItemSet(items[n], js, true);
        (items[n := i], outcome)
  }

  /** Setting a group: with its id expected, a message without an id or with another one changes nothing; otherwise
      the group comes to what its members do. */
  lemma GroupSetIs(i: Item, js: Json, idExpected: bool)
    requires i.Compound?
    ensures var (g, outcome) := ItemSet(i, js, idExpected);
            if idExpected && "id" !in js then g == i && outcome == Asserted
            else if idExpected && js["id"] != JText(i.id) then g == i && outcome == Failed
            else g == i.(leaves := LeavesSet(i.leaves, js).0) && outcome == LeavesSet(i.leaves, js).1
  {
    LeavesSetIs(i.leaves, js);
  }

  /** A message changes at most the item it names. Without an "id" the library asserts, one that is no string
      throws, and an item that is not there is a failure; a group that is there comes to what its members do. */
  lemma MessageIs(items: seq<Item>, js: Json, k: nat)
    requires k < |items|
    ensures var (after, outcome) := MapSet(items, js);
            && |after| == |items|
            && (after[k] != items[k] ==> "id" in js && js["id"] == JText(IdOf(items[k])))
            && (outcome == Asserted <==> "id" !in js)
            && ("id" in js && !js["id"].JText? ==> outcome == Threw)
            && ("id" in js && js["id"].JText? && (forall i | i in items :: IdOf(i) != js["id"].t) ==> outcome == Failed)
            && ("id" in js && js["id"] == JText(IdOf(items[k])) && items[k].Compound?
                && (forall i | 0 <= i < k :: IdOf(items[i]) != IdOf(items[k])) ==>
                  && after[k] == items[k].(leaves := LeavesSet(items[k].leaves, js).0)
                  && outcome == LeavesSet(items[k].leaves, js).1)
  {
    if "id" in js && js["id"].JText? {
      var n := Find(items, js["id"].t);
      if n < |items| {
        assert items[n] in items;
        if items[n].Compound? { LeavesSetIs(items[n].leaves, js); }
      }
    }
  }

  // ---- Comparison ----

  function FindLeaf(leaves: seq<Leaf>, id: string): (n: nat)
    ensures n <= |leaves| && (forall k | 0 <= k < n :: leaves[k].id != id)
    ensures n < |leaves| ==> leaves[n].id == id
  {
    if leaves == [] || leaves[0].id == id then 0 else 1 + FindLeaf(leaves[1..], id)
  }

  predicate LeafMatched(l: Leaf, leaves: seq<Leaf>) {
    FindLeaf(leaves, l.id) < |leaves| && leaves[FindLeaf(leaves, l.id)] == l
  }

  /** Same number, and every member of `a` has its equal in `b`; `b` is not walked. */
  predicate LeavesEqual(a: seq<Leaf>, b: seq<Leaf>) {
    |a| == |b| && forall l | l in a :: LeafMatched(l, b)
  }

  /** Groups are compared by class and members: their own ids are not looked at. */
  predicate ItemEqual(x: Item, y: Item) {
    match x
    case Single(l) => y == x
    case Compound(_, cls, leaves) => y.Compound? && y.cls == cls && LeavesEqual(leaves, y.leaves)
  }

  predicate ItemMatched(x: Item, items: seq<Item>) {
    Find(items, IdOf(x)) < |items| && ItemEqual(x, items[Find(items, IdOf(x))])
  }

  predicate MapsEqual(a: seq<Item>, b: seq<Item>) {
    |a| == |b| && forall x | x in a :: ItemMatched(x, b)
  }

  // ---- Members are listed once ----

  predicate DistinctLeaves(leaves: seq<Leaf>) { forall i, j | 0 <= i < j < |leaves| :: leaves[i].id != leaves[j].id }

  predicate Proper(i: Item) { i.Compound? ==> DistinctLeaves(i.leaves) }

  predicate ProperMap(items: seq<Item>) {
    && (forall i, j | 0 <= i < j < |items| :: IdOf(items[i]) != IdOf(items[j]))
    && forall i | 0 <= i < |items| :: Proper(items[i])
  }

  // ---- The comparison is symmetric ----

  /** Distinct elements of a list that all occur in a list no longer than it exhaust that list. */
  lemma {:induction false} Pigeonhole(a: seq<string>, b: seq<string>)
    requires |a| >= |b| && (forall i, j | 0 <= i < j < |a| :: a[i] != a[j])
    requires forall x | x in a :: x in b
    ensures forall x | x in b :: x in a
    ensures |a| == |b|
    decreases |a|
  {
    if a != [] {
      assert a[0] in a;
      var k :| 0 <= k < |b| && b[k] == a[0];
      var b1 := b[..k] + b[k + 1..];
      forall x | x in a[1..]
        ensures x in b1
      {
        var i :| 0 <= i < |a[1..]| && a[1..][i] == x;
        assert a[i + 1] == x && x != a[0] && x in a;
        var m :| 0 <= m < |b| && b[m] == x;
        if m < k { assert b1[m] == x; } else { assert b1[m - 1] == x; }
      }
      Pigeonhole(a[1..], b1);
      forall x | x in b
        ensures x in a
      {
        var m :| 0 <= m < |b| && b[m] == x;
        if m < k { assert b1[m] == x; } else if m > k { assert b1[m - 1] == x; }
        assert m != k ==> x in a[1..];
      }
    }
  }

  function LeafIds(leaves: seq<Leaf>): seq<string> { seq(|leaves|, i requires 0 <= i < |leaves| => leaves[i].id) }
  function ItemIds(items: seq<Item>): seq<string> { seq(|items|, i requires 0 <= i < |items| => IdOf(items[i])) }

  /** Groups compare equal exactly when they have the same members, in whatever order. */
  lemma LeavesEqualIff(a: seq<Leaf>, b: seq<Leaf>)
    requires DistinctLeaves(a) && DistinctLeaves(b)
    ensures LeavesEqual(a, b) <==> (forall l :: l in a <==> l in b)
    ensures LeavesEqual(a, b) <==> LeavesEqual(b, a)
  {
    if LeavesEqual(a, b) { EqualLeavesAreSame(a, b); SameLeavesAreEqual(b, a); }
    if LeavesEqual(b, a) { EqualLeavesAreSame(b, a); SameLeavesAreEqual(a, b); }
    if forall l :: l in a <==> l in b { SameLeavesAreEqual(a, b); }
  }

  lemma EqualLeavesAreSame(a: seq<Leaf>, b: seq<Leaf>)
    requires DistinctLeaves(a) && DistinctLeaves(b) && LeavesEqual(a, b)
    ensures forall l :: l in a <==> l in b
  {
    var as_, bs := LeafIds(a), LeafIds(b);
    forall x | x in as_
      ensures x in bs
    {
      var i :| 0 <= i < |as_| && as_[i] == x;
      assert LeafMatched(a[i], b);
      assert bs[FindLeaf(b, x)] == x;
    }
    Pigeonhole(as_, bs);
    forall l | l in b
      ensures l in a
    {
      var j :| 0 <= j < |b| && b[j] == l;
      assert bs[j] in as_;
      var i :| 0 <= i < |as_| && as_[i] == l.id;
      assert LeafMatched(a[i], b);
    }
  }

  lemma SameLeavesAreEqual(a: seq<Leaf>, b: seq<Leaf>)
    requires DistinctLeaves(a) && DistinctLeaves(b) && forall l :: l in a <==> l in b
    ensures LeavesEqual(a, b)
  {
    var as_, bs := LeafIds(a), LeafIds(b);
    forall x | x in as_
      ensures x in bs
    {
      var i :| 0 <= i < |as_| && as_[i] == x;
      assert a[i] in b;
      var j :| 0 <= j < |b| && b[j] == a[i];
      assert bs[j] == x;
    }
    forall x | x in bs
      ensures x in as_
    {
      var j :| 0 <= j < |bs| && bs[j] == x;
      assert b[j] in a;
      var i :| 0 <= i < |a| && a[i] == b[j];
      assert as_[i] == x;
    }
    if |a| >= |b| { Pigeonhole(as_, bs); } else { Pigeonhole(bs, as_); }
    forall l | l in a
      ensures LeafMatched(l, b)
    {
      assert l in b;
      var j :| 0 <= j < |b| && b[j] == l;
      assert FindLeaf(b, l.id) == j;
    }
  }

  lemma ItemEqualIsSymmetric(x: Item, y: Item)
    requires Proper(x) && Proper(y)
    ensures ItemEqual(x, y) <==> ItemEqual(y, x)
  {
    if x.Compound? && y.Compound? { LeavesEqualIff(x.leaves, y.leaves); }
  }

  /** The comparison of two maps walks only one of them, and still is symmetric. */
  lemma MapsEqualIsSymmetric(a: seq<Item>, b: seq<Item>)
    requires ProperMap(a) && ProperMap(b)
    ensures MapsEqual(a, b) <==> MapsEqual(b, a)
  {
    if MapsEqual(a, b) { MapsEqualTurned(a, b); }
    if MapsEqual(b, a) { MapsEqualTurned(b, a); }
  }

  lemma MapsEqualTurned(a: seq<Item>, b: seq<Item>)
    requires ProperMap(a) && ProperMap(b) && MapsEqual(a, b)
    ensures MapsEqual(b, a)
  {
    hide ItemEqual, Proper;
    var as_, bs := ItemIds(a), ItemIds(b);
    forall x | x in as_
      ensures x in bs
    {
      var i :| 0 <= i < |as_| && as_[i] == x;
      assert a[i] in a && ItemMatched(a[i], b);
      assert bs[Find(b, x)] == x;
    }
    Pigeonhole(as_, bs);
    forall y | y in b
      ensures ItemMatched(y, a)
    {
      var j :| 0 <= j < |b| && b[j] == y;
      assert bs[j] in as_;
      var i :| 0 <= i < |as_| && as_[i] == IdOf(y);
      assert a[i] in a && ItemMatched(a[i], b);
      assert Find(b, IdOf(y)) == j && Find(a, IdOf(y)) == i;
      ItemEqualIsSymmetric(a[i], y);
    }
  }

  ghost predicate SameMembers(x: Item, y: Item)
    requires x.Compound? && y.Compound?
  {
    forall l :: l in x.leaves <==> l in y.leaves
  }

  /** What the comparison of groups is documented to answer: same id and values. */
  ghost predicate SameGroup(x: Item, y: Item)
    requires x.Compound? && y.Compound?
  {
    x.id == y.id && x.cls == y.cls && SameMembers(x, y)
  }

  /** The comparison of groups answers whether they have the same id and values exactly unless only their
      ids differ: it does not look at those. */
  lemma GroupsComparedIff(x: Item, y: Item)
    requires x.Compound? && y.Compound? && Proper(x) && Proper(y)
    ensures (ItemEqual(x, y) <==> SameGroup(x, y)) <==> !(x.id != y.id && x.cls == y.cls && SameMembers(x, y))
  {
    LeavesEqualIff(x.leaves, y.leaves);
  }

  /** A power status and a raw power status with the same four values compare equal. */
  lemma StatusesCompareEqual(motorV: real, motorI: real, commV: real, commI: real)
    ensures var leaves := [Leaf("commCurrent", Double(commI)), Leaf("commVoltage", Double(commV)),
                           Leaf("motorCurrent", Double(motorI)), Leaf("motorVoltage", Double(motorV))];
            var x := Compound("powerStatus", "TItemPowerStatusBase", leaves);
            var y := Compound("powerStatusRaw", "TItemPowerStatusBase", leaves);
            Proper(x) && Proper(y) && ItemEqual(x, y) && !SameGroup(x, y)
  {
    var leaves := [Leaf("commCurrent", Double(commI)), Leaf("commVoltage", Double(commV)),
                   Leaf("motorCurrent", Double(motorI)), Leaf("motorVoltage", Double(motorV))];
    assert DistinctLeaves(leaves) by { FourNames(); }
    LeavesEqualIff(leaves, leaves);
    assert |"powerStatus"| != |"powerStatusRaw"|;
  }

  lemma FourNames()
    ensures "commCurrent" != "commVoltage" && "commCurrent" != "motorCurrent" && "commCurrent" != "motorVoltage"
    ensures "commVoltage" != "motorCurrent" && "commVoltage" != "motorVoltage" && "motorCurrent" != "motorVoltage"
  {
    assert "commCurrent"[4] != "commVoltage"[4] && "commCurrent"[0] != "motorCurrent"[0];
    assert "commCurrent"[0] != "motorVoltage"[0] && "motorCurrent"[5] != "motorVoltage"[5];
  }

  // ---- Round trip ----

  /** `d` could have been made by the same definition as `c`. */
  predicate SameShape(c: Item, d: Item) {
    match c
    case Single(l) => d.Single? && d.leaf.id == l.id && SameKind(l.val, d.leaf.val) && SameSize(l.val, d.leaf.val)
    case Compound(id, cls, leaves) =>
      && d.Compound? && d.id == id && d.cls == cls && |d.leaves| == |leaves|
      && forall k | 0 <= k < |leaves| :: SameLeafShape(leaves[k], d.leaves[k])
  }

  predicate SameLeafShape(l: Leaf, m: Leaf) {
    m.id == l.id && SameKind(l.val, m.val) && SameSize(l.val, m.val)
  }

  /** The message of the item still names the item: no member called "id" says otherwise. */
  predicate NamesItself(i: Item) {
    i.Compound? && forall l | l in i.leaves && l.id == "id" :: l.val == Text(i.id)
  }

  lemma {:induction false} LeavesMergedHas(js: Json, leaves: seq<Leaf>, id: string)
    requires DistinctLeaves(leaves)
    ensures var m := LeavesMerged(js, leaves);
            var n := FindLeaf(leaves, id);
            && (id in m <==> id in js || n < |leaves|)
            && (id in m ==> m[id] == if n < |leaves| then ToJson(leaves[n].val) else js[id])
    decreases |leaves|
  {
    if leaves != [] {
      LeavesMergedHas(js[leaves[0].id := ToJson(leaves[0].val)], leaves[1..], id);
    }
  }

  lemma {:induction false} LeavesReadBack(leaves: seq<Leaf>, js: Json, other: seq<Leaf>)
    requires |leaves| == |other| && forall k | 0 <= k < |leaves| :: SameLeafShape(leaves[k], other[k])
    requires forall k | 0 <= k < |other| :: other[k].id in js && js[other[k].id] == ToJson(other[k].val)
    ensures LeavesSet(leaves, js) == (other, Done)
  {
    if leaves != [] {
      assert SameLeafShape(leaves[0], other[0]);
      ValueReadsBack(leaves[0].val, other[0].val);
      LeavesReadBack(leaves[1..], js, other[1..]);
      assert other == [other[0]] + other[1..];
    }
  }

  /** The message of a single value holds that value under its own id and nothing else, and two single values
      compare equal exactly when their ids and values are. */
  lemma SingleIs(l: Leaf, y: Item)
    ensures l.id in ItemJson(Single(l)) && FromJson(l.val, ItemJson(Single(l))[l.id]) == Some(l.val)
    ensures forall id | id in ItemJson(Single(l)) :: id == l.id
    ensures ItemEqual(Single(l), y) <==> y.Single? && y.leaf.id == l.id && y.leaf.val == l.val
  {
    assert SameKind(l.val, l.val);
    ValueReadsBack(l.val, l.val);
  }

  lemma JsonOf(d: Item)
    requires d.Compound? && DistinctLeaves(d.leaves)
    ensures "id" in ItemJson(d)
    ensures ItemJson(d)["id"] == JText(d.id) <==> NamesItself(d)
    ensures forall k | 0 <= k < |d.leaves| ::
              d.leaves[k].id in ItemJson(d) && ItemJson(d)[d.leaves[k].id] == ToJson(d.leaves[k].val)
  {
    var js := ItemJson(d);
    LeavesMergedHas(map["id" := JText(d.id)], d.leaves, "id");
    var n := FindLeaf(d.leaves, "id");
    if n < |d.leaves| {
      assert d.leaves[n] in d.leaves;
      assert ToJson(d.leaves[n].val) == JText(d.id) <==> d.leaves[n].val == Text(d.id);
    }
    forall k | 0 <= k < |d.leaves|
      ensures d.leaves[k].id in js && js[d.leaves[k].id] == ToJson(d.leaves[k].val)
    {
      LeavesMergedHas(map["id" := JText(d.id)], d.leaves, d.leaves[k].id);
      assert FindLeaf(d.leaves, d.leaves[k].id) == k;
    }
  }

  /** Setting the item at `n` from the message of another item of its shape succeeds, makes it that item
      and changes no other, if and only if the message names the item. */
  lemma SetFromOtherIff(items: seq<Item>, n: nat, d: Item)
    requires ProperMap(items) && n < |items| && items[n].Compound? && SameShape(items[n], d) && Proper(d)
    ensures NamesItself(d) ==> MapSet(items, ItemJson(d)) == (items[n := d], Done)
    ensures items[n] != d ==> (MapSet(items, ItemJson(d)) == (items[n := d], Done) <==> NamesItself(d))
    ensures ItemEqual(items[n := d][n], d) && ItemEqual(d, items[n := d][n])
  {
    JsonOf(d);
    var js := ItemJson(d);
    LeavesEqualIff(d.leaves, d.leaves);
    if NamesItself(d) {
      assert Find(items, d.id) == n;
      LeavesReadBack(items[n].leaves, js, d.leaves);
    } else {
      assert MapSet(items, js).0[n] == items[n];
    }
  }

  /** A message for a single value at the top of a map is always refused. */
  lemma SingleIsRefused(items: seq<Item>, js: Json)
    requires "id" in js && js["id"].JText?
    requires Find(items, js["id"].t) < |items| ==> items[Find(items, js["id"].t)].Single?
    ensures MapSet(items, js) == (items, Failed)
  {
    var n := Find(items, js["id"].t);
    if n < |items| { assert items[n := items[n]] == items; }
  }

  /** Replay in order the messages of `others` from the `n`th on. */
  function Replayed(items: seq<Item>, others: seq<Item>, n: nat): seq<Item>
    requires n <= |others|
    decreases |others| - n
  {
    if n == |others| then items else Replayed(MapSet(items, ItemJson(others[n])).0, others, n + 1)
  }

  predicate SameShapes(a: seq<Item>, b: seq<Item>) {
    |a| == |b| && forall k | 0 <= k < |a| :: SameShape(a[k], b[k])
  }

  /** Replaying every message of a map of the same shape makes the maps equal. */
  lemma ReplayMakesEqual(items: seq<Item>, others: seq<Item>)
    requires ProperMap(items) && ProperMap(others) && SameShapes(items, others)
    requires forall d | d in others :: NamesItself(d)
    ensures Replayed(items, others, 0) == others
    ensures MapsEqual(Replayed(items, others, 0), others)
  {
    assert items == others[..0] + items[0..];
    ReplayFrom(items, others, 0, items);
    EqualToItself(others);
  }

  lemma EqualToItself(items: seq<Item>)
    requires ProperMap(items)
    ensures MapsEqual(items, items)
  {
    forall x | x in items
      ensures ItemMatched(x, items)
    {
      var i :| 0 <= i < |items| && items[i] == x;
      assert Find(items, IdOf(x)) == i;
      if x.Compound? { LeavesEqualIff(x.leaves, x.leaves); }
    }
  }

  lemma {:induction false} ReplayFrom(start: seq<Item>, others: seq<Item>, n: nat, items: seq<Item>)
    requires ProperMap(start) && ProperMap(others) && SameShapes(start, others)
    requires forall d | d in others :: NamesItself(d)
    requires n <= |others| && items == others[..n] + start[n..]
    ensures Replayed(items, others, n) == others
    decreases |others| - n
  {
    hide MapSet, ItemJson, ItemEqual, Proper;
    if n < |others| {
      MixedIsProper(start, others, n);
      assert others[n] in others && NamesItself(others[n]);
      assert items[n] == start[n] && SameShape(items[n], others[n]);
      SetFromOtherIff(items, n, others[n]);
      assert items[n := others[n]] == others[..n + 1] + start[n + 1..];
      ReplayFrom(start, others, n + 1, items[n := others[n]]);
    }
  }

  lemma MixedIsProper(start: seq<Item>, others: seq<Item>, n: nat)
    requires ProperMap(start) && ProperMap(others) && SameShapes(start, others) && n <= |others|
    ensures ProperMap(others[..n] + start[n..])
  {
    hide Proper;
    var items := others[..n] + start[n..];
    forall k | 0 <= k < |items|
      ensures IdOf(items[k]) == IdOf(start[k]) && Proper(items[k])
    {
      assert SameShape(start[k], others[k]);
    }
  }

  // ---- The order of the members ----

  /** Strings in the order of the program's maps. */
  predicate Less(a: string, b: string) {
    b != "" && (a == "" || a[0] < b[0] || (a[0] == b[0] && Less(a[1..], b[1..])))
  }

  lemma {:induction false} LessIsStrict(a: string, b: string)
    ensures !(Less(a, b) && Less(b, a)) && (Less(a, b) || Less(b, a) || a == b)
    ensures a == b ==> !Less(a, b)
  {
    if a != "" && b != "" && a[0] == b[0] {
      LessIsStrict(a[1..], b[1..]);
      assert a == [a[0]] + a[1..] && b == [b[0]] + b[1..];
    }
  }

  lemma {:induction false} LessIsTransitive(a: string, b: string, c: string)
    requires Less(a, b) && Less(b, c)
    ensures Less(a, c)
  {
    if a != "" && a[0] == b[0] && b[0] == c[0] { LessIsTransitive(a[1..], b[1..], c[1..]); }
  }

  predicate Ascending(ids: seq<string>) { forall i, j | 0 <= i < j < |ids| :: Less(ids[i], ids[j]) }

  lemma AscendingIsDistinct(leaves: seq<Leaf>)
    requires Ascending(LeafIds(leaves))
    ensures DistinctLeaves(leaves)
  {
    forall i, j | 0 <= i < j < |leaves|
      ensures leaves[i].id != leaves[j].id
    {
      assert Less(LeafIds(leaves)[i], LeafIds(leaves)[j]);
      LessIsStrict(leaves[i].id, leaves[j].id);
    }
  }
}
