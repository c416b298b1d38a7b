/** Bill-of-Materials assembly: the keyed, order-preserving accumulator and
    the fixed table of structural roles it is fed from. */
module BomCalculator {
  import opened Types
  import opened PartLookup

  // ---------------------------------------------------------------------
  // The accumulator step, as a value-level specification
  // ---------------------------------------------------------------------

  /** The BOM after adding `quantity` of part `id`: the first line with that
      part number gets the quantity added, otherwise a new line is appended. */
  function AddItem(bom: Bom, id: string, quantity: int, description: Option<string>): Bom
    decreases |bom|
  {
    if bom == [] then [BomItem(id, quantity, description)]
    else if bom[0].partId == id then [bom[0].(quantity := bom[0].quantity + quantity)] + bom[1..]
    else [bom[0]] + AddItem(bom[1..], id, quantity, description)
  }

  /** A part already listed: only that line changes, and only its quantity. */
  lemma {:induction false} AddItemExisting(bom: Bom, id: string, quantity: int, description: Option<string>, k: nat)
    requires k < |bom| && bom[k].partId == id
    requires forall j :: 0 <= j < k ==> bom[j].partId != id
    ensures AddItem(bom, id, quantity, description) == bom[k := bom[k].(quantity := bom[k].quantity + quantity)]
    decreases |bom|
  {
    if k > 0 {
      AddItemExisting(bom[1..], id, quantity, description, k - 1);
    }
  }

  /** A part not yet listed: exactly one new line, at the end. */
  lemma {:induction false} AddItemAbsent(bom: Bom, id: string, quantity: int, description: Option<string>)
    requires forall j :: 0 <= j < |bom| ==> bom[j].partId != id
    ensures AddItem(bom, id, quantity, description) == bom + [BomItem(id, quantity, description)]
    decreases |bom|
  {
    if bom != [] {
      AddItemAbsent(bom[1..], id, quantity, description);
    }
  }

  /** The part numbers after the step: unchanged if `id` was listed,
      otherwise `id` appended. */
  lemma {:induction false} AddItemIds(bom: Bom, id: string, quantity: int, description: Option<string>)
    ensures PartIds(AddItem(bom, id, quantity, description)) ==
      if id in PartIds(bom) then PartIds(bom) else PartIds(bom) + [id]
  {
    if id in PartIds(bom) {
      var k := FirstWith(bom, id);
      AddItemExisting(bom, id, quantity, description, k);
    } else {
      AddItemAbsent(bom, id, quantity, description);
    }
  }

  /** Index of the first line with part number `id` (which must be listed). */
  ghost function FirstWith(bom: Bom, id: string): (k: nat)
    requires id in PartIds(bom)
    ensures k < |bom| && bom[k].partId == id
    ensures forall j :: 0 <= j < k ==> bom[j].partId != id
    decreases |bom|
  {
    if bom[0].partId == id then 0
    else
      assert id in PartIds(bom[1..]) by {
        var i :| 0 <= i < |bom| && PartIds(bom)[i] == id;
        assert PartIds(bom[1..])[i - 1] == id;
      }
      1 + FirstWith(bom[1..], id)
  }

  /** Adding keeps part numbers pairwise distinct. */
  lemma AddItemKeepsUnique(bom: Bom, id: string, quantity: int, description: Option<string>)
    requires UniqueIds(bom)
    ensures UniqueIds(AddItem(bom, id, quantity, description))
  {
    AddItemIds(bom, id, quantity, description);
    var r := AddItem(bom, id, quantity, description);
    forall i, j | 0 <= i < j < |r| ensures r[i].partId != r[j].partId {
      assert PartIds(r)[i] == r[i].partId && PartIds(r)[j] == r[j].partId;
    }
  }

  /** Adding grows the total quantity by exactly `quantity`. */
  lemma {:induction false} AddItemTotal(bom: Bom, id: string, quantity: int, description: Option<string>)
    ensures Total(AddItem(bom, id, quantity, description)) == Total(bom) + quantity
    decreases |bom|
  {
    var r := AddItem(bom, id, quantity, description);
    if bom == [] {
    } else if bom[0].partId == id {
      assert r[1..] == bom[1..];
    } else {
      AddItemTotal(bom[1..], id, quantity, description);
      assert r[1..] == AddItem(bom[1..], id, quantity, description);
    }
  }

  /** On a BOM with distinct part numbers, the line for `id` gains `quantity`,
      every other line keeps its quantity, and a new line carries `quantity`. */
  lemma {:induction false} AddItemQuantities(bom: Bom, id: string, quantity: int, description: Option<string>)
    requires UniqueIds(bom)
    ensures var r := AddItem(bom, id, quantity, description);
      forall k :: 0 <= k < |r| ==>
        r[k].quantity == if k < |bom| then bom[k].quantity + (if bom[k].partId == id then quantity else 0)
                         else quantity
  {
    if id in PartIds(bom) {
      var k := FirstWith(bom, id);
      AddItemExisting(bom, id, quantity, description, k);
    } else {
      AddItemAbsent(bom, id, quantity, description);
    }
  }

  /** Adding a positive quantity to a BOM of positive lines keeps every line positive. */
  lemma {:induction false} AddItemPositive(bom: Bom, id: string, quantity: int, description: Option<string>)
    requires forall k :: 0 <= k < |bom| ==> bom[k].quantity >= 1
    requires quantity >= 1
    ensures forall k :: 0 <= k < |AddItem(bom, id, quantity, description)| ==>
      AddItem(bom, id, quantity, description)[k].quantity >= 1
    decreases |bom|
  {
    if bom != [] && bom[0].partId != id {
      AddItemPositive(bom[1..], id, quantity, description);
      var r := AddItem(bom, id, quantity, description);
      assert r[1..] == AddItem(bom[1..], id, quantity, description);
      forall k | 1 <= k < |r| ensures r[k].quantity >= 1 {
        assert r[k] == r[1..][k - 1];
      }
    }
  }

  /** Finds the first line of `bom` with part number `id`. */
  method FindEntry(bom: Bom, id: string) returns (found: bool, k: nat)
    ensures found ==> k < |bom| && bom[k].partId == id
    ensures found ==> forall j :: 0 <= j < k ==> bom[j].partId != id
    ensures !found <==> forall j :: 0 <= j < |bom| ==> bom[j].partId != id
  {
    k := 0;
    while k < |bom|
      invariant k <= |bom|
      invariant forall j :: 0 <= j < k ==> bom[j].partId != id
    {
      if bom[k].partId == id {
        return true, k;
      }
      k := k + 1;
    }
    found := false;
  }

  /** The BOM under construction, updated in place by `Add`. */
  class BomList {
    var items: Bom

    constructor ()
      ensures items == []
    {
      items := [];
    }

    /** Adds `quantity` to the line for `partId`, or appends a new line. */
    method Add(partId: string, quantity: int, description: Option<string>)
      modifies this
      ensures items == AddItem(old(items), partId, quantity, description)
      ensures (exists k :: 0 <= k < |old(items)| && old(items)[k].partId == partId) ==> |items| == |old(items)|
      ensures (forall k :: 0 <= k < |old(items)| ==> old(items)[k].partId != partId) ==>
        items == old(items) + [BomItem(partId, quantity, description)]
    {
      var found, k := FindEntry(items, partId);
      if found {
        AddItemExisting(items, partId, quantity, description, k);
        items := items[k := items[k].(quantity := items[k].quantity + quantity)];
      } else {
        AddItemAbsent(items, partId, quantity, description);
        items := items + [BomItem(partId, quantity, description)];
      }
    }
  }

  // ---------------------------------------------------------------------
  // Structural roles
  // ---------------------------------------------------------------------

  /** One structural position of the enclosure: its catalog query (category,
      part-number pattern, which of width and height are checked) and how
      many pieces it needs. */
  datatype Role = Role(category: Category, pattern: string, queryWidth: bool, queryHeight: bool, quantity: nat)

  const TopPanel: Role := Role(Panel, "TOP", true, true, 1)
  const BottomPanel: Role := Role(Panel, "BOTTOM", true, true, 1)
  const FrontBackPanel: Role := Role(Panel, "SIDE-HEIGHT", true, true, 2)
  const SidePanel: Role := Role(Panel, "SIDE-WIDTH", false, true, 2)
  const HorizontalEdge: Role := Role(Edge, "HORIZONTAL", true, false, 8)
  const VerticalEdge: Role := Role(Edge, "VERTICAL", false, true, 4)
  const CornerConnector: Role := Role(Connector, "CORNER", false, false, 4)
  const Screw: Role := Role(Hardware, "SCREW", false, false, 24)

  /** The roles in the order the BOM is assembled. */
  const RoleTable: seq<Role> :=
    [TopPanel, BottomPanel, FrontBackPanel, SidePanel, HorizontalEdge, VerticalEdge, CornerConnector, Screw]

  /** The catalog query a role issues for module parameters `p`. */
  function RoleQuery(role: Role, p: ModuleParams): Query
  {
    Query(role.category, p.finish, Some(role.pattern),
          if role.queryWidth then Some(p.width) else None,
          if role.queryHeight then Some(p.height) else None)
  }

  /** What a role resolved to, paired with its multiplier. */
  datatype RoleMatch = RoleMatch(part: Option<CatalogItem>, quantity: nat)

  /** The outcome of looking up one role in the catalog. */
  function MatchOf(catalog: seq<CatalogItem>, p: ModuleParams, role: Role): RoleMatch
  {
    RoleMatch(FindPart(catalog, RoleQuery(role, p)), role.quantity)
  }

  /** The outcomes of looking up each role, in role order. */
  function Matches(catalog: seq<CatalogItem>, p: ModuleParams, roles: seq<Role>): (ms: seq<RoleMatch>)
    ensures |ms| == |roles|
    decreases |roles|
  {
    if roles == [] then []
    else Matches(catalog, p, roles[..|roles| - 1]) + [MatchOf(catalog, p, roles[|roles| - 1])]
  }

  /** Outcome `k` is the lookup of role `k`. */
  lemma {:induction false} MatchesAt(catalog: seq<CatalogItem>, p: ModuleParams, roles: seq<Role>, k: nat)
    requires k < |roles|
    ensures Matches(catalog, p, roles)[k] == MatchOf(catalog, p, roles[k])
    decreases |roles|
  {
    if k < |roles| - 1 {
      assert roles[..|roles| - 1][k] == roles[k];
      MatchesAt(catalog, p, roles[..|roles| - 1], k);
    }
  }

  // ---------------------------------------------------------------------
  // Accumulating role outcomes
  // ---------------------------------------------------------------------

  /** One role's contribution: nothing when it resolved to no part. */
  function Step(bom: Bom, m: RoleMatch): Bom
  {
    match m.part
    case None => bom
    case Some(item) => AddItem(bom, item.partId, m.quantity, Some(item.description))
  }

  /** The BOM accumulated from the outcomes `ms`, taken in order. */
  function Collect(ms: seq<RoleMatch>): Bom
    decreases |ms|
  {
    if ms == [] then [] else Step(Collect(ms[..|ms| - 1]), ms[|ms| - 1])
  }

  /** Part numbers of the outcomes that found a part, in order (with repeats). */
  function FoundIds(ms: seq<RoleMatch>): seq<string>
    decreases |ms|
  {
    if ms == [] then []
    else
      FoundIds(ms[..|ms| - 1]) +
      match ms[|ms| - 1].part
      case None => []
      case Some(item) => [item.partId]
  }

  /** `s` with every element after its first occurrence removed. */
  function FirstOccurrences(s: seq<string>): seq<string>
    decreases |s|
  {
    if s == [] then []
    else
      var d := FirstOccurrences(s[..|s| - 1]);
      if s[|s| - 1] in d then d else d + [s[|s| - 1]]
  }

  /** Sum of the multipliers of the outcomes that found a part. */
  function MatchedQuantity(ms: seq<RoleMatch>): int
    decreases |ms|
  {
    if ms == [] then 0
    else MatchedQuantity(ms[..|ms| - 1]) + if ms[|ms| - 1].part.Some? then ms[|ms| - 1].quantity else 0
  }

  /** Sum of the multipliers of the outcomes that found part `id`. */
  function QuantityFor(ms: seq<RoleMatch>, id: string): int
    decreases |ms|
  {
    if ms == [] then 0
    else
      var last := ms[|ms| - 1];
      QuantityFor(ms[..|ms| - 1], id) +
      match last.part
      case Some(item) => if item.partId == id then last.quantity else 0
      case None => 0
  }

  /** Sum of all multipliers, found or not. */
  function QuantitySum(ms: seq<RoleMatch>): int
    decreases |ms|
  {
    if ms == [] then 0 else QuantitySum(ms[..|ms| - 1]) + ms[|ms| - 1].quantity
  }

  /** Accumulating one more outcome is one more step. */
  lemma CollectSnoc(ms: seq<RoleMatch>, m: RoleMatch)
    ensures Collect(ms + [m]) == Step(Collect(ms), m)
  {
    assert (ms + [m])[..|ms|] == ms;
  }

  /** Lines appear in first-resolution order, one per distinct part found. */
  lemma {:induction false} CollectOrder(ms: seq<RoleMatch>)
    ensures PartIds(Collect(ms)) == FirstOccurrences(FoundIds(ms))
    decreases |ms|
  {
    if ms != [] {
      var prefix, last := ms[..|ms| - 1], ms[|ms| - 1];
      CollectOrder(prefix);
      var ids := FoundIds(ms);
      match last.part
      case None =>
        assert ids == FoundIds(prefix);
      case Some(item) =>
        assert ids == FoundIds(prefix) + [item.partId];
        assert ids[..|ids| - 1] == FoundIds(prefix);
        AddItemIds(Collect(prefix), item.partId, last.quantity, Some(item.description));
    }
  }

  /** No two lines share a part number. */
  lemma {:induction false} CollectUnique(ms: seq<RoleMatch>)
    ensures UniqueIds(Collect(ms))
    decreases |ms|
  {
    if ms != [] {
      var prefix, last := ms[..|ms| - 1], ms[|ms| - 1];
      CollectUnique(prefix);
      match last.part
      case None =>
      case Some(item) =>
        AddItemKeepsUnique(Collect(prefix), item.partId, last.quantity, Some(item.description));
    }
  }

  /** At most one line per role. */
  lemma {:induction false} CollectLength(ms: seq<RoleMatch>)
    ensures |Collect(ms)| <= |ms|
    decreases |ms|
  {
    if ms != [] {
      var prefix, last := ms[..|ms| - 1], ms[|ms| - 1];
      CollectLength(prefix);
      match last.part
      case None =>
      case Some(item) =>
        AddItemIds(Collect(prefix), item.partId, last.quantity, Some(item.description));
    }
  }

  /** Quantity conservation: the total is the sum of the found outcomes' multipliers. */
  lemma {:induction false} CollectTotal(ms: seq<RoleMatch>)
    ensures Total(Collect(ms)) == MatchedQuantity(ms)
    decreases |ms|
  {
    if ms != [] {
      var prefix, last := ms[..|ms| - 1], ms[|ms| - 1];
      CollectTotal(prefix);
      match last.part
      case None =>
      case Some(item) =>
        AddItemTotal(Collect(prefix), item.partId, last.quantity, Some(item.description));
    }
  }

  /** Merging: each line's quantity is the sum over all outcomes that found its
      part, and a part with no line is found by no outcome. */
  lemma {:induction false} CollectQuantities(ms: seq<RoleMatch>)
    ensures forall k :: 0 <= k < |Collect(ms)| ==>
      Collect(ms)[k].quantity == QuantityFor(ms, Collect(ms)[k].partId)
    ensures forall id :: id !in PartIds(Collect(ms)) ==> QuantityFor(ms, id) == 0
    decreases |ms|
  {
    if ms != [] {
      var prefix, last := ms[..|ms| - 1], ms[|ms| - 1];
      var before := Collect(prefix);
      CollectQuantities(prefix);
      var bom := Collect(ms);
      match last.part
      case None =>
        assert bom == before;
        forall id ensures QuantityFor(ms, id) == QuantityFor(prefix, id) { }
      case Some(item) =>
        var id, q := item.partId, last.quantity;
        assert bom == AddItem(before, id, q, Some(item.description));
        CollectUnique(prefix);
        AddItemIds(before, id, q, Some(item.description));
        AddItemQuantities(before, id, q, Some(item.description));
        forall x ensures QuantityFor(ms, x) == QuantityFor(prefix, x) + if id == x then q else 0 { }
        forall k | 0 <= k < |bom|
          ensures bom[k].quantity == QuantityFor(ms, bom[k].partId)
        {
          assert PartIds(bom)[k] == bom[k].partId;
          if k < |before| {
            assert PartIds(before)[k] == before[k].partId == bom[k].partId;
            assert bom[k].quantity == before[k].quantity + if before[k].partId == id then q else 0;
          } else {
            assert bom[k].partId == id && id !in PartIds(before);
          }
        }
        assert id in PartIds(bom);
    }
  }

  /** An outcome that found no part can be dropped from anywhere in the
      sequence without changing the BOM: the other outcomes count as before. */
  lemma {:induction false} UnmatchedSkipped(before: seq<RoleMatch>, m: RoleMatch, after: seq<RoleMatch>)
    requires m.part.None?
    ensures Collect(before + [m] + after) == Collect(before + after)
    decreases |after|
  {
    if after == [] {
      assert before + [m] + after == before + [m];
      assert before + after == before;
      CollectSnoc(before, m);
    } else {
      var init, last := after[..|after| - 1], after[|after| - 1];
      assert before + [m] + after == (before + [m] + init) + [last];
      assert before + after == (before + init) + [last];
      CollectSnoc(before + [m] + init, last);
      CollectSnoc(before + init, last);
      UnmatchedSkipped(before, m, init);
    }
  }

  /** The line an outcome that found a part contributes on its own. */
  function LineOf(m: RoleMatch): BomItem
    requires m.part.Some?
  {
    BomItem(m.part.value.partId, m.quantity, Some(m.part.value.description))
  }

  /** When every outcome found a part and the parts are pairwise distinct,
      the BOM has one line per outcome, in order, with the role's multiplier. */
  lemma {:induction false} CollectAllDistinct(ms: seq<RoleMatch>)
    requires forall i :: 0 <= i < |ms| ==> ms[i].part.Some?
    requires forall i, j :: 0 <= i < j < |ms| ==> ms[i].part.value.partId != ms[j].part.value.partId
    ensures |Collect(ms)| == |ms|
    ensures forall i :: 0 <= i < |ms| ==> Collect(ms)[i] == LineOf(ms[i])
    decreases |ms|
  {
    if ms != [] {
      var prefix, last := ms[..|ms| - 1], ms[|ms| - 1];
      assert forall i :: 0 <= i < |prefix| ==> prefix[i] == ms[i];
      CollectAllDistinct(prefix);
      var line := LineOf(last);
      var before := Collect(prefix);
      forall j | 0 <= j < |before| ensures before[j].partId != line.partId {
        assert before[j] == LineOf(ms[j]);
      }
      AddItemAbsent(before, line.partId, line.quantity, line.description);
    }
  }

  /** When every outcome found a part, every multiplier is counted. */
  lemma {:induction false} AllMatched(ms: seq<RoleMatch>)
    requires forall i :: 0 <= i < |ms| ==> ms[i].part.Some?
    ensures MatchedQuantity(ms) == QuantitySum(ms)
    decreases |ms|
  {
    if ms != [] {
      var prefix := ms[..|ms| - 1];
      assert forall i :: 0 <= i < |prefix| ==> prefix[i] == ms[i];
      AllMatched(prefix);
    }
  }

  /** With positive multipliers, every line of the BOM has a positive quantity. */
  lemma {:induction false} CollectPositive(ms: seq<RoleMatch>)
    requires forall i :: 0 <= i < |ms| ==> ms[i].quantity >= 1
    ensures forall k :: 0 <= k < |Collect(ms)| ==> Collect(ms)[k].quantity >= 1
    decreases |ms|
  {
    if ms != [] {
      var prefix, last := ms[..|ms| - 1], ms[|ms| - 1];
      assert forall i :: 0 <= i < |prefix| ==> prefix[i] == ms[i];
      CollectPositive(prefix);
      if last.part.Some? {
        AddItemPositive(Collect(prefix), last.part.value.partId, last.quantity, Some(last.part.value.description));
      }
    }
  }

  // ---------------------------------------------------------------------
  // The role table
  // ---------------------------------------------------------------------

  /** Eight outcomes in sequence are eight steps applied in that order. */
  lemma CollectEight(m0: RoleMatch, m1: RoleMatch, m2: RoleMatch, m3: RoleMatch,
                     m4: RoleMatch, m5: RoleMatch, m6: RoleMatch, m7: RoleMatch)
    ensures Collect([m0, m1, m2, m3, m4, m5, m6, m7]) ==
      Step(Step(Step(Step(Step(Step(Step(Step([], m0), m1), m2), m3), m4), m5), m6), m7)
  {
    var s0: seq<RoleMatch> := [];
    var s1 := s0 + [m0];
    CollectSnoc(s0, m0);
    var s2 := s1 + [m1];
    CollectSnoc(s1, m1);
    var s3 := s2 + [m2];
    CollectSnoc(s2, m2);
    var s4 := s3 + [m3];
    CollectSnoc(s3, m3);
    var s5 := s4 + [m4];
    CollectSnoc(s4, m4);
    var s6 := s5 + [m5];
    CollectSnoc(s5, m5);
    var s7 := s6 + [m6];
    CollectSnoc(s6, m6);
    var s8 := s7 + [m7];
    CollectSnoc(s7, m7);
    assert s8 == [m0, m1, m2, m3, m4, m5, m6, m7];
  }

  /** Sum of the multipliers of `roles`. */
  function Multipliers(roles: seq<Role>): nat
    decreases |roles|
  {
    if roles == [] then 0 else Multipliers(roles[..|roles| - 1]) + roles[|roles| - 1].quantity
  }

  /** Every outcome carries its role's multiplier, whether or not a part was found. */
  lemma {:induction false} MatchesSum(catalog: seq<CatalogItem>, p: ModuleParams, roles: seq<Role>)
    ensures QuantitySum(Matches(catalog, p, roles)) == Multipliers(roles)
    decreases |roles|
  {
    if roles != [] {
      var ms := Matches(catalog, p, roles);
      assert ms[..|ms| - 1] == Matches(catalog, p, roles[..|roles| - 1]);
      MatchesSum(catalog, p, roles[..|roles| - 1]);
    }
  }

  /** Looking up a concatenation of roles is looking up each part. */
  lemma {:induction false} MatchesConcat(catalog: seq<CatalogItem>, p: ModuleParams, r1: seq<Role>, r2: seq<Role>)
    ensures Matches(catalog, p, r1 + r2) == Matches(catalog, p, r1) + Matches(catalog, p, r2)
    decreases |r2|
  {
    if r2 != [] {
      var init, last := r2[..|r2| - 1], r2[|r2| - 1];
      assert (r1 + r2)[..|r1 + r2| - 1] == r1 + init;
      MatchesConcat(catalog, p, r1, init);
    } else {
      assert r1 + r2 == r1;
    }
  }

  /** The multipliers of the role table add up to 1+1+2+2+8+4+4+24 = 46. */
  lemma RoleTableMultipliers()
    ensures Multipliers(RoleTable) == 46
  {
    var t := RoleTable;
    assert t[..1][..0] == [];
    assert t[..2][..1] == t[..1];
    assert t[..3][..2] == t[..2];
    assert t[..4][..3] == t[..3];
    assert t[..5][..4] == t[..4];
    assert t[..6][..5] == t[..5];
    assert t[..7][..6] == t[..6];
    assert t[..8][..7] == t[..7];
    assert t[..8] == t;
    assert Multipliers(t[..1]) == 1;
    assert Multipliers(t[..2]) == 2;
    assert Multipliers(t[..3]) == 4;
    assert Multipliers(t[..4]) == 6;
    assert Multipliers(t[..5]) == 14;
    assert Multipliers(t[..6]) == 18;
    assert Multipliers(t[..7]) == 22;
  }

  /** A role that finds no part contributes nothing, and every other role
      resolves and counts exactly as if it were absent. */
  lemma MissingRoleSkipped(catalog: seq<CatalogItem>, p: ModuleParams, roles: seq<Role>, k: nat)
    requires k < |roles| && FindPart(catalog, RoleQuery(roles[k], p)).None?
    ensures Collect(Matches(catalog, p, roles)) ==
      Collect(Matches(catalog, p, roles[..k] + roles[k + 1..]))
  {
    var before, after := roles[..k], roles[k + 1..];
    assert roles == before + [roles[k]] + after;
    MatchesConcat(catalog, p, before + [roles[k]], after);
    MatchesConcat(catalog, p, before, [roles[k]]);
    MatchesConcat(catalog, p, before, after);
    assert Matches(catalog, p, [roles[k]]) == [MatchOf(catalog, p, roles[k])];
    UnmatchedSkipped(Matches(catalog, p, before), MatchOf(catalog, p, roles[k]), Matches(catalog, p, after));
  }

  /** With every role of the table matched, the total is 46. */
  lemma FullMatchTotal(catalog: seq<CatalogItem>, p: ModuleParams)
    requires forall i :: 0 <= i < |RoleTable| ==> FindPart(catalog, RoleQuery(RoleTable[i], p)).Some?
    ensures Total(Collect(Matches(catalog, p, RoleTable))) == 46
  {
    var ms := Matches(catalog, p, RoleTable);
    forall i | 0 <= i < |ms| ensures ms[i].part.Some? {
      MatchesAt(catalog, p, RoleTable, i);
    }
    AllMatched(ms);
    MatchesSum(catalog, p, RoleTable);
    RoleTableMultipliers();
    CollectTotal(ms);
  }

  /** With every role matched to its own part, the BOM has one line per role,
      in role order, carrying the role's multiplier. */
  lemma FullMatchLines(catalog: seq<CatalogItem>, p: ModuleParams, roles: seq<Role>)
    requires forall i :: 0 <= i < |roles| ==> FindPart(catalog, RoleQuery(roles[i], p)).Some?
    requires forall i, j :: 0 <= i < j < |roles| ==>
      FindPart(catalog, RoleQuery(roles[i], p)).value.partId !=
      FindPart(catalog, RoleQuery(roles[j], p)).value.partId
    ensures |Collect(Matches(catalog, p, roles))| == |roles|
    ensures forall i :: 0 <= i < |roles| ==>
      Collect(Matches(catalog, p, roles))[i] ==
        BomItem(FindPart(catalog, RoleQuery(roles[i], p)).value.partId, roles[i].quantity,
                Some(FindPart(catalog, RoleQuery(roles[i], p)).value.description))
  {
    var ms := Matches(catalog, p, roles);
    forall i | 0 <= i < |roles| ensures ms[i] == MatchOf(catalog, p, roles[i]) {
      MatchesAt(catalog, p, roles, i);
    }
    CollectAllDistinct(ms);
  }

  /** When the last outcome finds the same part as the earlier outcome `j`, and
      the earlier ones are otherwise pairwise distinct, the last multiplier is
      added to line `j` and no line is appended. */
  lemma CollectMergeLast(ms: seq<RoleMatch>, j: nat)
    requires forall i :: 0 <= i < |ms| ==> ms[i].part.Some?
    requires j + 1 < |ms|
    requires forall i, i' :: 0 <= i < i' < |ms| - 1 ==> ms[i].part.value.partId != ms[i'].part.value.partId
    requires ms[|ms| - 1].part.value.partId == ms[j].part.value.partId
    ensures |Collect(ms)| == |ms| - 1
    ensures forall i :: 0 <= i < |ms| - 1 && i != j ==> Collect(ms)[i] == LineOf(ms[i])
    ensures Collect(ms)[j] == LineOf(ms[j]).(quantity := ms[j].quantity + ms[|ms| - 1].quantity)
  {
    var prefix, last := ms[..|ms| - 1], ms[|ms| - 1];
    assert ms == prefix + [last];
    CollectSnoc(prefix, last);
    assert forall i :: 0 <= i < |prefix| ==> prefix[i] == ms[i];
    CollectAllDistinct(prefix);
    var before := Collect(prefix);
    AddItemExisting(before, last.part.value.partId, last.quantity, Some(last.part.value.description), j);
  }

  /** Corner connectors and screws resolving to the same part (and the other
      roles to parts of their own) give seven lines, the corner connectors'
      line carrying 4 + 24 = 28. Connectors and screws belong to different
      categories, so this needs a catalog that lists one part number twice. */
  lemma SharedPartMerged(catalog: seq<CatalogItem>, p: ModuleParams)
    requires forall i :: 0 <= i < |RoleTable| ==> FindPart(catalog, RoleQuery(RoleTable[i], p)).Some?
    requires forall i, j :: 0 <= i < j < 7 ==>
      FindPart(catalog, RoleQuery(RoleTable[i], p)).value.partId !=
      FindPart(catalog, RoleQuery(RoleTable[j], p)).value.partId
    requires FindPart(catalog, RoleQuery(RoleTable[7], p)).value.partId ==
      FindPart(catalog, RoleQuery(RoleTable[6], p)).value.partId
    ensures |Collect(Matches(catalog, p, RoleTable))| == 7
    ensures Collect(Matches(catalog, p, RoleTable))[6].partId ==
      FindPart(catalog, RoleQuery(RoleTable[6], p)).value.partId
    ensures Collect(Matches(catalog, p, RoleTable))[6].quantity == 28
  {
    var ms := Matches(catalog, p, RoleTable);
    forall i | 0 <= i < |RoleTable| ensures ms[i] == MatchOf(catalog, p, RoleTable[i]) {
      MatchesAt(catalog, p, RoleTable, i);
    }
    CollectMergeLast(ms, 6);
  }

  /** Every line of the table's BOM has a positive quantity, since every
      multiplier of the table is at least 1. */
  lemma RoleTableLinesPositive(catalog: seq<CatalogItem>, p: ModuleParams)
    ensures forall k :: 0 <= k < |Collect(Matches(catalog, p, RoleTable))| ==>
      Collect(Matches(catalog, p, RoleTable))[k].quantity >= 1
  {
    var ms := Matches(catalog, p, RoleTable);
    forall i | 0 <= i < |ms| ensures ms[i].quantity >= 1 {
      MatchesAt(catalog, p, RoleTable, i);
    }
    CollectPositive(ms);
  }

  /** A panel whose part number contains both "TOP" and "BOTTOM" (and whose
      width and height are unconstrained) is accepted by both the top and the
      bottom panel queries, so a catalog of distinct part numbers can make two
      roles resolve to the same part. */
  lemma TopBottomSharedPanel(p: ModuleParams)
    ensures FindPart([CatalogItem("PANEL-TOP-BOTTOM", "Top/bottom panel",
                                  Dimensions(None, None, None), p.finish, Panel)],
                     RoleQuery(TopPanel, p)).Some?
    ensures FindPart([CatalogItem("PANEL-TOP-BOTTOM", "Top/bottom panel",
                                  Dimensions(None, None, None), p.finish, Panel)],
                     RoleQuery(BottomPanel, p)).Some?
  {
    var s := "PANEL-TOP-BOTTOM";
    assert s[6..9] == "TOP";
    assert OccursAt(s, "TOP", 6);
    assert s[10..16] == "BOTTOM";
    assert OccursAt(s, "BOTTOM", 10);
  }

  /** Top and bottom panels resolving to the same part give a single line
      for it, carrying 1 + 1 = 2. */
  lemma TopBottomMerged(catalog: seq<CatalogItem>, p: ModuleParams)
    requires FindPart(catalog, RoleQuery(TopPanel, p)).Some?
    requires FindPart(catalog, RoleQuery(BottomPanel, p)) == FindPart(catalog, RoleQuery(TopPanel, p))
    ensures Collect(Matches(catalog, p, [TopPanel, BottomPanel])) ==
      [BomItem(FindPart(catalog, RoleQuery(TopPanel, p)).value.partId, 2,
               Some(FindPart(catalog, RoleQuery(TopPanel, p)).value.description))]
  {
    var roles := [TopPanel, BottomPanel];
    var ms := Matches(catalog, p, roles);
    MatchesAt(catalog, p, roles, 0);
    MatchesAt(catalog, p, roles, 1);
    assert ms == [ms[0]] + [ms[1]];
    CollectSnoc([], ms[0]);
    CollectSnoc([ms[0]], ms[1]);
  }

  // ---------------------------------------------------------------------
  // The resolver
  // ---------------------------------------------------------------------

  /** Looks up the part for role `k` of the table and, if there is one, adds
      the role's multiplier of it to `bom`. */
  method AddRole(bom: BomList, catalog: seq<CatalogItem>, p: ModuleParams, k: nat)
    requires k < |RoleTable|
    modifies bom
    ensures bom.items == Step(old(bom.items), Matches(catalog, p, RoleTable)[k])
  {
    MatchesAt(catalog, p, RoleTable, k);
    var role := RoleTable[k];
    var part := FindPart(catalog, RoleQuery(role, p));
    if part.Some? {
      bom.Add(part.value.partId, role.quantity, Some(part.value.description));
    }
  }

  /** The Bill of Materials for module parameters `p` against `catalog`. */
  method CalculateBom(catalog: seq<CatalogItem>, p: ModuleParams) returns (result: Bom)
    ensures result == Collect(Matches(catalog, p, RoleTable))
    ensures UniqueIds(result)
    ensures |result| <= 8
    ensures PartIds(result) == FirstOccurrences(FoundIds(Matches(catalog, p, RoleTable)))
    ensures Total(result) == MatchedQuantity(Matches(catalog, p, RoleTable))
    ensures forall k :: 0 <= k < |result| ==>
      result[k].quantity == QuantityFor(Matches(catalog, p, RoleTable), result[k].partId)
    ensures forall k :: 0 <= k < |result| ==> result[k].quantity >= 1
  {
    var bom := new BomList();
    AddRole(bom, catalog, p, 0);  // top panel
    AddRole(bom, catalog, p, 1);  // bottom panel
    AddRole(bom, catalog, p, 2);  // front and back panels
    AddRole(bom, catalog, p, 3);  // left and right side panels
    AddRole(bom, catalog, p, 4);  // horizontal edges
    AddRole(bom, catalog, p, 5);  // vertical edges
    AddRole(bom, catalog, p, 6);  // corner connectors
    AddRole(bom, catalog, p, 7);  // screws
    result := bom.items;
    var ms := Matches(catalog, p, RoleTable);
    CollectEight(ms[0], ms[1], ms[2], ms[3], ms[4], ms[5], ms[6], ms[7]);
    assert ms == [ms[0], ms[1], ms[2], ms[3], ms[4], ms[5], ms[6], ms[7]];
    CollectUnique(ms);
    CollectLength(ms);
    CollectOrder(ms);
    CollectTotal(ms);
    CollectQuantities(ms);
    RoleTableLinesPositive(catalog, p);
  }
}
