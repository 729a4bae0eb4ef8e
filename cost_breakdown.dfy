/**
 * The rig cost-scenario model of the cost-breakdown screen: an ordered list of
 * rigs, each owning its own copy of a fixed five-category cost taxonomy, a
 * selected-rig id, the three handlers that change them (add a rig, remove a
 * rig, edit one item's cost) and the reductions that total the costs.
 */
module CostBreakdown {
  import opened Wrappers
  import opened Numeric

  datatype Item = Item(id: string, name: string, cost: real)
  datatype Category = Category(id: string, name: string, items: seq<Item>)
  datatype Rig = Rig(id: string, name: string, costs: seq<Category>)

  // ---------------------------------------------------------------------------
  // The cost taxonomy
  // ---------------------------------------------------------------------------

  /**
   * A freshly built taxonomy (`getInitialCosts`): five categories of named
   * items, every cost 0. Each category is written as its own function.
   */
  function InitialCosts(): seq<Category> {
    [PreDrillingCategory(), DrillingCategory(), CompletionCategory(), PostCompletionCategory(), LogisticsCategory()]
  }

  function PreDrillingCategory(): Category {
    Category("pre-drilling", "\U{1F6E0}\U{FE0F} Pre-Drilling", [
      Item("land", "Land Acquisition / Site Preparation", 0.0),
      Item("permits", "Permitting & Regulatory Fees", 0.0),
      Item("environmental", "Environmental Assessments", 0.0),
      Item("surveying", "Surveying & Engineering Design", 0.0),
      Item("mobilization", "Mobilization of Equipment", 0.0),
      Item("road", "Road & Location Construction", 0.0)
    ])
  }

  function DrillingCategory(): Category {
    Category("drilling", "\U{1F9F1} Drilling", [
      Item("rig", "Rig Rental / Rig Rate (Daily)", 0.0),
      Item("fuel", "Fuel & Power Supply", 0.0),
      Item("bits", "Drill Bits & Casing", 0.0),
      Item("mud", "Mud & Chemicals", 0.0),
      Item("services", "Drilling Services (MWD/LWD)", 0.0),
      Item("directional", "Directional Drilling / Horizontal Sections", 0.0),
      Item("cementing", "Cementing", 0.0)
    ])
  }

  function CompletionCategory(): Category {
    Category("completion", "\U{2699}\U{FE0F} Completion", [
      Item("logging", "Well Logging", 0.0),
      Item("perforation", "Perforation", 0.0),
      Item("stimulation", "Stimulation (Fracking/Acidizing)", 0.0),
      Item("tubing-hanger", "Tubing Hanger", 0.0),
      Item("prodn-tubing", "Prodn Tubing", 0.0),
      Item("scsssv", "SCSSSV", 0.0),
      Item("packer", "Packer", 0.0),
      Item("ssd", "SSD", 0.0),
      Item("no-go", "No-Go Locator Seal Assembly", 0.0),
      Item("millout", "Millout Extension", 0.0),
      Item("downhole", "Downhole Equipment", 0.0),
      Item("wellhead", "Wellhead & Christmas Tree Installation", 0.0)
    ])
  }

  function PostCompletionCategory(): Category {
    Category("post-completion", "\U{1F527} Post-Completion", [
      Item("surface", "Surface Facilities & Hook-up", 0.0),
      Item("pipeline", "Pipeline Tie-in", 0.0),
      Item("testing", "Production Testing", 0.0),
      Item("cleanup", "Clean-up Operations", 0.0),
      Item("restoration", "Site Restoration / Waste Handling", 0.0)
    ])
  }

  function LogisticsCategory(): Category {
    Category("logistics", "\U{1F69A} Logistics & Other", [
      Item("transport", "Transport (equipment, personnel, materials)", 0.0),
      Item("camp", "Camp / Accommodation & Catering", 0.0),
      Item("security", "Security", 0.0),
      Item("third-party", "Third-party Services", 0.0),
      Item("insurance", "Insurance & Contingency", 0.0),
      Item("communication", "Communication & Remote Monitoring", 0.0)
    ])
  }

  predicate ItemIdsDistinct(items: seq<Item>) {
    forall i, j :: 0 <= i < j < |items| ==> items[i].id != items[j].id
  }

  predicate CategoryIdsDistinct(cs: seq<Category>) {
    forall i, j :: 0 <= i < j < |cs| ==> cs[i].id != cs[j].id
  }

  /** Category ids are distinct, and item ids are distinct within each category. */
  predicate TaxonomyIdsDistinct(cs: seq<Category>) {
    CategoryIdsDistinct(cs) && forall c :: 0 <= c < |cs| ==> ItemIdsDistinct(cs[c].items)
  }

  /** Every item costs 0. */
  predicate AllZero(items: seq<Item>) {
    forall i :: 0 <= i < |items| ==> items[i].cost == 0.0
  }

  lemma PreDrillingFresh()
    ensures var c := PreDrillingCategory();
      c.id == "pre-drilling" && |c.items| == 6 && ItemIdsDistinct(c.items) && AllZero(c.items)
  {
  }

  lemma DrillingFresh()
    ensures var c := DrillingCategory();
      c.id == "drilling" && |c.items| == 7 && ItemIdsDistinct(c.items) && AllZero(c.items)
  {
  }

  lemma CompletionFresh()
    ensures var c := CompletionCategory();
      c.id == "completion" && |c.items| == 12 && ItemIdsDistinct(c.items) && AllZero(c.items)
  {
    var items := CompletionCategory().items;
    forall i, j | 0 <= i < j < |items|
      ensures items[i].id != items[j].id
    {
      assert i < 4 || 4 <= i < 8 || 8 <= i;
    }
  }

  lemma PostCompletionFresh()
    ensures var c := PostCompletionCategory();
      c.id == "post-completion" && |c.items| == 5 && ItemIdsDistinct(c.items) && AllZero(c.items)
  {
  }

  lemma LogisticsFresh()
    ensures var c := LogisticsCategory();
      c.id == "logistics" && |c.items| == 6 && ItemIdsDistinct(c.items) && AllZero(c.items)
  {
  }

  /**
   * The taxonomy has 5 categories, in this order, with 6, 7, 12, 5 and 6
   * items; every cost is 0; category ids are distinct and item ids are
   * distinct within each category.
   */
  lemma InitialCostsFresh()
    ensures var cs := InitialCosts();
      && |cs| == 5
      && cs[0].id == "pre-drilling" && |cs[0].items| == 6
      && cs[1].id == "drilling" && |cs[1].items| == 7
      && cs[2].id == "completion" && |cs[2].items| == 12
      && cs[3].id == "post-completion" && |cs[3].items| == 5
      && cs[4].id == "logistics" && |cs[4].items| == 6
      && (forall c :: 0 <= c < |cs| ==> AllZero(cs[c].items))
      && TaxonomyIdsDistinct(cs)
  {
    PreDrillingFresh();
    DrillingFresh();
    CompletionFresh();
    PostCompletionFresh();
    LogisticsFresh();
    var cs := InitialCosts();
    forall c | 0 <= c < |cs|
      ensures AllZero(cs[c].items) && ItemIdsDistinct(cs[c].items)
    {
      assert c == 0 || c == 1 || c == 2 || c == 3 || c == 4;
    }
  }

  /** The labels of an item: everything but its cost. */
  datatype ItemLabel = ItemLabel(id: string, name: string)

  /** The labels of a category and of its items, in order. */
  datatype CategoryShape = CategoryShape(id: string, name: string, items: seq<ItemLabel>)

  /** The structure of a cost list: its categories and items without the costs. */
  function ShapeOf(cs: seq<Category>): (shape: seq<CategoryShape>) {
    seq(|cs|, c requires 0 <= c < |cs| =>
      CategoryShape(cs[c].id, cs[c].name,
        seq(|cs[c].items|, i requires 0 <= i < |cs[c].items| => ItemLabel(cs[c].items[i].id, cs[c].items[i].name))))
  }

  /** Distinct ids depend only on the structure, not on the costs. */
  lemma IdsDistinctOfSameShape(a: seq<Category>, b: seq<Category>)
    requires ShapeOf(a) == ShapeOf(b) && TaxonomyIdsDistinct(b)
    ensures TaxonomyIdsDistinct(a)
  {
    forall c | 0 <= c < |a|
      ensures ItemIdsDistinct(a[c].items)
    {
      assert ShapeOf(a)[c] == ShapeOf(b)[c];
      assert ItemIdsDistinct(b[c].items);
      forall i, j | 0 <= i < j < |a[c].items|
        ensures a[c].items[i].id != a[c].items[j].id
      {
        assert ShapeOf(a)[c].items[i] == ShapeOf(b)[c].items[i];
        assert ShapeOf(a)[c].items[j] == ShapeOf(b)[c].items[j];
      }
    }
    forall i, j | 0 <= i < j < |a|
      ensures a[i].id != a[j].id
    {
      assert ShapeOf(a)[i] == ShapeOf(b)[i];
      assert ShapeOf(a)[j] == ShapeOf(b)[j];
    }
  }

  // ---------------------------------------------------------------------------
  // Totals
  // ---------------------------------------------------------------------------

  /** The left-to-right sum of the items' costs, as `reduce((total, item) => total + item.cost, 0)`. */
  function SumItems(items: seq<Item>): real {
    if items == [] then 0.0 else SumItems(items[..|items| - 1]) + items[|items| - 1].cost
  }

  /** `calculateCategoryTotal`. */
  function CategoryTotal(category: Category): real {
    SumItems(category.items)
  }

  /** The left-to-right sum of the category totals. */
  function SumCategories(cs: seq<Category>): real {
    if cs == [] then 0.0 else SumCategories(cs[..|cs| - 1]) + CategoryTotal(cs[|cs| - 1])
  }

  /**
   * The total of one rig, as the comparison table and the grand total compute
   * it: the sum of its category totals, which is the sum over all its items.
   */
  function RigTotal(rig: Rig): (total: real)
    ensures total == SumItems(AllItems(rig.costs))
  {
    SumCategoriesIsSumOfAllItems(rig.costs);
    SumCategories(rig.costs)
  }

  lemma {:induction false} SumItemsAppend(a: seq<Item>, b: seq<Item>)
    ensures SumItems(a + b) == SumItems(a) + SumItems(b)
    decreases |b|
  {
    if b != [] {
      var b' := b[..|b| - 1];
      assert (a + b)[..|a + b| - 1] == a + b';
      SumItemsAppend(a, b');
    } else {
      assert a + b == a;
    }
  }

  lemma {:induction false} SumCategoriesAppend(a: seq<Category>, b: seq<Category>)
    ensures SumCategories(a + b) == SumCategories(a) + SumCategories(b)
    decreases |b|
  {
    if b != [] {
      var b' := b[..|b| - 1];
      assert (a + b)[..|a + b| - 1] == a + b';
      SumCategoriesAppend(a, b');
    } else {
      assert a + b == a;
    }
  }

  /** All the items of a cost list, category after category. */
  function AllItems(cs: seq<Category>): seq<Item> {
    if cs == [] then [] else AllItems(cs[..|cs| - 1]) + cs[|cs| - 1].items
  }

  /** The sum of the category totals is the sum over every item of every category. */
  lemma {:induction false} SumCategoriesIsSumOfAllItems(cs: seq<Category>)
    ensures SumCategories(cs) == SumItems(AllItems(cs))
    decreases |cs|
  {
    if cs != [] {
      var cs' := cs[..|cs| - 1];
      SumCategoriesIsSumOfAllItems(cs');
      SumItemsAppend(AllItems(cs'), cs[|cs| - 1].items);
    }
  }

  /** Items that all cost 0 total 0. */
  lemma {:induction false} ZeroItemsSumZero(items: seq<Item>)
    requires AllZero(items)
    ensures SumItems(items) == 0.0
    decreases |items|
  {
    if items != [] {
      ZeroItemsSumZero(items[..|items| - 1]);
    }
  }

  /** Categories whose items all cost 0 total 0, each and together. */
  lemma {:induction false} ZeroCategoriesSumZero(cs: seq<Category>)
    requires forall c :: 0 <= c < |cs| ==> AllZero(cs[c].items)
    ensures SumCategories(cs) == 0.0
    ensures forall c :: 0 <= c < |cs| ==> CategoryTotal(cs[c]) == 0.0
    decreases |cs|
  {
    forall c | 0 <= c < |cs|
      ensures CategoryTotal(cs[c]) == 0.0
    {
      ZeroItemsSumZero(cs[c].items);
    }
    if cs != [] {
      ZeroCategoriesSumZero(cs[..|cs| - 1]);
    }
  }

  /** In a freshly built taxonomy every category total, and so the rig total, is 0. */
  lemma InitialCostsTotalZero()
    ensures forall c :: 0 <= c < |InitialCosts()| ==> CategoryTotal(InitialCosts()[c]) == 0.0
    ensures SumCategories(InitialCosts()) == 0.0
  {
    InitialCostsFresh();
    ZeroCategoriesSumZero(InitialCosts());
  }

  // ---------------------------------------------------------------------------
  // Rigs, their ids and the initial state
  // ---------------------------------------------------------------------------

  /** The id `rig-${n}` given to the rig added as number `n`: the number can be read back from it. */
  function RigId(n: nat): (id: string)
    ensures |id| > 4 && id[..4] == "rig-"
    ensures forall i :: 4 <= i < |id| ==> IsDigit(id[i])
    ensures DecimalValue(id[4..]) == n
  {
    DecimalRoundTrip(n);
    var id := "rig-" + DecimalString(n);
    assert id[4..] == DecimalString(n);
    id
  }

  /** The name `Rig ${n}` given to the rig added as number `n`: the number can be read back from it. */
  function RigName(n: nat): (name: string)
    ensures |name| > 4 && name[..4] == "Rig "
    ensures forall i :: 4 <= i < |name| ==> IsDigit(name[i])
    ensures DecimalValue(name[4..]) == n
  {
    DecimalRoundTrip(n);
    var name := "Rig " + DecimalString(n);
    assert name[4..] == DecimalString(n);
    name
  }

  /**
   * The rig `addNewRig` builds as number `n`, given the taxonomy `costs`: its
   * id and its name carry the same number text.
   */
  function NewRig(n: nat, costs: seq<Category>): (rig: Rig)
    ensures |rig.id| > 4 && |rig.name| > 4
    ensures rig.id == "rig-" + rig.name[4..] && rig.name == "Rig " + rig.id[4..]
    ensures rig.costs == costs
  {
    var rig := Rig(RigId(n), RigName(n), costs);
    assert rig.id[4..] == DecimalString(n) == rig.name[4..];
    rig
  }

  /** Rig ids built from different numbers differ, since the number reads back from the id. */
  lemma RigIdInjective(m: nat, n: nat)
    requires RigId(m) == RigId(n)
    ensures m == n
  {
  }

  /** The two rigs the screen starts with, with distinct ids, each given the taxonomy `costs`. */
  function InitialRigs(costs: seq<Category>): (rigs: seq<Rig>)
    ensures |rigs| == 2 && RigIdsDistinct(rigs)
    ensures forall k :: 0 <= k < |rigs| ==> rigs[k].costs == costs
  {
    var rigs := [Rig("rig-1", "Rig 1", costs), Rig("rig-2", "Rig 2", costs)];
    assert rigs[0].id[4] != rigs[1].id[4];
    rigs
  }

  /** The initial rigs are the rigs `addNewRig` would number 1 and 2. */
  lemma InitialRigsAreNumbered(costs: seq<Category>)
    ensures InitialRigs(costs) == [NewRig(1, costs), NewRig(2, costs)]
  {
    assert DecimalString(1) == "1";
    assert DecimalString(2) == "2";
    assert RigId(1) == "rig-1" && RigName(1) == "Rig 1";
    assert RigId(2) == "rig-2" && RigName(2) == "Rig 2";
  }

  /** A rig given a fresh taxonomy totals 0 in every category and overall. */
  lemma FreshRigTotalZero(rig: Rig)
    requires rig.costs == InitialCosts()
    ensures forall c :: 0 <= c < |rig.costs| ==> CategoryTotal(rig.costs[c]) == 0.0
    ensures RigTotal(rig) == 0.0
  {
    InitialCostsTotalZero();
  }

  // ---------------------------------------------------------------------------
  // Reading the state
  // ---------------------------------------------------------------------------

  /** `rigs.find(rig => rig.id === id)`: the first rig with that id. */
  function FindRig(rigs: seq<Rig>, id: string): (r: Option<Rig>)
    ensures r.None? <==> forall k :: 0 <= k < |rigs| ==> rigs[k].id != id
    ensures r.Some? ==> r.value in rigs && r.value.id == id
  {
    if rigs == [] then None
    else if rigs[0].id == id then Some(rigs[0])
    else FindRig(rigs[1..], id)
  }

  /** `find` returns the first rig with the id, not a later one that shares it. */
  lemma {:induction false} FindRigFirst(rigs: seq<Rig>, id: string, k: nat)
    requires k < |rigs| && rigs[k].id == id
    requires forall j :: 0 <= j < k ==> rigs[j].id != id
    ensures FindRig(rigs, id) == Some(rigs[k])
    decreases k
  {
    if k > 0 {
      FindRigFirst(rigs[1..], id, k - 1);
    }
  }

  /** When `find` succeeds, it returns the first rig carrying the id. */
  lemma {:induction false} FindRigIndex(rigs: seq<Rig>, id: string)
    requires FindRig(rigs, id).Some?
    ensures exists k :: 0 <= k < |rigs| && rigs[k].id == id && (forall j :: 0 <= j < k ==> rigs[j].id != id)
                        && FindRig(rigs, id) == Some(rigs[k])
    decreases |rigs|
  {
    if rigs[0].id != id {
      FindRigIndex(rigs[1..], id);
      var k :| 0 <= k < |rigs[1..]| && rigs[1..][k].id == id && (forall j :: 0 <= j < k ==> rigs[1..][j].id != id)
               && FindRig(rigs[1..], id) == Some(rigs[1..][k]);
      assert rigs[k + 1] == rigs[1..][k];
      assert forall j :: 1 <= j < k + 1 ==> rigs[j] == rigs[1..][j - 1];
    }
  }

  /** `getCurrentRigCosts`: the selected rig's categories, or none when no rig has the id. */
  function CurrentRigCosts(rigs: seq<Rig>, selected: string): (cs: seq<Category>)
    ensures (forall k :: 0 <= k < |rigs| ==> rigs[k].id != selected) ==> cs == []
  {
    match FindRig(rigs, selected)
    case None => []
    case Some(rig) => rig.costs
  }

  /** `calculateGrandTotal`: the selected rig's total, 0 when no rig has the id. */
  function GrandTotal(rigs: seq<Rig>, selected: string): (total: real)
    ensures total == SumCategories(CurrentRigCosts(rigs, selected))
    ensures (forall k :: 0 <= k < |rigs| ==> rigs[k].id != selected) ==> total == 0.0
  {
    match FindRig(rigs, selected)
    case None => 0.0
    case Some(rig) => RigTotal(rig)
  }

  /** The "Total Cost" column of the comparison table, one entry per rig in list order. */
  function ComparisonTotals(rigs: seq<Rig>): (totals: seq<real>) {
    seq(|rigs|, k requires 0 <= k < |rigs| => RigTotal(rigs[k]))
  }

  /**
   * A rig's comparison-table total is the grand total shown when it is
   * selected, provided no earlier rig carries the same id.
   */
  lemma ComparisonTotalIsGrandTotal(rigs: seq<Rig>, k: nat)
    requires k < |rigs|
    requires forall j :: 0 <= j < k ==> rigs[j].id != rigs[k].id
    ensures ComparisonTotals(rigs)[k] == GrandTotal(rigs, rigs[k].id)
  {
    FindRigFirst(rigs, rigs[k].id, k);
  }

  // ---------------------------------------------------------------------------
  // Removing a rig
  // ---------------------------------------------------------------------------

  /** `rigs.filter(rig => rig.id !== id)`. */
  function WithoutRig(rigs: seq<Rig>, id: string): (r: seq<Rig>)
    ensures |r| <= |rigs|
    ensures forall k :: 0 <= k < |r| ==> r[k].id != id
  {
    if rigs == [] then []
    else (if rigs[0].id == id then [] else [rigs[0]]) + WithoutRig(rigs[1..], id)
  }

  /** The filter keeps list order: filtering a concatenation filters each part. */
  lemma {:induction false} WithoutRigAppend(a: seq<Rig>, b: seq<Rig>, id: string)
    ensures WithoutRig(a + b, id) == WithoutRig(a, id) + WithoutRig(b, id)
    decreases |a|
  {
    if a == [] {
      assert a + b == b;
    } else {
      assert (a + b)[1..] == a[1..] + b;
      WithoutRigAppend(a[1..], b, id);
    }
  }

  /** A rig survives the filter exactly when it is listed and its id differs. */
  lemma {:induction false} WithoutRigMembers(rigs: seq<Rig>, id: string, x: Rig)
    ensures x in WithoutRig(rigs, id) <==> x in rigs && x.id != id
    decreases |rigs|
  {
    if rigs != [] {
      WithoutRigMembers(rigs[1..], id, x);
      assert rigs == [rigs[0]] + rigs[1..];
    }
  }

  /** Removing an id that no rig carries changes nothing. */
  lemma {:induction false} WithoutAbsentRig(rigs: seq<Rig>, id: string)
    requires forall k :: 0 <= k < |rigs| ==> rigs[k].id != id
    ensures WithoutRig(rigs, id) == rigs
    decreases |rigs|
  {
    if rigs != [] {
      WithoutAbsentRig(rigs[1..], id);
    }
  }

  /** The filter leaves nothing exactly when every rig carries the id. */
  lemma {:induction false} WithoutRigEmpty(rigs: seq<Rig>, id: string)
    ensures WithoutRig(rigs, id) == [] <==> forall k :: 0 <= k < |rigs| ==> rigs[k].id == id
    decreases |rigs|
  {
    if rigs != [] {
      WithoutRigEmpty(rigs[1..], id);
      if WithoutRig(rigs, id) == [] {
        forall k | 0 <= k < |rigs|
          ensures rigs[k].id == id
        {
          if k > 0 { assert rigs[k] == rigs[1..][k - 1]; }
        }
      }
    }
  }

  predicate RigIdsDistinct(rigs: seq<Rig>) {
    forall i, j :: 0 <= i < j < |rigs| ==> rigs[i].id != rigs[j].id
  }

  /** With distinct ids, removing a listed id drops exactly that one rig. */
  lemma {:induction false} RemoveDistinctRig(rigs: seq<Rig>, id: string, k: nat)
    requires RigIdsDistinct(rigs)
    requires k < |rigs| && rigs[k].id == id
    ensures WithoutRig(rigs, id) == rigs[..k] + rigs[k + 1..]
    decreases k
  {
    var tail := rigs[1..];
    if k == 0 {
      assert forall j :: 0 <= j < |tail| ==> tail[j] == rigs[j + 1];
      WithoutAbsentRig(tail, id);
    } else {
      assert forall i, j :: 0 <= i < j < |tail| ==> tail[i] == rigs[i + 1] && tail[j] == rigs[j + 1];
      RemoveDistinctRig(tail, id, k - 1);
      assert rigs[..k] + rigs[k + 1..] == [rigs[0]] + (tail[..k - 1] + tail[k..]);
    }
  }

  /** Removing rigs keeps the remaining ids distinct. */
  lemma {:induction false} WithoutRigKeepsDistinct(rigs: seq<Rig>, id: string)
    requires RigIdsDistinct(rigs)
    ensures RigIdsDistinct(WithoutRig(rigs, id))
    decreases |rigs|
  {
    if rigs != [] {
      var tail := rigs[1..];
      assert forall i, j :: 0 <= i < j < |tail| ==> tail[i] == rigs[i + 1] && tail[j] == rigs[j + 1];
      WithoutRigKeepsDistinct(tail, id);
      var t := WithoutRig(tail, id);
      if rigs[0].id != id {
        var r := [rigs[0]] + t;
        forall j | 0 < j < |r|
          ensures r[0].id != r[j].id
        {
          WithoutRigMembers(tail, id, r[j]);
          var q :| 0 <= q < |tail| && tail[q] == r[j];
          assert rigs[q + 1] == r[j];
        }
        assert forall i, j :: 0 < i < j < |r| ==> r[i] == t[i - 1] && r[j] == t[j - 1];
      }
    }
  }

  // ---------------------------------------------------------------------------
  // Editing one item's cost
  // ---------------------------------------------------------------------------

  /** `category.items.map(item => item.id === itemId ? { ...item, cost } : item)`. */
  function EditItems(items: seq<Item>, itemId: string, cost: real): seq<Item> {
    seq(|items|, i requires 0 <= i < |items| =>
      if items[i].id == itemId then items[i].(cost := cost) else items[i])
  }

  /** `rig.costs.map(...)`: edits the items of the categories with the given id. */
  function EditCategories(cs: seq<Category>, categoryId: string, itemId: string, cost: real): seq<Category> {
    seq(|cs|, c requires 0 <= c < |cs| =>
      if cs[c].id == categoryId then cs[c].(items := EditItems(cs[c].items, itemId, cost)) else cs[c])
  }

  /** `rigs.map(...)`: edits the costs of every rig whose id is the selected id. */
  function EditRigs(rigs: seq<Rig>, selected: string, categoryId: string, itemId: string, cost: real): seq<Rig> {
    seq(|rigs|, k requires 0 <= k < |rigs| =>
      if rigs[k].id == selected then rigs[k].(costs := EditCategories(rigs[k].costs, categoryId, itemId, cost))
      else rigs[k])
  }

  /**
   * An edit sets the cost of the matching item of the matching category of
   * the selected rig(s); every other rig, category and item is unchanged, and
   * every id, name and list length is kept.
   */
  lemma EditTouchesOnlyTarget(rigs: seq<Rig>, selected: string, categoryId: string, itemId: string, cost: real)
    ensures var r := EditRigs(rigs, selected, categoryId, itemId, cost);
      && |r| == |rigs|
      && forall k :: 0 <= k < |rigs| ==>
           && r[k].id == rigs[k].id && r[k].name == rigs[k].name
           && (rigs[k].id != selected ==> r[k] == rigs[k])
           && |r[k].costs| == |rigs[k].costs|
           && forall c :: 0 <= c < |rigs[k].costs| ==>
                && (rigs[k].id != selected || rigs[k].costs[c].id != categoryId ==> r[k].costs[c] == rigs[k].costs[c])
                && r[k].costs[c].id == rigs[k].costs[c].id && r[k].costs[c].name == rigs[k].costs[c].name
                && |r[k].costs[c].items| == |rigs[k].costs[c].items|
                && forall i :: 0 <= i < |rigs[k].costs[c].items| ==>
                     r[k].costs[c].items[i] ==
                       if rigs[k].id == selected && rigs[k].costs[c].id == categoryId && rigs[k].costs[c].items[i].id == itemId
                       then rigs[k].costs[c].items[i].(cost := cost)
                       else rigs[k].costs[c].items[i]
  {
  }

  /** An edit changes costs only: the structure of the edited cost list is the old one. */
  lemma EditKeepsShape(cs: seq<Category>, categoryId: string, itemId: string, cost: real)
    ensures ShapeOf(EditCategories(cs, categoryId, itemId, cost)) == ShapeOf(cs)
  {
    var e := EditCategories(cs, categoryId, itemId, cost);
    forall c | 0 <= c < |cs|
      ensures ShapeOf(e)[c] == ShapeOf(cs)[c]
    {
      assert ShapeOf(e)[c].items == ShapeOf(cs)[c].items;
    }
  }

  /** An edit keeps every rig id, and the distinct ids of every rig's categories and items. */
  lemma EditKeepsIdsDistinct(rigs: seq<Rig>, selected: string, categoryId: string, itemId: string, cost: real)
    requires forall k :: 0 <= k < |rigs| ==> TaxonomyIdsDistinct(rigs[k].costs)
    ensures var r := EditRigs(rigs, selected, categoryId, itemId, cost);
      |r| == |rigs| && forall k :: 0 <= k < |r| ==> TaxonomyIdsDistinct(r[k].costs) && r[k].id == rigs[k].id
  {
    var r := EditRigs(rigs, selected, categoryId, itemId, cost);
    forall k | 0 <= k < |r|
      ensures TaxonomyIdsDistinct(r[k].costs)
    {
      EditKeepsShape(rigs[k].costs, categoryId, itemId, cost);
      IdsDistinctOfSameShape(r[k].costs, rigs[k].costs);
    }
  }

  /** A second edit of the same item overrides the first. */
  lemma EditLastWins(rigs: seq<Rig>, selected: string, categoryId: string, itemId: string, first: real, second: real)
    ensures EditRigs(EditRigs(rigs, selected, categoryId, itemId, first), selected, categoryId, itemId, second)
         == EditRigs(rigs, selected, categoryId, itemId, second)
  {
    var once := EditRigs(rigs, selected, categoryId, itemId, first);
    var twice := EditRigs(once, selected, categoryId, itemId, second);
    var direct := EditRigs(rigs, selected, categoryId, itemId, second);
    forall k | 0 <= k < |rigs|
      ensures twice[k] == direct[k]
    {
      if rigs[k].id == selected {
        var cs := rigs[k].costs;
        forall c | 0 <= c < |cs|
          ensures twice[k].costs[c] == direct[k].costs[c]
        {
          if cs[c].id == categoryId {
            assert twice[k].costs[c].items == direct[k].costs[c].items;
          }
        }
        assert twice[k].costs == direct[k].costs;
      }
    }
  }

  /** Replacing one item of a list moves the sum by the change in that item's cost. */
  lemma SumItemsReplace(items: seq<Item>, i: nat, y: Item)
    requires i < |items|
    ensures SumItems(items[..i] + [y] + items[i + 1..]) == SumItems(items) - items[i].cost + y.cost
  {
    var x := items[i];
    assert items == items[..i] + [x] + items[i + 1..];
    SumItemsAppend(items[..i] + [x], items[i + 1..]);
    SumItemsAppend(items[..i], [x]);
    SumItemsAppend(items[..i] + [y], items[i + 1..]);
    SumItemsAppend(items[..i], [y]);
    assert SumItems([x]) == x.cost by { assert [x][..0] == []; }
    assert SumItems([y]) == y.cost by { assert [y][..0] == []; }
  }

  /** Editing the one item with `itemId` moves the item total by the change in its cost. */
  lemma EditItemsSum(items: seq<Item>, itemId: string, cost: real, i: nat)
    requires i < |items| && items[i].id == itemId
    requires forall j :: 0 <= j < |items| && j != i ==> items[j].id != itemId
    ensures SumItems(EditItems(items, itemId, cost)) == SumItems(items) - items[i].cost + cost
  {
    var y := items[i].(cost := cost);
    assert EditItems(items, itemId, cost) == items[..i] + [y] + items[i + 1..];
    SumItemsReplace(items, i, y);
  }

  /** Replacing one category of a cost list moves the sum by the change in that category's total. */
  lemma SumCategoriesReplace(cs: seq<Category>, c: nat, y: Category)
    requires c < |cs|
    ensures SumCategories(cs[..c] + [y] + cs[c + 1..]) == SumCategories(cs) - CategoryTotal(cs[c]) + CategoryTotal(y)
  {
    var x := cs[c];
    assert cs == cs[..c] + [x] + cs[c + 1..];
    SumCategoriesAppend(cs[..c] + [x], cs[c + 1..]);
    SumCategoriesAppend(cs[..c], [x]);
    SumCategoriesAppend(cs[..c] + [y], cs[c + 1..]);
    SumCategoriesAppend(cs[..c], [y]);
    assert SumCategories([x]) == CategoryTotal(x) by { assert [x][..0] == []; }
    assert SumCategories([y]) == CategoryTotal(y) by { assert [y][..0] == []; }
  }

  /** Editing one item of a cost list moves the sum of the category totals by the change in its cost. */
  lemma EditCategoriesSum(cs: seq<Category>, categoryId: string, itemId: string, cost: real, c: nat, i: nat)
    requires TaxonomyIdsDistinct(cs)
    requires c < |cs| && cs[c].id == categoryId
    requires i < |cs[c].items| && cs[c].items[i].id == itemId
    ensures SumCategories(EditCategories(cs, categoryId, itemId, cost))
         == SumCategories(cs) - cs[c].items[i].cost + cost
  {
    var e := EditCategories(cs, categoryId, itemId, cost);
    var items := cs[c].items;
    var y := cs[c].(items := EditItems(items, itemId, cost));
    assert ItemIdsDistinct(items);
    assert forall j :: 0 <= j < |items| && j != i ==> items[j].id != itemId;
    EditItemsSum(items, itemId, cost, i);
    assert CategoryIdsDistinct(cs);
    assert forall j :: 0 <= j < |cs| && j != c ==> cs[j].id != categoryId;
    assert e == cs[..c] + [y] + cs[c + 1..];
    SumCategoriesReplace(cs, c, y);
  }

  /**
   * When the selected rig is the first with its id and its category and item
   * ids are distinct (as in the taxonomy), an edit of one of its items moves the grand total by exactly
   * the change in that item's cost.
   */
  lemma EditChangesGrandTotal(rigs: seq<Rig>, selected: string, categoryId: string, itemId: string, cost: real,
                              k: nat, c: nat, i: nat)
    requires k < |rigs| && rigs[k].id == selected
    requires forall j :: 0 <= j < k ==> rigs[j].id != selected
    requires TaxonomyIdsDistinct(rigs[k].costs)
    requires c < |rigs[k].costs| && rigs[k].costs[c].id == categoryId
    requires i < |rigs[k].costs[c].items| && rigs[k].costs[c].items[i].id == itemId
    ensures GrandTotal(EditRigs(rigs, selected, categoryId, itemId, cost), selected)
         == GrandTotal(rigs, selected) - rigs[k].costs[c].items[i].cost + cost
  {
    var e := EditRigs(rigs, selected, categoryId, itemId, cost);
    FindRigFirst(rigs, selected, k);
    FindRigFirst(e, selected, k);
    EditCategoriesSum(rigs[k].costs, categoryId, itemId, cost, c, i);
  }

  // ---------------------------------------------------------------------------
  // The screen's state and its handlers
  // ---------------------------------------------------------------------------

  /** The state of the cost-breakdown screen: the rigs and the selected rig id. */
  class RigCostScenarios {
    var rigs: seq<Rig>
    var selectedRig: string

    /**
     * Every rig's categories, and the items of each category, have distinct
     * ids, and while any rig is listed the selected id is one of theirs.
     */
    ghost predicate Valid()
      reads this
    {
      && (forall k :: 0 <= k < |rigs| ==> TaxonomyIdsDistinct(rigs[k].costs))
      && (rigs != [] ==> FindRig(rigs, selectedRig).Some?)
    }

    /**
     * While any rig is listed, the screen shows the costs and the grand total
     * of the first rig carrying the selected id, and their ids are distinct.
     */
    lemma ShownRigIsFirstSelected()
      requires Valid() && rigs != []
      ensures exists k :: 0 <= k < |rigs| && rigs[k].id == selectedRig
                          && (forall j :: 0 <= j < k ==> rigs[j].id != selectedRig)
                          && CurrentRigCosts(rigs, selectedRig) == rigs[k].costs
                          && GrandTotal(rigs, selectedRig) == RigTotal(rigs[k])
      ensures TaxonomyIdsDistinct(CurrentRigCosts(rigs, selectedRig))
    {
      FindRigIndex(rigs, selectedRig);
    }

    /** The initial state: two fresh rigs, `rig-1` selected. */
    constructor ()
      ensures Valid()
      ensures rigs == InitialRigs(InitialCosts()) && selectedRig == "rig-1"
    {
      InitialCostsFresh();
      selectedRig := "rig-1";
      rigs := [Rig("rig-1", "Rig 1", InitialCosts()), Rig("rig-2", "Rig 2", InitialCosts())];
    }

    /**
     * `addNewRig`: appends rig number `|rigs| + 1`, holding a freshly built
     * taxonomy, and selects it.
     */
    method AddNewRig()
      requires Valid()
      modifies this
      ensures Valid()
      ensures rigs == old(rigs) + [NewRig(|old(rigs)| + 1, InitialCosts())]
      ensures selectedRig == RigId(|old(rigs)| + 1)
    {
      InitialCostsFresh();
      var newRigNumber := |rigs| + 1;
      var newRig := Rig(RigId(newRigNumber), RigName(newRigNumber), InitialCosts());
      rigs := rigs + [newRig];
      selectedRig := newRig.id;
      assert rigs[|rigs| - 1].id == selectedRig;
    }

    /**
     * `removeRig(rigId)`. With at most one rig nothing happens. Otherwise every
     * rig with that id is filtered out; if the selected rig was removed, the
     * first remaining rig is selected. When nothing remains, reading
     * `updatedRigs[0].id` throws: `crashed` reports that, and the state is the
     * already-issued empty list with the selection unchanged.
     */
    method RemoveRig(rigId: string) returns (crashed: bool)
      requires Valid()
      modifies this
      ensures Valid()
      ensures |old(rigs)| <= 1 ==> !crashed && rigs == old(rigs) && selectedRig == old(selectedRig)
      ensures |old(rigs)| > 1 ==> rigs == WithoutRig(old(rigs), rigId)
      ensures crashed <==> |old(rigs)| > 1 && old(selectedRig) == rigId && rigs == []
      ensures !crashed && |old(rigs)| > 1 && old(selectedRig) == rigId ==> selectedRig == rigs[0].id
      ensures crashed || old(selectedRig) != rigId ==> selectedRig == old(selectedRig)
    {
      crashed := false;
      if |rigs| > 1 {
        var updatedRigs := WithoutRig(rigs, rigId);
        forall k | 0 <= k < |updatedRigs|
          ensures TaxonomyIdsDistinct(updatedRigs[k].costs)
        {
          WithoutRigMembers(rigs, rigId, updatedRigs[k]);
          var j :| 0 <= j < |rigs| && rigs[j] == updatedRigs[k];
        }
        if selectedRig != rigId {
          var current := FindRig(rigs, selectedRig).value;
          WithoutRigMembers(rigs, rigId, current);
        }
        rigs := updatedRigs;
        if selectedRig == rigId {
          if updatedRigs == [] {
            crashed := true;
          } else {
            selectedRig := updatedRigs[0].id;
          }
        }
      }
    }

    /**
     * `handleCostChange`: sets the item `itemId` of the category `categoryId`
     * of the selected rig to `parseFloat(value) || 0`.
     */
    method HandleCostChange(categoryId: string, itemId: string, value: string, parse: Parser)
      requires Valid()
      modifies this
      ensures Valid()
      ensures rigs == EditRigs(old(rigs), selectedRig, categoryId, itemId, Coerce(parse, value))
      ensures selectedRig == old(selectedRig)
    {
      var updatedRigs := EditRigs(rigs, selectedRig, categoryId, itemId, Coerce(parse, value));
      EditKeepsIdsDistinct(rigs, selectedRig, categoryId, itemId, Coerce(parse, value));
      rigs := updatedRigs;
    }

    /** The rig selector: picks one of the listed rigs' ids. */
    method SelectRig(rigId: string)
      requires Valid()
      requires FindRig(rigs, rigId).Some?
      modifies this
      ensures Valid()
      ensures selectedRig == rigId && rigs == old(rigs)
    {
      selectedRig := rigId;
    }
  }

  // ---------------------------------------------------------------------------
  // Scenarios through the handlers
  // ---------------------------------------------------------------------------

  /**
   * Ids are not unique: remove `rig-1` (selected), add a rig, and the list is
   * two rigs both called `rig-2`; removing the selected rig then filters out
   * both and `updatedRigs[0].id` throws.
   */
  method DuplicateIdCrash() returns (crashed: bool)
    ensures crashed
  {
    var screen := new RigCostScenarios();
    RemoveThenAddRepeatsId(InitialCosts());
    var first := screen.RemoveRig("rig-1");
    screen.AddNewRig();
    crashed := screen.RemoveRig(screen.selectedRig);
  }

  /**
   * The lists behind that crash: removing `rig-1` from the initial rigs leaves
   * rig number 2 alone, the rig then added as number 2 repeats its id, and
   * filtering that id out of the two leaves nothing.
   */
  lemma RemoveThenAddRepeatsId(costs: seq<Category>)
    ensures WithoutRig(InitialRigs(costs), "rig-1") == [NewRig(2, costs)]
    ensures RigId(2) == "rig-2"
    ensures WithoutRig([NewRig(2, costs), NewRig(2, costs)], "rig-2") == []
  {
    InitialRigsAreNumbered(costs);
    assert DecimalString(2) == "2";
    assert "rig-1" != "rig-2";
    var r := [NewRig(2, costs), NewRig(2, costs)];
    assert r[1..] == [NewRig(2, costs)];
  }

  /** Entering 50000 as the land cost of `rig-1` makes the grand total 50000. */
  method LandCostScenario(parse: Parser) returns (grand: real)
    requires parse("50000") == Some(50000.0)
    ensures grand == 50000.0
  {
    var screen := new RigCostScenarios();
    InitialCostsFresh();
    var before := screen.rigs;
    FreshRigTotalZero(before[0]);
    FindRigFirst(before, "rig-1", 0);
    screen.HandleCostChange("pre-drilling", "land", "50000", parse);
    EditChangesGrandTotal(before, "rig-1", "pre-drilling", "land", 50000.0, 0, 0, 0);
    grand := GrandTotal(screen.rigs, screen.selectedRig);
  }

  /**
   * A rig added to the initial screen is `rig-3` and is selected; removing
   * `rig-1` afterwards leaves `rig-2` and `rig-3`, with `rig-3` still
   * selected.
   */
  method AddThenRemoveScenario() returns (ids: seq<string>, selected: string)
    ensures ids == ["rig-2", "rig-3"] && selected == "rig-3"
  {
    var screen := new RigCostScenarios();
    AddThenRemoveLists(InitialCosts());
    screen.AddNewRig();
    var _ := screen.RemoveRig("rig-1");
    ids := [screen.rigs[0].id, screen.rigs[1].id];
    selected := screen.selectedRig;
  }

  /**
   * The lists behind that scenario: rig number 3 is `rig-3`, and removing
   * `rig-1` from the initial rigs followed by it leaves rigs 2 and 3.
   */
  lemma AddThenRemoveLists(costs: seq<Category>)
    ensures RigId(2) == "rig-2" && RigId(3) == "rig-3" && RigId(3) != "rig-1"
    ensures WithoutRig(InitialRigs(costs) + [NewRig(3, costs)], "rig-1") == [NewRig(2, costs), NewRig(3, costs)]
  {
    InitialRigsAreNumbered(costs);
    assert DecimalString(2) == "2";
    assert DecimalString(3) == "3";
    var r := InitialRigs(costs) + [NewRig(3, costs)];
    assert r[0].id == "rig-1" && r[1].id == "rig-2" && r[2].id == "rig-3";
    assert r[1..][1..] == [NewRig(3, costs)];
    assert WithoutRig(r[1..][1..], "rig-1") == [NewRig(3, costs)];
  }

  // ---------------------------------------------------------------------------
  // A corrected id rule
  // ---------------------------------------------------------------------------

  /**
   * Ids are distinct, and no `rig-m` with `m >= next` is used yet: the
   * invariant of an id rule that draws rig numbers from a counter `next`
   * that only grows, instead of from the list length.
   */
  ghost predicate IdsFreshFrom(rigs: seq<Rig>, next: nat) {
    && RigIdsDistinct(rigs)
    && forall m: nat :: next <= m ==> FindRig(rigs, RigId(m)).None?
  }

  /** The initial rigs satisfy the counter invariant with the counter at 3. */
  lemma InitialIdsFreshFrom3(costs: seq<Category>)
    ensures IdsFreshFrom(InitialRigs(costs), 3)
  {
    InitialRigsAreNumbered(costs);
    forall m: nat | 3 <= m
      ensures FindRig(InitialRigs(costs), RigId(m)).None?
    {
      if RigId(m) == RigId(1) { RigIdInjective(m, 1); }
      if RigId(m) == RigId(2) { RigIdInjective(m, 2); }
    }
  }

  /** Adding rig number `next` and advancing the counter keeps ids distinct and fresh. */
  lemma CountedAddKeepsIdsFresh(rigs: seq<Rig>, next: nat, costs: seq<Category>)
    requires IdsFreshFrom(rigs, next)
    ensures IdsFreshFrom(rigs + [NewRig(next, costs)], next + 1)
  {
    var added := NewRig(next, costs);
    var r := rigs + [added];
    assert forall k :: 0 <= k < |rigs| ==> rigs[k].id != added.id by {
      assert FindRig(rigs, RigId(next)).None?;
    }
    assert forall k :: 0 <= k < |r| - 1 ==> r[k] == rigs[k];
    assert RigIdsDistinct(r);
    forall m: nat | next + 1 <= m
      ensures FindRig(r, RigId(m)).None?
    {
      assert FindRig(rigs, RigId(m)).None?;
      assert RigId(m) != added.id;
    }
  }

  /** Removing a rig keeps the counter invariant. */
  lemma CountedRemoveKeepsIdsFresh(rigs: seq<Rig>, id: string, next: nat)
    requires IdsFreshFrom(rigs, next)
    ensures IdsFreshFrom(WithoutRig(rigs, id), next)
  {
    var r := WithoutRig(rigs, id);
    WithoutRigKeepsDistinct(rigs, id);
    forall m: nat | next <= m
      ensures FindRig(r, RigId(m)).None?
    {
      assert FindRig(rigs, RigId(m)).None?;
      forall k | 0 <= k < |r|
        ensures r[k].id != RigId(m)
      {
        WithoutRigMembers(rigs, id, r[k]);
      }
    }
  }

  /**
   * Under the counter invariant, removing from a list of more than one rig
   * drops at most one rig, so a rig always remains and selecting
   * `updatedRigs[0]` cannot fail.
   */
  lemma CountedRemoveKeepsARig(rigs: seq<Rig>, id: string, next: nat)
    requires IdsFreshFrom(rigs, next) && |rigs| > 1
    ensures |WithoutRig(rigs, id)| >= |rigs| - 1 >= 1
  {
    if k :| 0 <= k < |rigs| && rigs[k].id == id {
      RemoveDistinctRig(rigs, id, k);
    } else {
      WithoutAbsentRig(rigs, id);
    }
  }
}
