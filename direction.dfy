/** The income/expense direction of categories: a category is an income
    category when it is the root "Income" or a child of it, and a transaction
    may only carry a category of its own direction (transfers carry any). */
module Direction {
  import opened Common
  import opened Db

  const IncomeParentName: string := "Income"

  /** A category together with the name of its parent, if it has one. */
  datatype CategoryWithParent = CategoryWithParent(id: string, name: string, parentName: Option<string>)

  /** `categories.find(c => c.id === id)`: the first category with that id. */
  function FindCategory(categories: seq<CategoryWithParent>, id: string): (r: Option<CategoryWithParent>)
    ensures r.None? <==> forall i :: 0 <= i < |categories| ==> categories[i].id != id
    ensures r.Some? ==>
      exists i :: 0 <= i < |categories| && categories[i] == r.value && r.value.id == id
        && forall j :: 0 <= j < i ==> categories[j].id != id
  {
    if categories == [] then None
    else if categories[0].id == id then Some(categories[0])
    else
      var r := FindCategory(categories[1..], id);
      assert forall j :: 1 <= j < |categories| ==> categories[j] == categories[1..][j - 1];
      r
  }

  /** The category is the "Income" root or a child of it. */
  predicate IsIncomeRow(c: CategoryWithParent) {
    (c.parentName.None? && c.name == IncomeParentName) || c.parentName == Some(IncomeParentName)
  }

  /** `isIncomeCategorySync`: whether the category with this id is an income
      category; an id that is not listed is never income. */
  function IsIncomeCategorySync(categoryId: string, categories: seq<CategoryWithParent>): (b: bool)
    ensures (forall i :: 0 <= i < |categories| ==> categories[i].id != categoryId) ==> !b
    ensures b ==> exists i :: 0 <= i < |categories| && categories[i].id == categoryId && IsIncomeRow(categories[i])
  {
    match FindCategory(categories, categoryId)
    case None => false
    case Some(cat) =>
      if cat.parentName.None? && cat.name == IncomeParentName then true
      else cat.parentName == Some(IncomeParentName)
  }

  /** With unique ids, a category is income exactly when its own row says so. */
  lemma IncomeIffRow(categories: seq<CategoryWithParent>, i: int)
    requires 0 <= i < |categories|
    requires forall a, b :: 0 <= a < b < |categories| ==> categories[a].id != categories[b].id
    ensures IsIncomeCategorySync(categories[i].id, categories) <==> IsIncomeRow(categories[i])
  {
    var r := FindCategory(categories, categories[i].id);
    var k :| 0 <= k < |categories| && categories[k] == r.value && r.value.id == categories[i].id
      && forall j :: 0 <= j < k ==> categories[j].id != categories[i].id;
    assert k == i;
  }

  /** `isCategoryDirectionCompatible`: transfers take any category, income
      transactions only income categories, expenses only the others. */
  function IsCategoryDirectionCompatible(t: TxType, categoryId: string, categories: seq<CategoryWithParent>): (b: bool)
    ensures t == Transfer ==> b
    ensures t == Income ==> (b <==> IsIncomeCategorySync(categoryId, categories))
    ensures t == Expense ==> (b <==> !IsIncomeCategorySync(categoryId, categories))
  {
    if t == Transfer then true
    else
      var isIncome := IsIncomeCategorySync(categoryId, categories);
      if t == Income then isIncome
      else !isIncome
  }

  /** Every category suits exactly one of the two directions. */
  lemma DirectionsComplementary(categoryId: string, categories: seq<CategoryWithParent>)
    ensures IsCategoryDirectionCompatible(Income, categoryId, categories)
        != IsCategoryDirectionCompatible(Expense, categoryId, categories)
  {
  }

  /** The categories of `cs` compatible with `t`, judged against the whole list `all`. */
  function CompatibleOf(t: TxType, cs: seq<CategoryWithParent>, all: seq<CategoryWithParent>): (r: seq<CategoryWithParent>)
    ensures |r| <= |cs|
  {
    if cs == [] then []
    else
      var init := CompatibleOf(t, cs[..|cs| - 1], all);
      var c := cs[|cs| - 1];
      if IsCategoryDirectionCompatible(t, c.id, all) then init + [c] else init
  }

  /** The filter keeps exactly the compatible categories. */
  lemma {:induction false} CompatibleOfMembers(t: TxType, cs: seq<CategoryWithParent>, all: seq<CategoryWithParent>)
    ensures forall c :: c in CompatibleOf(t, cs, all) <==> c in cs && IsCategoryDirectionCompatible(t, c.id, all)
  {
    if cs != [] {
      var init, c := cs[..|cs| - 1], cs[|cs| - 1];
      CompatibleOfMembers(t, init, all);
      assert cs == init + [c];
    }
  }

  /** `filterCategoriesByDirection`: the whole list for transfers, otherwise the
      categories of the transaction's direction. */
  function FilterCategoriesByDirection(t: TxType, categories: seq<CategoryWithParent>): (r: seq<CategoryWithParent>)
    ensures t == Transfer ==> r == categories
    ensures forall c :: c in r <==> c in categories && IsCategoryDirectionCompatible(t, c.id, categories)
  {
    if t == Transfer then categories
    else
      CompatibleOfMembers(t, categories, categories);
      CompatibleOf(t, categories, categories)
  }

  /** The filter keeps the original order: filtering a concatenation is the
      concatenation of the filtered parts. */
  lemma {:induction false} CompatibleOfAppend(t: TxType, xs: seq<CategoryWithParent>, ys: seq<CategoryWithParent>,
                                              all: seq<CategoryWithParent>)
    ensures CompatibleOf(t, xs + ys, all) == CompatibleOf(t, xs, all) + CompatibleOf(t, ys, all)
    decreases |ys|
  {
    if ys == [] {
      assert xs + ys == xs;
    } else {
      var ys', y := ys[..|ys| - 1], ys[|ys| - 1];
      assert (xs + ys)[..|xs + ys| - 1] == xs + ys';
      assert (xs + ys)[|xs + ys| - 1] == y;
      CompatibleOfAppend(t, xs, ys', all);
      var keep := IsCategoryDirectionCompatible(t, y.id, all);
      assert CompatibleOf(t, ys, all) == CompatibleOf(t, ys', all) + (if keep then [y] else []);
      assert CompatibleOf(t, xs + ys, all) == CompatibleOf(t, xs + ys', all) + (if keep then [y] else []);
    }
  }

  /** The income filter and the expense filter split the list: every category
      lands in exactly one of them, with its multiplicity. */
  lemma {:induction false} DirectionsPartition(cs: seq<CategoryWithParent>, all: seq<CategoryWithParent>)
    ensures multiset(CompatibleOf(Income, cs, all)) + multiset(CompatibleOf(Expense, cs, all)) == multiset(cs)
    ensures |CompatibleOf(Income, cs, all)| + |CompatibleOf(Expense, cs, all)| == |cs|
  {
    if cs != [] {
      var init, c := cs[..|cs| - 1], cs[|cs| - 1];
      DirectionsPartition(init, all);
      DirectionsComplementary(c.id, all);
      var inc, exp := CompatibleOf(Income, init, all), CompatibleOf(Expense, init, all);
      assert multiset(cs) == multiset(init) + multiset{c} by {
        assert cs == init + [c];
      }
      if IsCategoryDirectionCompatible(Income, c.id, all) {
        assert CompatibleOf(Income, cs, all) == inc + [c];
        assert CompatibleOf(Expense, cs, all) == exp;
      } else {
        assert CompatibleOf(Income, cs, all) == inc;
        assert CompatibleOf(Expense, cs, all) == exp + [c];
      }
    }
  }
}
