/** `/api/categories`: `GET` returns the household's categories as a
    two-level tree (the top-level categories in name order, each with its
    children in name order); `POST` creates a category with a trimmed,
    non-blank name under an optional parent. Every exception, a failed
    `requireAuth` included, answers 500. */
module CategoriesRoute {
  import opened Common
  import opened Db

  /** The JSON body of `POST`; a missing field is None. */
  datatype CreateBody = CreateBody(name: Option<string>, icon: Option<string>, color: Option<string>,
                                   parentId: Option<string>)

  datatype ChildView = ChildView(id: string, name: string, icon: Option<string>, color: Option<string>)

  datatype CategoryNode = CategoryNode(
    id: string,
    name: string,
    icon: Option<string>,
    color: Option<string>,
    parentId: Option<string>,
    isSystem: bool,
    children: seq<ChildView>)

  datatype ResponseBody = ErrorBody(error: string) | Nested(categories: seq<CategoryNode>)
                        | Created(id: string, category: CategoryRow)
  datatype Response = Response(status: nat, body: ResponseBody)

  const FetchFailedMessage: string := "Failed to fetch categories"
  const CreateFailedMessage: string := "Failed to create category"
  const NameRequiredMessage: string := "name is required"
  const ParentNotFoundMessage: string := "Parent category not found"

  // ---------------------------------------------------------------------
  // GET: the tree

  /** A category of the query result is top-level when its `parentId` is
      falsy. */
  predicate IsRoot(c: (string, CategoryRow)) {
    !IsSet(c.1.parentId)
  }

  /** A category is a child of `id` when its `parentId` is `id`. */
  predicate IsChildOf(c: (string, CategoryRow), id: string) {
    IsSet(c.1.parentId) && c.1.parentId.value == id
  }

  /** `allCategories.filter((c) => !c.parentId)`. */
  function Roots(cats: seq<(string, CategoryRow)>): (r: seq<(string, CategoryRow)>)
    ensures |r| <= |cats|
    ensures forall x :: x in r <==> x in cats && IsRoot(x)
  {
    if cats == [] then []
    else
      var init := Roots(cats[..|cats| - 1]);
      var last := cats[|cats| - 1];
      assert forall x :: x in cats <==> x in cats[..|cats| - 1] || x == last;
      if IsRoot(last) then init + [last] else init
  }

  function ChildOf(c: (string, CategoryRow)): ChildView {
    ChildView(c.0, c.1.name, c.1.icon, c.1.color)
  }

  /** `children.filter((c) => c.parentId === id).map(...)`. */
  function ChildrenOf(cats: seq<(string, CategoryRow)>, id: string): (r: seq<ChildView>)
    ensures |r| <= |cats|
    ensures forall v :: v in r <==> exists x :: x in cats && IsChildOf(x, id) && v == ChildOf(x)
  {
    if cats == [] then []
    else
      var init := ChildrenOf(cats[..|cats| - 1], id);
      var last := cats[|cats| - 1];
      assert forall x :: x in cats <==> x in cats[..|cats| - 1] || x == last;
      if IsChildOf(last, id) then init + [ChildOf(last)] else init
  }

  function NodeOf(cats: seq<(string, CategoryRow)>, root: (string, CategoryRow)): CategoryNode {
    CategoryNode(root.0, root.1.name, root.1.icon, root.1.color, root.1.parentId, root.1.isSystem,
                 ChildrenOf(cats, root.0))
  }

  /** `parents.map(...)`: one node per top-level category, in query order. */
  function Nest(cats: seq<(string, CategoryRow)>): (r: seq<CategoryNode>)
    ensures |r| == |Roots(cats)|
    ensures forall i :: 0 <= i < |r| ==> r[i] == NodeOf(cats, Roots(cats)[i])
  {
    var roots := Roots(cats);
    seq(|roots|, i requires 0 <= i < |roots| => NodeOf(cats, roots[i]))
  }

  /** Whether `id` shows anywhere in the tree, as a node or as a child. */
  predicate Shown(tree: seq<CategoryNode>, id: string) {
    (exists i :: 0 <= i < |tree| && tree[i].id == id)
    || (exists i, k :: 0 <= i < |tree| && 0 <= k < |tree[i].children| && tree[i].children[k].id == id)
  }

  /** Ids are unique in a query result. */
  predicate DistinctIds(cats: seq<(string, CategoryRow)>) {
    forall i, j :: 0 <= i < j < |cats| ==> cats[i].0 != cats[j].0
  }

  /** The top level holds exactly the top-level categories, each once: a
      node for every root, and every node is one. */
  lemma {:induction false} TopLevelExactly(cats: seq<(string, CategoryRow)>, id: string)
    requires DistinctIds(cats)
    ensures (exists i :: 0 <= i < |Nest(cats)| && Nest(cats)[i].id == id)
      <==> exists x :: x in cats && IsRoot(x) && x.0 == id
  {
    var roots := Roots(cats);
    if exists x :: x in cats && IsRoot(x) && x.0 == id {
      var x :| x in cats && IsRoot(x) && x.0 == id;
      assert x in roots;
      var i :| 0 <= i < |roots| && roots[i] == x;
      assert Nest(cats)[i].id == id;
    }
    if exists i :: 0 <= i < |Nest(cats)| && Nest(cats)[i].id == id {
      var i :| 0 <= i < |Nest(cats)| && Nest(cats)[i].id == id;
      assert roots[i] in roots;
    }
  }

  /** A category whose parent is not a top-level category of the result (a
      grandchild, or a parent that is missing) shows nowhere in the tree. */
  lemma OrphanNowhere(cats: seq<(string, CategoryRow)>, c: (string, CategoryRow))
    requires DistinctIds(cats)
    requires c in cats && IsSet(c.1.parentId)
    requires forall x :: x in cats && IsRoot(x) ==> x.0 != c.1.parentId.value
    ensures !Shown(Nest(cats), c.0)
  {
    var tree := Nest(cats);
    var roots := Roots(cats);
    forall i | 0 <= i < |tree|
      ensures tree[i].id != c.0
    {
      assert roots[i] in roots;
      if tree[i].id == c.0 {
        SameId(cats, roots[i], c);
      }
    }
    forall i, k | 0 <= i < |tree| && 0 <= k < |tree[i].children|
      ensures tree[i].children[k].id != c.0
    {
      assert tree[i].children[k] in ChildrenOf(cats, roots[i].0);
      assert roots[i] in roots;
    }
  }

  /** Two entries of a result with distinct ids that share an id are the same. */
  lemma SameId(cats: seq<(string, CategoryRow)>, x: (string, CategoryRow), y: (string, CategoryRow))
    requires DistinctIds(cats)
    requires x in cats && y in cats && x.0 == y.0
    ensures x == y
  {
    var i :| 0 <= i < |cats| && cats[i] == x;
    var j :| 0 <= j < |cats| && cats[j] == y;
    if i < j {
    } else if j < i {
    }
  }

  /** Filtering keeps the query's order: when the result is sorted by
      `rank` (the collation order of names), so is the top level. */
  lemma {:induction false} RootsKeepOrder(cats: seq<(string, CategoryRow)>, rank: CategoryRow -> int)
    requires forall i, j :: 0 <= i < j < |cats| ==> rank(cats[i].1) <= rank(cats[j].1)
    ensures forall i, j :: 0 <= i < j < |Roots(cats)| ==> rank(Roots(cats)[i].1) <= rank(Roots(cats)[j].1)
  {
    if cats != [] {
      var init := cats[..|cats| - 1];
      RootsKeepOrder(init, rank);
      var last := cats[|cats| - 1];
      forall x | x in Roots(init)
        ensures rank(x.1) <= rank(last.1)
      {
        var k :| 0 <= k < |init| && init[k] == x;
      }
    }
  }

  /** The same for the children of every node. */
  lemma {:induction false} ChildrenKeepOrder(cats: seq<(string, CategoryRow)>, id: string, rank: string -> int)
    requires forall i, j :: 0 <= i < j < |cats| ==> rank(cats[i].1.name) <= rank(cats[j].1.name)
    ensures forall i, j :: 0 <= i < j < |ChildrenOf(cats, id)| ==>
      rank(ChildrenOf(cats, id)[i].name) <= rank(ChildrenOf(cats, id)[j].name)
  {
    if cats != [] {
      var init := cats[..|cats| - 1];
      ChildrenKeepOrder(init, id, rank);
      var last := cats[|cats| - 1];
      forall v | v in ChildrenOf(init, id)
        ensures rank(v.name) <= rank(last.1.name)
      {
        var x :| x in init && IsChildOf(x, id) && v == ChildOf(x);
        var k :| 0 <= k < |init| && init[k] == x;
      }
    }
  }

  /** The household's categories in name order, each once: what the query
      of `GET` returns, `rank` being the collation order of names. */
  predicate HouseholdByName(cats: seq<(string, CategoryRow)>, rows: map<string, CategoryRow>, householdId: string,
                            rank: string -> int)
  {
    && DistinctIds(cats)
    && (forall i :: 0 <= i < |cats| ==> cats[i].0 in rows && cats[i].1 == rows[cats[i].0]
                                        && cats[i].1.householdId == householdId)
    && (forall id :: id in rows && rows[id].householdId == householdId ==> exists i :: 0 <= i < |cats| && cats[i].0 == id)
    && (forall i, j :: 0 <= i < j < |cats| ==> rank(cats[i].1.name) <= rank(cats[j].1.name))
  }

  /** `GET`: the tree built from the household's categories in name order. */
  method List(session: Result<Session>, categories: CategoryTable, rank: string -> int) returns (response: Response)
    ensures session.Err? ==> response == Response(500, ErrorBody(FetchFailedMessage))
    ensures session.Ok? ==>
      && response.status == 200 && response.body.Nested?
      && exists cats :: HouseholdByName(cats, categories.rows, session.value.householdId, rank)
                        && response.body.categories == Nest(cats)
  {
    if session.Err? {
      return Response(500, ErrorBody(FetchFailedMessage));
    }
    var h := session.value.householdId;
    var rows := categories.rows;
    var ids := SelectOrdered(rows, (c: CategoryRow) => c.householdId == h, (c: CategoryRow) => rank(c.name));
    var cats := seq(|ids|, i requires 0 <= i < |ids| => (ids[i], rows[ids[i]]));
    forall id | id in rows && rows[id].householdId == h
      ensures exists i :: 0 <= i < |cats| && cats[i].0 == id
    {
      var i :| 0 <= i < |ids| && ids[i] == id;
      assert cats[i].0 == id;
    }
    assert HouseholdByName(cats, rows, h, rank);
    response := Response(200, Nested(Nest(cats)));
  }

  // ---------------------------------------------------------------------
  // POST

  /** `!body.name || body.name.trim().length === 0`. */
  predicate NameMissing(name: Option<string>) {
    !IsSet(name) || Trim(name.value) == ""
  }

  /** The parent test `POST` means (its comment: the parent exists and
      belongs to the household). */
  predicate ParentFound(rows: map<string, CategoryRow>, parentId: string, householdId: string) {
    parentId in rows && rows[parentId].householdId == householdId
  }

  /** The parent test as written: a lookup by id alone. */
  predicate ParentFoundAsWritten(rows: map<string, CategoryRow>, parentId: string) {
    parentId in rows
  }

  /** As written, another household's category passes as a parent. */
  lemma ForeignParentAccepted()
    ensures var rows := map["category:0" := CategoryRow("other", "Food", None, None, None, false)];
      ParentFoundAsWritten(rows, "category:0") && !ParentFound(rows, "category:0", "mine")
  {
  }

  /** The two tests agree on the household's own categories. */
  lemma ParentTestsAgree(rows: map<string, CategoryRow>, parentId: string, householdId: string)
    requires parentId in rows ==> rows[parentId].householdId == householdId
    ensures ParentFound(rows, parentId, householdId) <==> ParentFoundAsWritten(rows, parentId)
  {
  }

  /** `POST` as written: 400 for a blank name, 404 for a parent id that names
      no category at all, otherwise a new user category with the trimmed
      name. The parent is looked up by id alone, so a category of another
      household is accepted as the parent. */
  method Create(session: Result<Session>, body: Result<CreateBody>, categories: CategoryTable)
    returns (response: Response)
    requires categories.Valid()
    modifies categories
    ensures categories.Valid()
    ensures session.Err? || body.Err? ==>
      response == Response(500, ErrorBody(CreateFailedMessage)) && categories.rows == old(categories.rows)
    ensures session.Ok? && body.Ok? && NameMissing(body.value.name) ==>
      response == Response(400, ErrorBody(NameRequiredMessage)) && categories.rows == old(categories.rows)
    ensures session.Ok? && body.Ok? && !NameMissing(body.value.name) && IsSet(body.value.parentId)
            && !ParentFoundAsWritten(old(categories.rows), body.value.parentId.value) ==>
      response == Response(404, ErrorBody(ParentNotFoundMessage)) && categories.rows == old(categories.rows)
    ensures session.Ok? && body.Ok? && !NameMissing(body.value.name)
            && (IsSet(body.value.parentId) ==> ParentFoundAsWritten(old(categories.rows), body.value.parentId.value)) ==>
      && response.status == 201 && response.body.Created?
      && response.body.id !in old(categories.rows)
      && response.body.category == CategoryRow(session.value.householdId, Trim(body.value.name.value), body.value.icon,
                                               body.value.color, body.value.parentId, false)
      && categories.rows == old(categories.rows)[response.body.id := response.body.category]
  {
    if session.Err? || body.Err? {
      return Response(500, ErrorBody(CreateFailedMessage));
    }
    var b := body.value;
    if NameMissing(b.name) {
      return Response(400, ErrorBody(NameRequiredMessage));
    }
    if IsSet(b.parentId) && !ParentFoundAsWritten(categories.rows, b.parentId.value) {
      return Response(404, ErrorBody(ParentNotFoundMessage));
    }
    var row := CategoryRow(session.value.householdId, Trim(b.name.value), b.icon, b.color, b.parentId, false);
    var id := categories.Insert(row);
    response := Response(201, Created(id, row));
  }

  /** `POST` with the parent looked up within the session's household, as
      the comment above the lookup says it should be: a parent that is not
      one of the household's categories answers 404 and stores nothing. */
  method CreateScoped(session: Result<Session>, body: Result<CreateBody>, categories: CategoryTable)
    returns (response: Response)
    requires categories.Valid()
    modifies categories
    ensures categories.Valid()
    ensures session.Err? || body.Err? ==>
      response == Response(500, ErrorBody(CreateFailedMessage)) && categories.rows == old(categories.rows)
    ensures session.Ok? && body.Ok? && NameMissing(body.value.name) ==>
      response == Response(400, ErrorBody(NameRequiredMessage)) && categories.rows == old(categories.rows)
    ensures session.Ok? && body.Ok? && !NameMissing(body.value.name) && IsSet(body.value.parentId)
            && !ParentFound(old(categories.rows), body.value.parentId.value, session.value.householdId) ==>
      response == Response(404, ErrorBody(ParentNotFoundMessage)) && categories.rows == old(categories.rows)
    ensures session.Ok? && body.Ok? && !NameMissing(body.value.name)
            && (IsSet(body.value.parentId) ==>
                  ParentFound(old(categories.rows), body.value.parentId.value, session.value.householdId)) ==>
      && response.status == 201 && response.body.Created?
      && response.body.id !in old(categories.rows)
      && response.body.category == CategoryRow(session.value.householdId, Trim(body.value.name.value), body.value.icon,
                                               body.value.color, body.value.parentId, false)
      && categories.rows == old(categories.rows)[response.body.id := response.body.category]
    // Every stored parent is one of the household's own categories.
    ensures response.status == 201 && IsSet(response.body.category.parentId) ==>
      ParentFound(categories.rows, response.body.category.parentId.value, session.value.householdId)
  {
    if session.Err? || body.Err? {
      return Response(500, ErrorBody(CreateFailedMessage));
    }
    var b := body.value;
    if NameMissing(b.name) {
      return Response(400, ErrorBody(NameRequiredMessage));
    }
    if IsSet(b.parentId) && !ParentFound(categories.rows, b.parentId.value, session.value.householdId) {
      return Response(404, ErrorBody(ParentNotFoundMessage));
    }
    var row := CategoryRow(session.value.householdId, Trim(b.name.value), b.icon, b.color, b.parentId, false);
    var id := categories.Insert(row);
    response := Response(201, Created(id, row));
  }

  /** The route as written, end to end: with another household's category
      stored, a request from household "mine" naming it as the parent
      answers 201 and stores the child under it. */
  method ForeignParentCreated() returns (foreign: CategoryRow, response: Response, stored: map<string, CategoryRow>)
    ensures foreign.householdId != "mine"
    ensures response.status == 201 && response.body.Created?
    ensures response.body.category.householdId == "mine"
    ensures IsSet(response.body.category.parentId)
    ensures var parent := response.body.category.parentId.value;
      parent in stored && stored[parent] == foreign && response.body.id in stored
      && stored[response.body.id] == response.body.category
  {
    var categories := new CategoryTable();
    foreign := CategoryRow("other", "Food", None, None, None, false);
    var parent := categories.Insert(foreign);
    TrimOfTrimmed("Groceries");
    assert "category" <= parent;
    response := Create(Ok(Session("me", "mine")), Ok(CreateBody(Some("Groceries"), None, None, Some(parent))), categories);
    stored := categories.rows;
  }

  /** The same request under the household-scoped lookup answers 404 and
      stores nothing. */
  method ForeignParentRefused() returns (response: Response, before: map<string, CategoryRow>, after: map<string, CategoryRow>)
    ensures response == Response(404, ErrorBody(ParentNotFoundMessage))
    ensures after == before && |after| == 1
  {
    var categories := new CategoryTable();
    var parent := categories.Insert(CategoryRow("other", "Food", None, None, None, false));
    TrimOfTrimmed("Groceries");
    assert "category" <= parent;
    before := categories.rows;
    response := CreateScoped(Ok(Session("me", "mine")), Ok(CreateBody(Some("Groceries"), None, None, Some(parent))),
                             categories);
    after := categories.rows;
  }

  /** A created category's name is not blank and trimming it again
      changes nothing. */
  lemma CreatedNameTrimmed(name: string)
    requires !NameMissing(Some(name))
    ensures Trim(name) != "" && Trim(Trim(name)) == Trim(name)
  {
    TrimIdempotent(name);
  }
}
