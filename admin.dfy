/** Category management (src/app/admin/page.js): usage counts over both
    category references, the delete guard, the add flow with its trimming and
    error mapping, and what each of the two managers lists and disables. */
module Admin {

  import opened Options
  import opened Ledger
  import opened Text
  import Tally

  type CategoryId = string
  type UserId = string

  /** A category row: `type` is "c1" for the type taxonomy and "c2" for the
      source taxonomy; a null `user_id` marks a system category. */
  datatype Category = Category(id: CategoryId, name: string, kind: string, userId: Option<UserId>)

  /** A transaction as the usage query selects it. */
  datatype CategoryRefs = CategoryRefs(category1Id: CategoryId, category2Id: CategoryId)

  /** The error a storage write reports: its code and its message. */
  datatype StorageError = StorageError(code: string, message: string)

  // ---------------------------------------------------------------------
  // Usage counts
  // ---------------------------------------------------------------------

  /** Number of rows referencing `id` as their type category. */
  function Category1Refs(ts: seq<CategoryRefs>, id: CategoryId): nat {
    if ts == [] then 0
    else Category1Refs(ts[..|ts| - 1], id) + (if ts[|ts| - 1].category1Id == id then 1 else 0)
  }

  /** Number of rows referencing `id` as their source category. */
  function Category2Refs(ts: seq<CategoryRefs>, id: CategoryId): nat {
    if ts == [] then 0
    else Category2Refs(ts[..|ts| - 1], id) + (if ts[|ts| - 1].category2Id == id then 1 else 0)
  }

  /** A category's usage: its references through either column. */
  function Usage(ts: seq<CategoryRefs>, id: CategoryId): nat {
    Category1Refs(ts, id) + Category2Refs(ts, id)
  }

  /** What the counting loop feeds its map: a 1 for each of a row's two
      references, the type category's first. */
  function UsagePairs(ts: seq<CategoryRefs>): (ps: seq<(string, int)>)
    ensures |ps| == 2 * |ts|
    ensures forall i :: 0 <= i < |ps| ==> ps[i].1 == 1
  {
    if ts == [] then []
    else
      var t := ts[|ts| - 1];
      UsagePairs(ts[..|ts| - 1]) + [(t.category1Id, 1)] + [(t.category2Id, 1)]
  }

  lemma {:induction false} UsageWeight(ts: seq<CategoryRefs>, id: CategoryId)
    ensures Tally.Weight(UsagePairs(ts), id) == Usage(ts, id)
  {
    if ts != [] {
      var init := ts[..|ts| - 1];
      var t := ts[|ts| - 1];
      UsageWeight(init, id);
      var before := UsagePairs(init);
      var mid := before + [(t.category1Id, 1)];
      TallyStep(before, (t.category1Id, 1), id);
      TallyStep(mid, (t.category2Id, 1), id);
    }
  }

  /** One more pair adds its weight to its own key, and makes that key listed. */
  lemma TallyStep(ps: seq<(string, int)>, p: (string, int), id: string)
    ensures Tally.Weight(ps + [p], id) == Tally.Weight(ps, id) + (if p.0 == id then p.1 else 0)
    ensures id in Tally.Keys(ps + [p]) <==> id in Tally.Keys(ps) || id == p.0
  {
    assert (ps + [p])[..|ps|] == ps;
  }

  /** The count map agrees with the pairs fed so far. */
  ghost predicate Tracks(countMap: map<CategoryId, int>, ps: seq<(string, int)>) {
    && (forall id :: id in countMap <==> id in Tally.Keys(ps))
    && (forall id :: id in countMap ==> countMap[id] == Tally.Weight(ps, id))
  }

  /** `counts[id] = (counts[id] || 0) + 1`. */
  method CountReference(countMap: map<CategoryId, int>, ghost ps: seq<(string, int)>, id: CategoryId)
    returns (next: map<CategoryId, int>)
    requires Tracks(countMap, ps)
    ensures Tracks(next, ps + [(id, 1)])
  {
    if id !in countMap { Tally.AbsentWeight(ps, id); }
    next := countMap[id := CountOf(countMap, id) + 1];
    forall k | true
      ensures k in next <==> k in Tally.Keys(ps + [(id, 1)])
      ensures k in next ==> next[k] == Tally.Weight(ps + [(id, 1)], k)
    {
      TallyStep(ps, (id, 1), k);
    }
  }

  /** The counting loop of `fetchData`; a failed query (`transData` null)
      yields an empty map. A category id is a key exactly when it is used, and
      its count is its usage. */
  method UsageCounts(transData: Option<seq<CategoryRefs>>) returns (countMap: map<CategoryId, int>)
    ensures forall id :: id in countMap <==> Usage(transData.GetOr([]), id) > 0
    ensures forall id :: id in countMap ==> countMap[id] == Usage(transData.GetOr([]), id)
  {
    var ts := transData.GetOr([]);
    countMap := map[];
    for j := 0 to |ts|
      invariant Tracks(countMap, UsagePairs(ts[..j]))
    {
      var t := ts[j];
      assert ts[..j + 1][..j] == ts[..j];
      ghost var before := UsagePairs(ts[..j]);
      countMap := CountReference(countMap, before, t.category1Id);
      countMap := CountReference(countMap, before + [(t.category1Id, 1)], t.category2Id);
    }
    assert ts[..|ts|] == ts;
    forall id | true
      ensures id in countMap <==> Usage(ts, id) > 0
      ensures id in countMap ==> countMap[id] == Usage(ts, id)
    {
      Tally.PositiveWeight(UsagePairs(ts), id);
      UsageWeight(ts, id);
    }
  }

  /** Sum of the usages of the listed ids. */
  function UsageTotal(ids: seq<CategoryId>, ts: seq<CategoryRefs>): int {
    if ids == [] then 0 else UsageTotal(ids[..|ids| - 1], ts) + Usage(ts, ids[|ids| - 1])
  }

  /** The ids in use, each once, in order of first reference. */
  function UsedIds(ts: seq<CategoryRefs>): (ids: seq<CategoryId>)
    ensures Tally.Distinct(ids)
  {
    Tally.Keys(UsagePairs(ts))
  }

  lemma {:induction false} UsageTotalIsSumOver(ids: seq<CategoryId>, ts: seq<CategoryRefs>)
    ensures UsageTotal(ids, ts) == Tally.SumOver(ids, UsagePairs(ts))
  {
    if ids != [] {
      UsageTotalIsSumOver(ids[..|ids| - 1], ts);
      UsageWeight(ts, ids[|ids| - 1]);
    }
  }

  lemma {:induction false} TotalOfOnes(ps: seq<(string, int)>)
    requires forall i :: 0 <= i < |ps| ==> ps[i].1 == 1
    ensures Tally.Total(ps) == |ps|
  {
    if ps != [] {
      TotalOfOnes(ps[..|ps| - 1]);
    }
  }

  /** Every transaction is counted twice, once per reference: the counts of
      all used categories add up to twice the number of transactions. */
  lemma CountsSumToTwiceRows(ts: seq<CategoryRefs>)
    ensures UsageTotal(UsedIds(ts), ts) == 2 * |ts|
  {
    var ps := UsagePairs(ts);
    UsageTotalIsSumOver(UsedIds(ts), ts);
    Tally.SumOverKeys(ps);
    TotalOfOnes(ps);
  }

  /** `counts[id] || 0`: the count shown and checked for a category. */
  function CountOf(counts: map<CategoryId, int>, id: CategoryId): int {
    if id in counts then counts[id] else 0
  }

  /** The list item's secondary text, `${counts[c.id] || 0} transactions`. */
  function UsageLabel(counts: map<CategoryId, int>, id: CategoryId): string {
    Show(CountOf(counts, id)) + " transactions"
  }

  /** With the counts of the usage query, every listed category's label
      reads as its usage, 0 for a category no transaction references. */
  lemma UsageLabelShowsUsage(ts: seq<CategoryRefs>, counts: map<CategoryId, int>, id: CategoryId)
    requires forall k :: k in counts <==> Usage(ts, k) > 0
    requires forall k :: k in counts ==> counts[k] == Usage(ts, k)
    ensures ParseNumber(UsageLabel(counts, id)) == Some(Usage(ts, id) as int)
  {
    ParseShowThen(CountOf(counts, id), " transactions");
  }

  // ---------------------------------------------------------------------
  // Delete
  // ---------------------------------------------------------------------

  predicate IsSystem(c: Category) {
    c.userId.None?
  }

  /** The delete button is disabled for a system category or a used one. */
  predicate DeleteDisabled(c: Category, counts: map<CategoryId, int>) {
    IsSystem(c) || CountOf(counts, c.id) > 0
  }

  /** What a delete click leads to: the toast shown (if any), whether the
      delete reached storage, and whether the lists are fetched again. */
  datatype DeleteOutcome = DeleteOutcome(toast: Option<Notice>, deleteIssued: bool, refetch: bool)

  const SystemLockedMessage := "Cannot delete System Categories."

  function InUseMessage(count: int): string {
    "Cannot delete: Used in " + Show(count) + " transactions."
  }

  /** `handleDelete`: the system check comes first, then the usage check,
      then the user's confirmation; `deleteError` is what storage answers
      to the delete, when one is sent. */
  function HandleDelete(id: CategoryId, isSystem: bool, counts: map<CategoryId, int>, confirmed: bool,
                        deleteError: Option<string>): (r: DeleteOutcome)
    ensures r.deleteIssued <==> !isSystem && CountOf(counts, id) <= 0 && confirmed
    ensures isSystem ==> r.toast == Some(Notice(Warning, SystemLockedMessage))
    ensures !isSystem && CountOf(counts, id) > 0 ==>
      r.toast == Some(Notice(Warning, InUseMessage(CountOf(counts, id))))
    ensures r.deleteIssued ==>
      r.toast == Some(match deleteError
                      case Some(m) => Notice(Error, m)
                      case None => Notice(Success, "Category deleted"))
    ensures r.refetch <==> r.deleteIssued && deleteError.None?
    ensures !isSystem && CountOf(counts, id) <= 0 && !confirmed ==> r.toast == None
  {
    if isSystem then DeleteOutcome(Some(Notice(Warning, SystemLockedMessage)), false, false)
    else if id in counts && counts[id] > 0 then
      DeleteOutcome(Some(Notice(Warning, InUseMessage(counts[id]))), false, false)
    else if !confirmed then DeleteOutcome(None, false, false)
    else match deleteError
      case Some(m) => DeleteOutcome(Some(Notice(Error, m)), true, false)
      case None => DeleteOutcome(Some(Notice(Success, "Category deleted")), true, true)
  }

  /** The button and the handler agree: a confirmed click on a category
      reaches storage exactly when its delete button is enabled. */
  lemma ButtonAgreesWithGuard(c: Category, counts: map<CategoryId, int>, deleteError: Option<string>)
    ensures HandleDelete(c.id, IsSystem(c), counts, true, deleteError).deleteIssued <==> !DeleteDisabled(c, counts)
  {
  }

  /** A category some transaction references is never deleted, when the
      counts are those of the usage query. */
  lemma UsedCategoryKept(ts: seq<CategoryRefs>, counts: map<CategoryId, int>, c: Category,
                         confirmed: bool, deleteError: Option<string>)
    requires forall id :: id in counts <==> Usage(ts, id) > 0
    requires forall id :: id in counts ==> counts[id] == Usage(ts, id)
    requires Usage(ts, c.id) > 0
    ensures !HandleDelete(c.id, IsSystem(c), counts, confirmed, deleteError).deleteIssued
    ensures DeleteDisabled(c, counts)
  {
  }

  // ---------------------------------------------------------------------
  // Add
  // ---------------------------------------------------------------------

  /** The Add button is disabled while the input is blank. */
  predicate AddDisabled(input: string)
    ensures AddDisabled(input) <==> AllWhitespace(input)
  {
    Trim(input) == ""
  }

  /** What an Add click (or Enter) does to the manager's input: a blank
      input is not submitted and stays; otherwise the raw input goes to
      `onAdd` and the field is cleared. */
  datatype AddClick = AddClick(submitted: Option<string>, input: string)

  function HandleAddClick(input: string): (r: AddClick)
    ensures r.submitted.Some? <==> !AddDisabled(input)
    ensures r.submitted.Some? ==> r.submitted.value == input && r.input == ""
    ensures r.submitted.None? ==> r.input == input
  {
    if Trim(input) == "" then AddClick(None, input) else AddClick(Some(input), "")
  }

  /** The record `handleAdd` inserts. */
  datatype NewCategory = NewCategory(name: string, kind: string)

  datatype AddOutcome = AddOutcome(inserted: NewCategory, toast: Notice, refetch: bool)

  const DuplicateCode := "23505"
  const DuplicateMessage := "This category already exists!"
  const AddedMessage := "Category added successfully"

  /** `handleAdd`: insert the trimmed name; a uniqueness violation gets a
      friendly message, any other error its own message. */
  function HandleAdd(name: string, kind: string, insertError: Option<StorageError>): (r: AddOutcome)
    ensures r.inserted == NewCategory(Trim(name), kind)
    ensures insertError.Some? && insertError.value.code == DuplicateCode ==>
      r.toast == Notice(Error, DuplicateMessage)
    ensures insertError.Some? && insertError.value.code != DuplicateCode ==>
      r.toast == Notice(Error, insertError.value.message)
    ensures r.refetch <==> insertError.None?
    ensures insertError.None? ==> r.toast == Notice(Success, AddedMessage)
    ensures r.toast.severity == Success <==> insertError.None?
  {
    var inserted := NewCategory(Trim(name), kind);
    match insertError
    case Some(e) =>
      if e.code == DuplicateCode then AddOutcome(inserted, Notice(Error, DuplicateMessage), false)
      else AddOutcome(inserted, Notice(Error, e.message), false)
    case None => AddOutcome(inserted, Notice(Success, AddedMessage), true)
  }

  /** Through the click and the handler: only a non-blank input is ever
      inserted, under its trimmed name, which is never blank itself and is
      its own trim. */
  lemma AddStoresTrimmed(input: string, kind: string, insertError: Option<StorageError>)
    ensures HandleAddClick(input).submitted.Some? <==> !AllWhitespace(input)
    ensures HandleAddClick(input).submitted.Some? ==>
      var stored := HandleAdd(HandleAddClick(input).submitted.value, kind, insertError).inserted.name;
      stored == Trim(input) && stored != "" && Trim(stored) == stored
  {
    TrimIdempotent(input);
  }

  // ---------------------------------------------------------------------
  // Listing
  // ---------------------------------------------------------------------

  /** `categories.filter(c => c.type === type)`. */
  function FilteredCategories(cats: seq<Category>, kind: string): (r: seq<Category>)
    ensures |r| <= |cats|
    ensures forall i :: 0 <= i < |r| ==> r[i].kind == kind
    ensures forall c :: c in r <==> c in cats && c.kind == kind
  {
    if cats == [] then []
    else
      var c := cats[|cats| - 1];
      var front := cats[..|cats| - 1];
      assert cats == front + [c];
      FilteredCategories(front, kind) + (if c.kind == kind then [c] else [])
  }

  /** The filter keeps the list's order: filtering a concatenation filters
      each part in turn, so the categories a manager lists appear in the
      order of the fetched list (by name). */
  lemma {:induction false} FilterKeepsOrder(a: seq<Category>, b: seq<Category>, kind: string)
    ensures FilteredCategories(a + b, kind) == FilteredCategories(a, kind) + FilteredCategories(b, kind)
    decreases |b|
  {
    if b == [] {
      assert a + b == a;
    } else {
      var front := b[..|b| - 1];
      var c := b[|b| - 1];
      var last := if c.kind == kind then [c] else [];
      assert (a + b)[..|a + b| - 1] == a + front;
      assert (a + b)[|a + b| - 1] == c;
      assert FilteredCategories(a + b, kind) == FilteredCategories(a + front, kind) + last;
      assert FilteredCategories(b, kind) == FilteredCategories(front, kind) + last;
      FilterKeepsOrder(a, front, kind);
    }
  }

  /** A one-element list keeps its category exactly when the type matches. */
  lemma FilterOne(c: Category, kind: string)
    ensures FilteredCategories([c], kind) == (if c.kind == kind then [c] else [])
  {
    assert [c][..0] == [];
  }

  /** When every category is of one of the two taxonomies, the two managers
      between them list each category once. */
  lemma {:induction false} ManagersPartition(cats: seq<Category>)
    requires forall i :: 0 <= i < |cats| ==> cats[i].kind == "c1" || cats[i].kind == "c2"
    ensures |FilteredCategories(cats, "c1")| + |FilteredCategories(cats, "c2")| == |cats|
  {
    if cats != [] {
      ManagersPartition(cats[..|cats| - 1]);
    }
  }

  /** The "Personal" chip: only when a user is known and owns the category. */
  predicate IsMine(c: Category, currentUser: Option<UserId>) {
    currentUser.Some? && c.userId == currentUser
  }

  /** No category is marked both System and Personal. */
  lemma SystemNotPersonal(c: Category, currentUser: Option<UserId>)
    ensures !(IsSystem(c) && IsMine(c, currentUser))
  {
  }

  // ---------------------------------------------------------------------
  // The page's state
  // ---------------------------------------------------------------------

  class AdminState {
    var categories: seq<Category>
    var counts: map<CategoryId, int>

    constructor ()
      ensures categories == [] && counts == map[]
    {
      categories := [];
      counts := map[];
    }

    /** `fetchData`: the category list is replaced only when its query
        succeeds; the counts are always rebuilt from the usage query. */
    method FetchData(catResult: Fetch<seq<Category>>, transData: Option<seq<CategoryRefs>>)
      modifies this
      ensures catResult.Fetched? ==> categories == catResult.data
      ensures catResult.FetchError? ==> categories == old(categories)
      ensures forall id :: id in counts <==> Usage(transData.GetOr([]), id) > 0
      ensures forall id :: id in counts ==> counts[id] == Usage(transData.GetOr([]), id)
    {
      if catResult.Fetched? {
        categories := catResult.data;
      }
      counts := UsageCounts(transData);
    }
  }
}
