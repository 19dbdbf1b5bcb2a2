/** The dashboard of a user who is responsible for a storage: the articles
    that can be added to it, its contents grouped by article, the add and
    move dialogs. */
module DashboardUser {
  import opened Values
  import opened Text
  import opened Domain
  import opened ApiClient
  import opened ListViews
  import opened UseArticles

  // ---------------------------------------------------------------------
  // Grouping of the storage's contents. The storage lists one entry per
  // allocated unit; the page folds them into an object keyed by article
  // id, so its values come out in ascending id order.

  /** How many entries of `s` are units of article `id`. */
  function Occurrences(s: seq<Article>, id: nat): nat
  {
    if s == [] then 0
    else Occurrences(s[..|s| - 1], id) + (if s[|s| - 1].id == id then 1 else 0)
  }

  function Ids(s: seq<Article>): set<nat>
  {
    set a | a in s :: a.id
  }

  /** An article with no entry has no units. */
  lemma {:induction false} OccurrencesOfAbsent(s: seq<Article>, id: nat)
    requires id !in Ids(s)
    ensures Occurrences(s, id) == 0
  {
    if s != [] {
      IdsOfSnoc(s);
      OccurrencesOfAbsent(s[..|s| - 1], id);
    }
  }

  /** The first entry of `s` for article `id`. */
  function FirstWith(s: seq<Article>, id: nat): (a: Article)
    requires id in Ids(s)
    ensures a in s && a.id == id
  {
    if s[0].id == id then s[0]
    else
      assert id in Ids(s[1..]) by {
        var b :| b in s && b.id == id;
        assert b != s[0];
      }
      FirstWith(s[1..], id)
  }

  lemma {:induction false} FirstWithAppend(s: seq<Article>, a: Article, id: nat)
    requires id in Ids(s)
    ensures id in Ids(s + [a]) && FirstWith(s + [a], id) == FirstWith(s, id)
  {
    assert s[0] == (s + [a])[0];
    if s[0].id != id {
      assert (s + [a])[1..] == s[1..] + [a];
      assert id in Ids(s[1..]) by {
        var b :| b in s && b.id == id;
        assert b != s[0];
      }
      FirstWithAppend(s[1..], a, id);
    }
  }

  lemma IdsOfSnoc(s: seq<Article>)
    requires s != []
    ensures Ids(s) == Ids(s[..|s| - 1]) + {s[|s| - 1].id}
  {
    assert s == s[..|s| - 1] + [s[|s| - 1]];
  }

  /** The fold of the page: one entry per article id, holding the fields of
      the first unit and, as quantity, the number of units. */
  function GroupCounts(s: seq<Article>): (m: map<nat, Article>)
    ensures m.Keys == Ids(s)
    ensures forall k :: k in m ==> m[k].id == k && m[k].quantity == Occurrences(s, k)
  {
    if s == [] then map[]
    else
      var m := GroupCounts(s[..|s| - 1]);
      var a := s[|s| - 1];
      IdsOfSnoc(s);
      assert forall k :: Occurrences(s, k) == Occurrences(s[..|s| - 1], k) + (if a.id == k then 1 else 0);
      if a.id !in m then
        OccurrencesOfAbsent(s[..|s| - 1], a.id);
        m[a.id := a.(quantity := 1)]
      else m[a.id := m[a.id].(quantity := m[a.id].quantity + 1)]
  }

  /** Each group keeps every field of the first unit of its article but the
      quantity. */
  lemma {:induction false} GroupKeepsFirstFields(s: seq<Article>, k: nat)
    requires k in Ids(s)
    ensures GroupCounts(s)[k] == FirstWith(s, k).(quantity := Occurrences(s, k))
  {
    var p := s[..|s| - 1];
    var a := s[|s| - 1];
    IdsOfSnoc(s);
    assert s == p + [a];
    if k in Ids(p) {
      GroupKeepsFirstFields(p, k);
      FirstWithAppend(p, a, k);
    } else {
      assert a.id == k;
      if p != [] {
        assert forall b :: b in p ==> b.id != k;
        FirstNotInPrefix(p, a);
      }
    }
  }

  /** An id that no entry of `p` has is first found at the appended entry. */
  lemma {:induction false} FirstNotInPrefix(p: seq<Article>, a: Article)
    requires forall b :: b in p ==> b.id != a.id
    ensures a.id in Ids(p + [a]) && FirstWith(p + [a], a.id) == a
  {
    assert (p + [a])[|p|] == a;
    if p != [] {
      assert (p + [a])[1..] == p[1..] + [a];
      FirstNotInPrefix(p[1..], a);
    }
  }

  predicate StrictlyIncreasing(r: seq<nat>)
  {
    forall i, j :: 0 <= i < j < |r| ==> r[i] < r[j]
  }

  /** Inserts `x` into an increasing sequence unless it is already there. */
  function InsertId(r: seq<nat>, x: nat): (q: seq<nat>)
    requires StrictlyIncreasing(r)
    ensures StrictlyIncreasing(q)
    ensures forall k :: k in q <==> k in r || k == x
  {
    if r == [] then [x]
    else if x == r[0] then r
    else if x < r[0] then [x] + r
    else
      assert StrictlyIncreasing(r[1..]);
      var rest := InsertId(r[1..], x);
      assert forall j :: 0 <= j < |rest| ==> r[0] < rest[j] by {
        forall j | 0 <= j < |rest|
          ensures r[0] < rest[j]
        {
          assert rest[j] in rest;
        }
      }
      [r[0]] + rest
  }

  /** The ids of the storage's articles, each once, in ascending order. */
  function DistinctIds(s: seq<Article>): (r: seq<nat>)
    ensures StrictlyIncreasing(r)
    ensures forall k :: k in r <==> k in Ids(s)
  {
    if s == [] then []
    else
      IdsOfSnoc(s);
      InsertId(DistinctIds(s[..|s| - 1]), s[|s| - 1].id)
  }

  /** `uniqueArticles`: the groups in ascending id order. */
  function UniqueArticles(s: seq<Article>): (u: seq<Article>)
    ensures |u| == |DistinctIds(s)|
    ensures forall i :: 0 <= i < |u| ==> u[i] == GroupCounts(s)[DistinctIds(s)[i]]
  {
    var ids := DistinctIds(s);
    var m := GroupCounts(s);
    seq(|ids|, i requires 0 <= i < |ids| => m[ids[i]])
  }

  /** The groups come in strictly ascending id order, one per article of
      the storage, each counting the units of its article. */
  lemma UniqueArticlesOrdered(s: seq<Article>)
    ensures var u := UniqueArticles(s);
      forall i, j :: 0 <= i < j < |u| ==> u[i].id < u[j].id
  {
    var u := UniqueArticles(s);
    var ids := DistinctIds(s);
    assert forall i :: 0 <= i < |u| ==> u[i].id == ids[i];
  }

  lemma UniqueArticlesCount(s: seq<Article>)
    ensures var u := UniqueArticles(s);
      forall i :: 0 <= i < |u| ==> u[i].id in Ids(s) && u[i].quantity == Occurrences(s, u[i].id)
  {
    var u := UniqueArticles(s);
    var ids := DistinctIds(s);
    forall i | 0 <= i < |u|
      ensures u[i].id in Ids(s) && u[i].quantity == Occurrences(s, u[i].id)
    {
      assert ids[i] in ids;
    }
  }

  lemma UniqueArticlesCover(s: seq<Article>, a: Article)
    requires a in s
    ensures var u := UniqueArticles(s);
      exists i :: 0 <= i < |u| && u[i].id == a.id
  {
    var u := UniqueArticles(s);
    var ids := DistinctIds(s);
    assert a.id in Ids(s);
    var i :| 0 <= i < |ids| && ids[i] == a.id;
    assert u[i].id == a.id;
  }

  /** `totalQuantity`: the sum of the groups' quantities. */
  function TotalQuantity(u: seq<Article>): int
  {
    if u == [] then 0 else u[0].quantity + TotalQuantity(u[1..])
  }

  /** The units counted over a list of ids. */
  function SumCounts(ids: seq<nat>, s: seq<Article>): nat
  {
    if ids == [] then 0 else Occurrences(s, ids[0]) + SumCounts(ids[1..], s)
  }

  lemma {:induction false} SumCountsEmpty(ids: seq<nat>)
    ensures SumCounts(ids, []) == 0
  {
    if ids != [] {
      SumCountsEmpty(ids[1..]);
    }
  }

  lemma {:induction false} SumCountsSnoc(ids: seq<nat>, s: seq<Article>, a: Article)
    requires StrictlyIncreasing(ids)
    ensures SumCounts(ids, s + [a]) == SumCounts(ids, s) + (if a.id in ids then 1 else 0)
  {
    assert (s + [a])[..|s + [a]| - 1] == s;
    if ids != [] {
      assert StrictlyIncreasing(ids[1..]);
      SumCountsSnoc(ids[1..], s, a);
      if a.id == ids[0] {
        assert a.id !in ids[1..];
      }
    }
  }

  /** Counting every unit under the ids that cover them counts each unit
      once. */
  lemma {:induction false} SumCountsCoversAll(ids: seq<nat>, s: seq<Article>)
    requires StrictlyIncreasing(ids)
    requires forall a :: a in s ==> a.id in ids
    ensures SumCounts(ids, s) == |s|
  {
    if s == [] {
      SumCountsEmpty(ids);
    } else {
      var p := s[..|s| - 1];
      var a := s[|s| - 1];
      assert s == p + [a];
      SumCountsCoversAll(ids, p);
      SumCountsSnoc(ids, p, a);
    }
  }

  lemma {:induction false} TotalMatchesCounts(u: seq<Article>, ids: seq<nat>, s: seq<Article>)
    requires |u| == |ids|
    requires forall i :: 0 <= i < |u| ==> u[i].quantity == Occurrences(s, ids[i])
    ensures TotalQuantity(u) == SumCounts(ids, s)
  {
    if u != [] {
      TotalMatchesCounts(u[1..], ids[1..], s);
    }
  }

  /** The total shown is the number of units in the storage. */
  lemma TotalIsNumberOfUnits(s: seq<Article>)
    ensures TotalQuantity(UniqueArticles(s)) == |s|
  {
    var ids := DistinctIds(s);
    TotalMatchesCounts(UniqueArticles(s), ids, s);
    SumCountsCoversAll(ids, s);
  }

  // ---------------------------------------------------------------------
  // The add dialog: which articles are offered, how the chosen option is
  // read back, and how the quantity field reacts to input.

  /** `c?.id`. */
  function CategoryId(c: Option<Category>): Option<nat>
  {
    if c.Some? then Some(c.value.id) else None
  }

  /** The articles offered for the storage: those in stock whose category
      id equals the storage's, where two missing categories count as equal.
      Nothing is offered before the storage is known. */
  function AvailableArticles(storage: Option<Storage>, all: seq<Article>): (r: seq<Article>)
    ensures storage.None? ==> r == []
    ensures forall a :: a in r <==>
      storage.Some? && a in all && a.quantity > 0 && CategoryId(a.category) == CategoryId(storage.value.category)
    ensures |r| <= |all|
  {
    if storage.None? then []
    else Filter(all, (a: Article) => CategoryId(a.category) == CategoryId(storage.value.category) && a.quantity > 0)
  }

  /** An uncategorised storage is offered every uncategorised article in
      stock, because the two missing category ids compare equal. */
  lemma UncategorisedStorageOffersUncategorised(st: Storage, all: seq<Article>, a: Article)
    requires st.category.None? && a.category.None?
    ensures a in AvailableArticles(Some(st), all) <==> a in all && a.quantity > 0
  {
  }

  /** `Number(s)` for the text of a form control: blank text is 0, an
      optionally signed run of decimal digits is its value, anything else
      is not a whole number (`None`). */
  function NumberOf(s: string): Option<int>
  {
    if Trim(s) == "" then Some(0) else DecimalValue(Trim(s))
  }

  /** The value of an option (`String(article.id)`) reads back as the id. */
  lemma NumberOfNatText(n: nat)
    ensures NumberOf(NatText(n)) == Some(n)
  {
    TrimDigits(NatText(n));
    NatTextRoundTrip(n);
  }

  /** The article a choice selects: the first offered one whose id equals
      `Number(value)`. */
  function Chosen(available: seq<Article>, value: string): (r: Option<Article>)
    ensures r.Some? ==> r.value in available && NumberOf(value) == Some(r.value.id as int)
    ensures r.None? <==> forall a :: a in available ==> NumberOf(value) != Some(a.id as int)
  {
    FindFirst(available, (a: Article) => NumberOf(value) == Some(a.id as int))
  }

  /** Choosing the option of an offered article selects an offered article
      with that id. */
  lemma ChoosingAnOptionSelectsIt(available: seq<Article>, a: Article)
    requires a in available
    ensures var r := Chosen(available, NatText(a.id)); r.Some? && r.value.id == a.id && r.value in available
  {
    NumberOfNatText(a.id);
  }

  /** Choosing the empty placeholder selects nothing unless some offered
      article has id 0. */
  lemma PlaceholderSelectsNothing(available: seq<Article>)
    requires forall a :: a in available ==> a.id != 0
    ensures Chosen(available, "") == None
  {
    assert NumberOf("") == Some(0);
  }

  /** The quantity the field keeps for an entered value: at most the
      selected article's stock, and otherwise exactly what was entered, so
      zero and negative values are kept. */
  function Clamp(value: int, stock: int): (r: int)
    ensures r <= stock && r <= value
    ensures r == value || r == stock
  {
    if value > stock then stock else value
  }

  /** `!selectedArticleId || !addQuantity` is false: the add request is sent. */
  predicate AddDispatches(selectedArticleId: Option<string>, addQuantity: int)
  {
    Present(selectedArticleId) && addQuantity != 0
  }

  /** There is no lower bound on the quantity: a negative entry passes the
      field and the add button and reaches the service unchanged. */
  lemma NegativeQuantityReachesService(selectedArticleId: Option<string>, value: int, stock: int)
    requires Present(selectedArticleId) && value < 0 && stock > 0
    ensures Clamp(value, stock) == value
    ensures AddDispatches(selectedArticleId, Clamp(value, stock))
  {
  }

  /** The move dialog's validator: a missing or empty value and a value not
      above zero get the error message. */
  function MoveValidator(v: NumberField): (message: Option<string>)
    ensures message.None? <==> v.NumberInput? && v.n >= 1
    ensures message.Some? ==> message.value == "Debes ingresar una cantidad válida"
  {
    match v
    case NullInput => Some("Debes ingresar una cantidad válida")
    case EmptyInput => Some("Debes ingresar una cantidad válida")
    case NumberInput(n) => if n <= 0 then Some("Debes ingresar una cantidad válida") else None
  }

  /** `storedUser?.id || ""`, as it is interpolated into a request path. */
  function UserIdText(storedUser: Option<SessionUser>): (r: string)
    ensures r == "" <==> !(storedUser.Some? && storedUser.value.id.Some? && storedUser.value.id.value != 0)
  {
    if storedUser.Some? && storedUser.value.id.Some? && storedUser.value.id.value != 0
    then NatText(storedUser.value.id.value) else ""
  }

  // ---------------------------------------------------------------------
  // The page's state and its transitions.

  datatype ViewState = ViewState(
    storage: Option<Storage>,
    articles: seq<Article>,
    loading: bool,
    addModalOpen: bool,
    selectedArticleId: Option<string>,
    addQuantity: int,
    selectedArticle: Option<Article>,
    sent: seq<Request>)

  /** What the page shows: a spinner-like skeleton while the storage is
      loading, a notice when the user has no storage, the dashboard
      otherwise. */
  datatype Screen = NoStorageAssigned | Skeleton | StorageDashboard

  function ScreenOf(s: ViewState): (r: Screen)
    ensures r == StorageDashboard <==> s.storage.Some?
    ensures r == NoStorageAssigned <==> s.storage.None? && !s.loading
  {
    if !s.loading && s.storage.None? then NoStorageAssigned
    else if s.storage.None? then Skeleton
    else StorageDashboard
  }

  /** The state after `fetchStorageDetails`. The request lists only the
      storage lookup, so the second response is missing: reading it throws
      right after the storage is stored, and the error is caught. So a
      successful lookup sets the storage and leaves the article list as it
      was; a failed one changes neither; loading ends either way. */
  function StorageFetched(s: ViewState, userId: string, reply: Reply<Option<Storage>>): ViewState
  {
    var s' := s.(loading := false, sent := s.sent + [StorageRequest(GetByResponsible(userId))]);
    if reply.Ok? then s'.(storage := reply.value) else s'
  }

  /** The state after choosing the option with value `value`. */
  function ArticleChosen(s: ViewState, value: string, all: seq<Article>): ViewState
  {
    s.(selectedArticleId := Some(value), selectedArticle := Chosen(AvailableArticles(s.storage, all), value))
  }

  /** The state after typing `value` into the quantity field: ignored with
      no article selected, clamped to its stock otherwise. */
  function QuantityEntered(s: ViewState, value: int): ViewState
  {
    if s.selectedArticle.None? then s
    else s.(addQuantity := Clamp(value, s.selectedArticle.value.quantity))
  }

  /** The request the move dialog sends for `articleId`. */
  function MoveRequest(storedUser: Option<SessionUser>, articleId: nat, n: int): Request
  {
    ArticleRequest(RemoveFromStorage(UserIdText(storedUser), NatText(articleId), n))
  }

  /** The product count is never set: the article list stays as it was
      however the lookup ends, and the storage follows the lookup's
      answer. */
  lemma FetchKeepsArticleList(s: ViewState, userId: string, reply: Reply<Option<Storage>>)
    ensures StorageFetched(s, userId, reply).articles == s.articles
    ensures !StorageFetched(s, userId, reply).loading
    ensures reply.Ok? ==> StorageFetched(s, userId, reply).storage == reply.value
    ensures reply.Failed? ==> StorageFetched(s, userId, reply).storage == s.storage
    ensures StorageFetched(s, userId, reply).sent == s.sent + [Request(Get, "/api/storages/responsible/" + userId, [])]
  {
  }

  /** A failed lookup for a user without a storage ends on the notice; a
      lookup that finds none does too. */
  lemma LookupWithoutStorageShowsNotice(s: ViewState, userId: string, reply: Reply<Option<Storage>>)
    requires reply == Ok(None) || (reply.Failed? && s.storage.None?)
    ensures ScreenOf(StorageFetched(s, userId, reply)) == NoStorageAssigned
  {
  }

  /** The quantity kept after any input never exceeds the selected
      article's stock, and input without a selection changes nothing. */
  lemma QuantityWithinStock(s: ViewState, value: int)
    ensures s.selectedArticle.Some? ==> QuantityEntered(s, value).addQuantity <= s.selectedArticle.value.quantity
    ensures s.selectedArticle.Some? && value <= s.selectedArticle.value.quantity ==> QuantityEntered(s, value).addQuantity == value
    ensures s.selectedArticle.None? ==> QuantityEntered(s, value) == s
  {
  }

  /** The move dialog sends the logged-in user's id where the request path
      expects the storage's id: when the two ids differ, the request sent is
      not the one for the storage. */
  lemma MoveUsesUserIdNotStorageId(u: SessionUser, st: Storage, articleId: nat, n: int)
    requires u.id.Some? && u.id.value != 0 && u.id.value != st.id
    ensures MoveRequest(Some(u), articleId, n) != ArticleRequest(RemoveFromStorage(NatText(st.id), NatText(articleId), n))
  {
    var p := "/api/storages/storage/";
    var x := NatText(u.id.value);
    var y := NatText(st.id);
    var a := NatText(articleId);
    var px := MoveRequest(Some(u), articleId, n).path;
    var py := ArticleRequest(RemoveFromStorage(y, a, n)).path;
    assert px == p + x + "/article/" + a;
    assert py == p + y + "/article/" + a;
    if px == py {
      assert |x| == |y|;
      assert x == px[|p|..|p| + |x|];
      assert y == py[|p|..|p| + |y|];
      NatTextInjective(u.id.value, st.id);
    }
  }

  /** The dashboard of the logged-in user. `storedUser` is the user read
      from durable storage when the page is built; `hook` is the article
      hook the page uses. */
  class DashboardUserView {
    const storedUser: Option<SessionUser>
    const hook: ArticlesHook
    var storage: Option<Storage>
    var articles: seq<Article>
    var loading: bool
    var addModalOpen: bool
    var selectedArticleId: Option<string>
    var addQuantity: int
    var selectedArticle: Option<Article>
    /** The requests the page sends itself, in order. */
    var sent: seq<Request>

    function State(): ViewState
      reads this
    {
      ViewState(storage, articles, loading, addModalOpen, selectedArticleId, addQuantity, selectedArticle, sent)
    }

    /** The product count card shows `articles.length`. */
    predicate Valid()
      reads this
    {
      articles == []
    }

    constructor (storedUser: Option<SessionUser>, hook: ArticlesHook)
      ensures this.storedUser == storedUser && this.hook == hook
      ensures State() == ViewState(None, [], true, false, None, 1, None, [])
      ensures Valid()
    {
      this.storedUser := storedUser;
      this.hook := hook;
      storage := None;
      articles := [];
      loading := true;
      addModalOpen := false;
      selectedArticleId := None;
      addQuantity := 1;
      selectedArticle := None;
      sent := [];
    }

    /** `fetchStorageDetails`, run when the page mounts and after each
        change. */
    method FetchStorageDetails(reply: Reply<Option<Storage>>)
      requires Valid()
      modifies this
      ensures State() == StorageFetched(old(State()), UserIdText(storedUser), reply)
      ensures Valid()
    {
      loading := true;
      sent := sent + [StorageRequest(GetByResponsible(UserIdText(storedUser)))];
      if reply.Ok? {
        storage := reply.value;
      }
      loading := false;
    }

    /** The round button: opens the dialog with nothing selected. */
    method OpenAddModal()
      modifies this
      ensures State() == old(State()).(addModalOpen := true, selectedArticle := None, selectedArticleId := Some(""))
    {
      addModalOpen := true;
      selectedArticle := None;
      selectedArticleId := Some("");
    }

    /** `handleArticleChange`. */
    method HandleArticleChange(value: string)
      modifies this
      ensures State() == ArticleChosen(old(State()), value, hook.articles)
    {
      selectedArticleId := Some(value);
      selectedArticle := Chosen(AvailableArticles(storage, hook.articles), value);
    }

    /** The quantity field's change handler. */
    method HandleQuantityInput(value: int)
      modifies this
      ensures State() == QuantityEntered(old(State()), value)
    {
      if selectedArticle.None? {
        return;
      }
      if value > selectedArticle.value.quantity {
        addQuantity := selectedArticle.value.quantity;
      } else {
        addQuantity := value;
      }
    }

    /** `handleAddArticle`: only reachable from the dashboard, so the
        storage is known. Nothing happens without a selection or with a
        zero quantity. On success the dialog closes, the selection id and
        quantity are reset (the selected article is not) and the storage is
        fetched again. */
    method HandleAddArticle(confirmed: bool, reply: Reply<()>, reload: Reply<seq<Article>>, storageReply: Reply<Option<Storage>>)
      returns (result: Option<OpResult>)
      requires storage.Some? && Valid()
      modifies this, hook
      ensures Valid()
      ensures !AddDispatches(old(selectedArticleId), old(addQuantity)) ==>
        result.None? && State() == old(State()) && hook.State() == old(hook.State())
      ensures AddDispatches(old(selectedArticleId), old(addQuantity)) ==>
        && result == Some(OperationResult(confirmed, reply))
        && hook.State() == Operated(old(hook.State()),
             AssignToStorage(NatText(old(storage).value.id), old(selectedArticleId).value, old(addQuantity)),
             confirmed, reply, reload)
      ensures AddDispatches(old(selectedArticleId), old(addQuantity)) && result.value.success ==>
        State() == StorageFetched(
          old(State()).(addModalOpen := false, selectedArticleId := Some(""), addQuantity := 1),
          UserIdText(storedUser), storageReply)
      ensures AddDispatches(old(selectedArticleId), old(addQuantity)) && !result.value.success ==>
        State() == old(State())
    {
      if !Present(selectedArticleId) || addQuantity == 0 {
        return None;
      }
      var r := hook.AssignArticleToStorage(NatText(storage.value.id), selectedArticleId.value, addQuantity, confirmed, reply, reload);
      result := Some(r);
      if r.success {
        addModalOpen := false;
        selectedArticleId := Some("");
        addQuantity := 1;
        FetchStorageDetails(storageReply);
      }
    }

    /** The dialog's close handler: closes and fetches the storage again. */
    method CloseAddModal(storageReply: Reply<Option<Storage>>)
      requires Valid()
      modifies this
      ensures State() == StorageFetched(old(State()).(addModalOpen := false), UserIdText(storedUser), storageReply)
      ensures Valid()
    {
      addModalOpen := false;
      FetchStorageDetails(storageReply);
    }

    /** The dialog's "Cancelar" button: closes without fetching again. */
    method CancelAddModal()
      modifies this
      ensures State() == old(State()).(addModalOpen := false)
    {
      addModalOpen := false;
    }

    /** `handleMoveArticle`: `answer` is the dialog's confirmed value (none
        when cancelled), which has passed the validator. The removal is
        sent for the user's id; a success fetches the storage again, a
        failure is only logged. */
    method HandleMoveArticle(articleId: nat, answer: Option<NumberField>, reply: Reply<()>, storageReply: Reply<Option<Storage>>)
      requires answer.Some? ==> MoveValidator(answer.value).None?
      requires Valid()
      modifies this
      ensures Valid()
      ensures answer.None? ==> State() == old(State())
      ensures answer.Some? && reply.Failed? ==>
        State() == old(State()).(sent := old(sent) + [MoveRequest(storedUser, articleId, answer.value.n)])
      ensures answer.Some? && reply.Ok? ==>
        State() == StorageFetched(old(State()).(sent := old(sent) + [MoveRequest(storedUser, articleId, answer.value.n)]),
                                  UserIdText(storedUser), storageReply)
    {
      if answer.None? {
        return;
      }
      sent := sent + [MoveRequest(storedUser, articleId, answer.value.n)];
      if reply.Ok? {
        FetchStorageDetails(storageReply);
      }
    }
  }
}
