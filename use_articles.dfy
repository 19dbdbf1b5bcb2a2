/** The articles hook: the article list with its loading and error flags,
    and the stock operations, each of which asks for confirmation, calls
    the article service, reloads the list and reports success. Every
    request sent is recorded, so the order of the calls is part of the
    state. */
module UseArticles {
  import opened Values
  import opened Domain
  import opened ApiClient

  /** What an operation returns to the page. */
  datatype OpResult = OpResult(success: bool, error: Option<string>)

  /** A snapshot of the hook's state; `sent` lists the requests issued, in
      order. */
  datatype HookState = HookState(
    articles: seq<Article>,
    categories: seq<Category>,
    loading: bool,
    error: Option<string>,
    sent: seq<Request>)

  /** The state after reloading the article list with the service's reply:
      a success replaces the list and clears the error, a failure keeps the
      list and records the failure's message, and loading ends either way. */
  function Fetched(s: HookState, reply: Reply<seq<Article>>): HookState
  {
    var s' := s.(loading := false, sent := s.sent + [ArticleRequest(GetAllArticles)]);
    match reply
    case Ok(list) => s'.(articles := list, error := None)
    case Failed(e) => s'.(error := Some(e.message))
  }

  /** The state after one stock operation sending `call`: nothing when the
      confirmation is declined; only the request when the service fails;
      the request followed by the reload when it succeeds. */
  function Operated(s: HookState, call: ArticleCall, confirmed: bool, reply: Reply<()>, reload: Reply<seq<Article>>): HookState
  {
    if !confirmed then s
    else if reply.Failed? then s.(sent := s.sent + [ArticleRequest(call)])
    else Fetched(s.(sent := s.sent + [ArticleRequest(call)]), reload)
  }

  /** What one stock operation returns. A failed reload is not a failure of
      the operation. */
  function OperationResult(confirmed: bool, reply: Reply<()>): OpResult
  {
    if !confirmed then OpResult(false, None)
    else if reply.Failed? then OpResult(false, Some(reply.error.message))
    else OpResult(true, None)
  }

  /** Reloading always ends the loading phase, sends exactly one listing
      request, and leaves the list alone when it fails. */
  lemma FetchOutcome(s: HookState, reply: Reply<seq<Article>>)
    ensures var r := Fetched(s, reply);
      && !r.loading
      && r.sent == s.sent + [Request(Get, "/api/articles", [])]
      && r.categories == s.categories
      && (reply.Ok? ==> r.articles == reply.value && r.error.None?)
      && (reply.Failed? ==> r.articles == s.articles && r.error == Some(reply.error.message))
  {
  }

  /** A declined confirmation sends nothing and changes nothing. */
  lemma DeclinedOperationIsInert(s: HookState, call: ArticleCall, reply: Reply<()>, reload: Reply<seq<Article>>)
    ensures Operated(s, call, false, reply, reload) == s
    ensures !OperationResult(false, reply).success && OperationResult(false, reply).error.None?
  {
  }

  /** A failed service call is not followed by a reload: the list, the flags
      and the error stay as they were, and the result carries the failure's
      message. */
  lemma FailedOperationKeepsList(s: HookState, call: ArticleCall, e: ApiError, reload: Reply<seq<Article>>)
    ensures var r := Operated(s, call, true, Failed(e), reload);
      r.articles == s.articles && r.loading == s.loading && r.error == s.error
      && r.sent == s.sent + [ArticleRequest(call)]
    ensures OperationResult(true, Failed(e)) == OpResult(false, Some(e.message))
  {
  }

  /** A successful call is followed by exactly one reload, and only then is
      success reported. */
  lemma SucceededOperationReloads(s: HookState, call: ArticleCall, reload: Reply<seq<Article>>)
    ensures var r := Operated(s, call, true, Ok(()), reload);
      && r.sent == s.sent + [ArticleRequest(call), ArticleRequest(GetAllArticles)]
      && !r.loading
      && (reload.Ok? ==> r.articles == reload.value)
      && (reload.Failed? ==> r.articles == s.articles)
    ensures OperationResult(true, Ok(())).success
  {
  }

  /** An operation reports success exactly when its service call was sent and
      succeeded. */
  lemma SuccessMeansSent(s: HookState, call: ArticleCall, confirmed: bool, reply: Reply<()>, reload: Reply<seq<Article>>)
    ensures OperationResult(confirmed, reply).success <==> confirmed && reply.Ok?
    ensures OperationResult(confirmed, reply).success ==>
              Operated(s, call, confirmed, reply, reload).sent[|s.sent|] == ArticleRequest(call)
  {
  }

  /** Assigning stock forwards the requested quantity as it is, whatever
      the quantity and whatever the list says about the stock: the request
      the service receives names that quantity and no other. */
  lemma AssignQuantityUnchecked(s: HookState, storageId: string, articleId: string, q: int, reload: Reply<seq<Article>>)
    ensures var r := Operated(s, AssignToStorage(storageId, articleId, q), true, Ok(()), reload);
      |r.sent| == |s.sent| + 2 && r.sent[|s.sent|] == ArticleRequest(AssignToStorage(storageId, articleId, q))
    ensures forall q' :: ArticleRequest(AssignToStorage(storageId, articleId, q')) == ArticleRequest(AssignToStorage(storageId, articleId, q)) ==> q' == q
  {
    forall q' | ArticleRequest(AssignToStorage(storageId, articleId, q')) == ArticleRequest(AssignToStorage(storageId, articleId, q))
      ensures q' == q
    {
      AssignForwardsQuantity(storageId, articleId, q', q);
    }
  }

  /** The hook's state, updated in place by its operations. */
  class ArticlesHook {
    var articles: seq<Article>
    var categories: seq<Category>
    var loading: bool
    var error: Option<string>
    /** The requests sent to the article and category services, in order. */
    var sent: seq<Request>

    function State(): HookState
      reads this
    {
      HookState(articles, categories, loading, error, sent)
    }

    constructor ()
      ensures State() == HookState([], [], true, None, [])
    {
      articles := [];
      categories := [];
      loading := true;
      error := None;
      sent := [];
    }

    /** `fetchArticles`. */
    method FetchArticles(reply: Reply<seq<Article>>)
      modifies this
      ensures State() == Fetched(old(State()), reply)
    {
      loading := true;
      sent := sent + [ArticleRequest(GetAllArticles)];
      match reply {
        case Ok(list) =>
          articles := list;
          error := None;
        case Failed(e) =>
          error := Some(e.message);
      }
      loading := false;
    }

    /** `fetchCategories`: a failure is only logged. The category service is
        not part of this model, so its request is not recorded. */
    method FetchCategories(reply: Reply<seq<Category>>)
      modifies this
      ensures reply.Ok? ==> State() == old(State()).(categories := reply.value)
      ensures reply.Failed? ==> State() == old(State())
    {
      if reply.Ok? {
        categories := reply.value;
      }
    }

    /** The protocol all stock operations share: confirm, call, reload,
        report. */
    method Operate(call: ArticleCall, confirmed: bool, reply: Reply<()>, reload: Reply<seq<Article>>)
      returns (result: OpResult)
      modifies this
      ensures State() == Operated(old(State()), call, confirmed, reply, reload)
      ensures result == OperationResult(confirmed, reply)
    {
      if !confirmed {
        return OpResult(false, None);
      }
      sent := sent + [ArticleRequest(call)];
      if reply.Failed? {
        return OpResult(false, Some(reply.error.message));
      }
      FetchArticles(reload);
      result := OpResult(true, None);
    }

    /** `assignArticleToStorage`. */
    method AssignArticleToStorage(storageId: string, articleId: string, quantity: int,
                                  confirmed: bool, reply: Reply<()>, reload: Reply<seq<Article>>)
      returns (result: OpResult)
      modifies this
      ensures State() == Operated(old(State()), AssignToStorage(storageId, articleId, quantity), confirmed, reply, reload)
      ensures result == OperationResult(confirmed, reply)
    {
      result := Operate(AssignToStorage(storageId, articleId, quantity), confirmed, reply, reload);
    }

    /** `createArticle`. */
    method CreateArticle(confirmed: bool, reply: Reply<()>, reload: Reply<seq<Article>>)
      returns (result: OpResult)
      modifies this
      ensures State() == Operated(old(State()), ArticleCall.CreateArticle, confirmed, reply, reload)
      ensures result == OperationResult(confirmed, reply)
    {
      result := Operate(ArticleCall.CreateArticle, confirmed, reply, reload);
    }

    /** `updateArticle`. */
    method UpdateArticle(id: string, confirmed: bool, reply: Reply<()>, reload: Reply<seq<Article>>)
      returns (result: OpResult)
      modifies this
      ensures State() == Operated(old(State()), ArticleCall.UpdateArticle(id), confirmed, reply, reload)
      ensures result == OperationResult(confirmed, reply)
    {
      result := Operate(ArticleCall.UpdateArticle(id), confirmed, reply, reload);
    }

    /** `deleteArticle`. */
    method DeleteArticle(id: string, confirmed: bool, reply: Reply<()>, reload: Reply<seq<Article>>)
      returns (result: OpResult)
      modifies this
      ensures State() == Operated(old(State()), ArticleCall.DeleteArticle(id), confirmed, reply, reload)
      ensures result == OperationResult(confirmed, reply)
    {
      result := Operate(ArticleCall.DeleteArticle(id), confirmed, reply, reload);
    }

    /** `updateQuantity`. */
    method UpdateQuantity(id: string, newQuantity: int, confirmed: bool, reply: Reply<()>, reload: Reply<seq<Article>>)
      returns (result: OpResult)
      modifies this
      ensures State() == Operated(old(State()), ArticleCall.UpdateQuantity(id, newQuantity), confirmed, reply, reload)
      ensures result == OperationResult(confirmed, reply)
    {
      result := Operate(ArticleCall.UpdateQuantity(id, newQuantity), confirmed, reply, reload);
    }
  }
}
