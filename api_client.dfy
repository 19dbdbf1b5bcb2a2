/** The HTTP client shared by every backend call: its base address, the
    request interceptor that attaches the bearer token, the response
    interceptor that reacts to failures, and the request each article and
    storage service call sends. */
module ApiClient {
  import opened Values
  import opened Text
  import opened Domain

  const DefaultBaseUrl: string := "http://localhost:8080"
  const GenericFailure: string := "Error en la operación"

  /** The configured base address, or the local development one when the
      setting is missing or empty. */
  function BaseUrl(configured: Option<string>): (url: string)
    ensures Present(configured) ==> url == configured.value
    ensures !Present(configured) ==> url == "http://localhost:8080"
  {
    OrElse(configured, DefaultBaseUrl)
  }

  /** The headers a request leaves the request interceptor with. */
  function WithBearer(headers: map<string, string>, storedToken: Option<string>): (h: map<string, string>)
    ensures Present(storedToken) ==> "Authorization" in h && h["Authorization"] == "Bearer " + storedToken.value
    ensures !Present(storedToken) ==> h == headers
    ensures forall k :: k in headers && k != "Authorization" ==> k in h && h[k] == headers[k]
    ensures h.Keys <= headers.Keys + {"Authorization"}
  {
    if Present(storedToken) then headers["Authorization" := "Bearer " + storedToken.value] else headers
  }

  /** The configuration object of an outgoing request, which the request
      interceptor changes in place. */
  class RequestConfig {
    var headers: map<string, string>

    constructor (headers: map<string, string>)
      ensures this.headers == headers
    {
      this.headers := headers;
    }

    /** The request interceptor: with a token in durable storage the request
        carries it as a bearer credential; without one nothing changes. */
    method AttachToken(storedToken: Option<string>)
      modifies this
      ensures headers == WithBearer(old(headers), storedToken)
    {
      if Present(storedToken) {
        headers := headers["Authorization" := "Bearer " + storedToken.value];
      }
    }
  }

  /** The status codes after which the whole session is ended. */
  predicate IsAuthFailure(e: ApiError)
  {
    e.response.Some? && (e.response.value.status == 401 || e.response.value.status == 403)
  }

  /** The response interceptor's failure path: it asks for a forced logout
      exactly on 401 and 403, alerts the backend's message or the generic
      one, and rejects with the very error it received. */
  method OnResponseError(error: ApiError) returns (forceLogout: bool, alert: string, rejection: ApiError)
    ensures forceLogout <==> error.response.Some? && error.response.value.status in {401, 403}
    ensures Present(ResponseMessage(error)) ==> alert == ResponseMessage(error).value
    ensures !Present(ResponseMessage(error)) ==> alert == "Error en la operación"
    ensures rejection == error
  {
    forceLogout := IsAuthFailure(error);
    alert := OrElse(ResponseMessage(error), GenericFailure);
    rejection := error;
  }

  /** Both interceptor paths: a successful reply passes through untouched
      and raises nothing; a failed one is handled as above. In both cases
      the caller receives exactly the reply the server produced. */
  method Intercept<T>(reply: Reply<T>) returns (delivered: Reply<T>, forceLogout: bool, alert: Option<string>)
    ensures delivered == reply
    ensures reply.Ok? ==> !forceLogout && alert == None
    ensures reply.Failed? ==> (forceLogout <==> IsAuthFailure(reply.error))
    ensures reply.Failed? ==> alert == Some(OrElse(ResponseMessage(reply.error), "Error en la operación"))
  {
    delivered := reply;
    if reply.Failed? {
      var rejection, text;
      forceLogout, text, rejection := OnResponseError(reply.error);
      alert := Some(text);
    } else {
      forceLogout, alert := false, None;
    }
  }

  datatype Verb = Get | Post | Put | Delete

  /** An outgoing request: verb, path below the base address and query
      parameters. Request bodies are not modelled. */
  datatype Request = Request(verb: Verb, path: string, params: seq<(string, string)>)

  /** The calls of the article service. Identifiers are taken as the text
      they interpolate to; quantities are numbers. */
  datatype ArticleCall =
    | GetAllArticles
    | CreateArticle
    | GetArticleById(id: string)
    | UpdateArticle(id: string)
    | DeleteArticle(id: string)
    | GetArticleByUuid(uuid: string)
    | AssignToStorage(storageId: string, articleId: string, quantity: int)
    | RemoveFromStorage(storageId: string, articleId: string, quantity: int)
    | UpdateQuantity(id: string, newQuantity: int)
    | IncrementQuantity(id: string, increment: int)
    | DecrementQuantity(id: string, decrement: int)
    | GetArticlesByStorage(storageId: string)
    | GetArticlesByCategory(categoryId: string)
    | SearchArticles(name: string, categoryId: string)
    | GetWithoutStock
    | GetLowStock(threshold: int)
    | GetTotalStock
    | GetTotalByCategory(categoryId: string)

  /** The request each article service call sends. */
  function ArticleRequest(c: ArticleCall): Request
  {
    match c
    case GetAllArticles => Request(Get, "/api/articles", [])
    case CreateArticle => Request(Post, "/api/articles", [])
    case GetArticleById(id) => Request(Get, "/api/articles/" + id, [])
    case UpdateArticle(id) => Request(Put, "/api/articles/" + id, [])
    case DeleteArticle(id) => Request(Delete, "/api/articles/" + id, [])
    case GetArticleByUuid(uuid) => Request(Get, "/api/articles/uuid/" + uuid, [])
    case AssignToStorage(s, a, q) =>
      Request(Put, "/api/articles/storage/" + s + "/article/" + a, [("quantity", IntText(q))])
    case RemoveFromStorage(s, a, q) =>
      Request(Delete, "/api/storages/storage/" + s + "/article/" + a, [("quantity", IntText(q))])
    case UpdateQuantity(id, q) => Request(Put, "/api/articles/" + id + "/quantity", [("newQuantity", IntText(q))])
    case IncrementQuantity(id, q) => Request(Put, "/api/articles/" + id + "/increment", [("increment", IntText(q))])
    case DecrementQuantity(id, q) => Request(Put, "/api/articles/" + id + "/decrement", [("decrement", IntText(q))])
    case GetArticlesByStorage(s) => Request(Get, "/api/articles/storage/" + s, [])
    case GetArticlesByCategory(cid) => Request(Get, "/api/articles/category/" + cid, [])
    case SearchArticles(name, cid) => Request(Get, "/api/articles/search", [("name", name), ("categoryId", cid)])
    case GetWithoutStock => Request(Get, "/api/articles/no-stock", [])
    case GetLowStock(t) => Request(Get, "/api/articles/low-stock", [("threshold", IntText(t))])
    case GetTotalStock => Request(Get, "/api/articles/total/stock", [])
    case GetTotalByCategory(cid) => Request(Get, "/api/articles/total/category/" + cid, [])
  }

  /** The calls of the storage service. */
  datatype StorageCall =
    | GetAllStorages
    | CreateStorage
    | GetStorageById(id: string)
    | UpdateStorage(id: string)
    | DeleteStorage(id: string)
    | ToggleStorageStatus(id: string)
    | AssignResponsible(storageId: string, userId: string)
    | GetStorageByUuid(uuid: string)
    | GetByResponsible(userId: string)
    | GetByIdentifier(identifier: string)
    | GetStoragesByCategory(categoryId: string)
    | GetWithoutResponsible
    | GetActiveStorages

  /** The request each storage service call sends. */
  function StorageRequest(c: StorageCall): Request
  {
    match c
    case GetAllStorages => Request(Get, "/api/storages", [])
    case CreateStorage => Request(Post, "/api/storages", [])
    case GetStorageById(id) => Request(Get, "/api/storages/" + id, [])
    case UpdateStorage(id) => Request(Put, "/api/storages/" + id, [])
    case DeleteStorage(id) => Request(Delete, "/api/storages/" + id, [])
    case ToggleStorageStatus(id) => Request(Put, "/api/storages/" + id + "/toggle-status", [])
    case AssignResponsible(s, u) => Request(Put, "/api/storages/" + s + "/responsible/" + u, [])
    case GetStorageByUuid(uuid) => Request(Get, "/api/storages/uuid/" + uuid, [])
    case GetByResponsible(u) => Request(Get, "/api/storages/responsible/" + u, [])
    case GetByIdentifier(i) => Request(Get, "/api/storages/identifier/" + i, [])
    case GetStoragesByCategory(cid) => Request(Get, "/api/storages/category/" + cid, [])
    case GetWithoutResponsible => Request(Get, "/api/storages/without-responsible", [])
    case GetActiveStorages => Request(Get, "/api/storages/active", [])
  }

  /** A string that begins with `p` keeps beginning with `p` when extended. */
  lemma StartsWithExtended(s: string, t: string, p: string)
    requires StartsWith(s, p)
    ensures StartsWith(s + t, p)
  {
    assert (s + t)[..|p|] == s[..|p|];
  }

  /** Every article call is sent below "/api/articles" except the removal of
      stock from a storage, which is sent below "/api/storages/storage/". */
  lemma ArticleRequestPrefixes(c: ArticleCall)
    ensures !c.RemoveFromStorage? ==> StartsWith(ArticleRequest(c).path, "/api/articles")
    ensures c.RemoveFromStorage? ==> StartsWith(ArticleRequest(c).path, "/api/storages/storage/")
    ensures c.RemoveFromStorage? ==> !StartsWith(ArticleRequest(c).path, "/api/articles")
  {
    forall s, t, p | StartsWith(s, p) ensures StartsWith(s + t, p) {
      StartsWithExtended(s, t, p);
    }
    var path := ArticleRequest(c).path;
    if c.RemoveFromStorage? {
      assert path[5] == 's';
    }
  }

  /** The assignment request carries exactly the quantity it was given, with
      no local check against stock: any two different quantities produce
      different requests, negative and zero ones included. */
  lemma AssignForwardsQuantity(s: string, a: string, q1: int, q2: int)
    requires ArticleRequest(AssignToStorage(s, a, q1)) == ArticleRequest(AssignToStorage(s, a, q2))
    ensures q1 == q2
  {
    assert IntText(q1) == ArticleRequest(AssignToStorage(s, a, q1)).params[0].1;
    IntTextInjective(q1, q2);
  }

  /** Every storage call is sent below "/api/storages". */
  lemma StorageRequestPrefix(c: StorageCall)
    ensures StartsWith(StorageRequest(c).path, "/api/storages")
  {
    forall s, t, p | StartsWith(s, p) ensures StartsWith(s + t, p) {
      StartsWithExtended(s, t, p);
    }
  }
}
