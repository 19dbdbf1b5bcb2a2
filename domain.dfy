/** The records the front end receives from the backend and keeps in its
    state, the shape of an HTTP failure as the HTTP client reports it, and
    the outcome of a backend call. Only the fields that some decision in
    the model reads are kept. */
module Domain {
  import opened Values

  datatype Category = Category(id: nat, name: Option<string>, categoryName: Option<string>)

  /** A storage's responsible user, as embedded in a storage. */
  datatype Person = Person(id: nat, name: Option<string>, lastName: Option<string>)

  /** An article; `quantity` is its free stock as last fetched. */
  datatype Article = Article(
    id: nat,
    articleName: Option<string>,
    description: Option<string>,
    quantity: int,
    category: Option<Category>)

  /** A storage; `articles` holds one entry per allocated unit. */
  datatype Storage = Storage(
    id: nat,
    identifier: Option<string>,
    storageIdentifier: Option<string>,
    category: Option<Category>,
    responsible: Option<Person>,
    status: bool,
    articles: seq<Article>)

  /** A row of the users list; `rolName` is `user.rol?.name`. */
  datatype UserRecord = UserRecord(
    id: nat,
    name: Option<string>,
    lastName: Option<string>,
    username: Option<string>,
    email: Option<string>,
    rolName: Option<string>)

  /** The logged-in identity kept by the session and in durable storage. */
  datatype SessionUser = SessionUser(
    id: Option<nat>,
    username: Option<string>,
    email: Option<string>,
    role: Option<string>,
    tp: bool)

  /** The `response` part of a failed HTTP call: its status and `data.message`. */
  datatype ErrorResponse = ErrorResponse(status: int, dataMessage: Option<string>)

  /** A failed HTTP call as the HTTP client reports it: a response when the
      server answered, and the client's own `message` text. */
  datatype ApiError = ApiError(response: Option<ErrorResponse>, message: string)

  /** `error.response?.data?.message`. */
  function ResponseMessage(e: ApiError): Option<string>
  {
    if e.response.Some? then e.response.value.dataMessage else None
  }

  /** The answer of one backend call, chosen by the environment. */
  datatype Reply<+T> = Ok(value: T) | Failed(error: ApiError)
}
