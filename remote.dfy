/** What the App component exchanges with the articles server: the records it
    receives, the outcome of one remote call, and the requests it sends. */
module Remote {

  datatype Option<+T> = None | Some(value: T)

  /** One article, with the fields the Articles component requires
      (`article_id` is a number, the rest are strings). */
  datatype Article = Article(articleId: int, title: string, text: string, topic: string)

  /** The body of a create or update request. */
  datatype Draft = Draft(title: string, text: string, topic: string)

  /** How an axios call ends: the promise resolves with a 2xx response, or it
      rejects with an error that either carries the server's response (any
      other status) or carries none (the server could not be reached).
      Under axios's default status check a 2xx status is never an
      `HttpError`; the type does not exclude one, and no handler treats any
      status other than 401 specially. */
  datatype Outcome<+P> = Ok(payload: P) | HttpError(status: int) | NoResponse

  /** Body of `GET /api/articles`. */
  datatype Listing = Listing(articles: seq<Article>, message: string)

  /** Body of `POST /api/articles`. */
  datatype Created = Created(article: Article, message: string)

  /** Body of `PUT` and `DELETE /api/articles/{id}`: no article is echoed. */
  datatype Ack = Ack(message: string)

  /** Parsed body of `POST /api/login`; the message may be absent. */
  datatype LoginBody = LoginBody(token: string, message: Option<string>)

  /** How the login `fetch` ends: a response whose body parsed as JSON (with
      its `ok` flag), or a rejection, either of `fetch` itself or of
      `response.json()`. Unlike axios, `fetch` does not reject on a non-2xx
      status. */
  datatype LoginReply = Answered(ok: bool, body: LoginBody) | Failed

  /** One remote call as it leaves the client: the endpoint, the body and,
      for the article endpoints, the `Authorization` header value, which is
      whatever is stored under the key 'token' (None when nothing is). */
  datatype Request =
    | LoginRequest(username: string, password: string)
    | ListRequest(authorization: Option<string>)
    | CreateRequest(draft: Draft, authorization: Option<string>)
    | UpdateRequest(id: int, draft: Draft, authorization: Option<string>)
    | DeleteRequest(id: int, authorization: Option<string>)

  /** The only status the handlers tell apart from other failures. */
  const Unauthorized: int := 401
}
