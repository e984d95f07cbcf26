/** The six handlers of the App component as pure functions of the state
    they start in and the outcome of the remote call(s) they make, giving the
    state once the handler has settled. Each function's `ensures` state the
    handler's properties; the class in Controller computes the same state
    step by step and is proved to end in it. */
module Handlers {
  import opened Remote

  /** Navigation targets. */
  const LoginPath: string := "/"
  const ArticlesPath: string := "/articles"

  /** Fixed texts the handlers put in `message`. */
  const Farewell: string := "Goodbye!"
  const LoginErrorText: string := "An error occurred. Please try again."
  const UpdateErrorText: string := "An error occurred while updating the article."

  /** The greeting used when the login response carries no message. */
  function DefaultGreeting(username: string): string {
    "Here are your articles, " + username + "!"
  }

  /** JavaScript's `m || fallback` on an optional string: an absent or empty
      string is falsy. */
  function OrElse(m: Option<string>, fallback: string): string {
    if m.Some? && m.value != "" then m.value else fallback
  }

  /** Everything the handlers read or write: the four React state variables,
      the token stored in localStorage, the router location, and the log of
      remote calls made so far (oldest first). `currentArticleId` is None
      both while it is still undefined and after `login` sets it to null. */
  datatype State = State(
    message: string,
    articles: seq<Article>,
    currentArticleId: Option<int>,
    spinnerOn: bool,
    token: Option<string>,
    location: string,
    requests: seq<Request>)

  /** How an async handler's promise ends: resolved, or rejected because
      the `catch` block itself threw. */
  datatype Exit = Returned | Threw

  datatype Settled = Settled(state: State, exit: Exit)

  /** The state on first render: the states' initial values, whatever token
      an earlier session left in storage, and the location the browser opened. */
  function Initial(storedToken: Option<string>, at: string): (r: State)
    ensures r.message == "" && r.articles == [] && r.currentArticleId == None
    ensures !r.spinnerOn && r.token == storedToken && r.location == at && r.requests == []
  {
    State("", [], None, false, storedToken, at, [])
  }

  /** `redirectToLogin`: navigate to the login screen, nothing else. */
  function RedirectToLogin(s: State): (r: State)
    ensures r.location == LoginPath
    ensures r.(location := s.location) == s
  {
    s.(location := LoginPath)
  }

  /** `redirectToArticles`: navigate to the articles screen, nothing else. */
  function RedirectToArticles(s: State): (r: State)
    ensures r.location == ArticlesPath
    ensures r.(location := s.location) == s
  {
    s.(location := ArticlesPath)
  }

  // The lifecycle every remote handler shares: clear the message and turn the
  // spinner on, make one call, and turn the spinner off in `finally`.

  function Begin(s: State): State {
    s.(message := "", spinnerOn := true)
  }

  function Send(s: State, req: Request): State {
    s.(requests := s.requests + [req])
  }

  function Finally(s: State): State {
    s.(spinnerOn := false)
  }

  /** `logout`: no remote call; the token is removed, the browser goes to the
      login screen and the farewell is shown. */
  function Logout(s: State): (r: State)
    ensures r.token == None && r.location == LoginPath && r.message == Farewell
    ensures r.articles == s.articles && r.currentArticleId == s.currentArticleId
    ensures r.spinnerOn == s.spinnerOn && r.requests == s.requests
  {
    RedirectToLogin(s.(token := None)).(message := Farewell)
  }

  /** `login`: POST the credentials with `fetch`. Only an ok response changes
      the session; a non-ok one leaves the cleared message and sets nothing;
      a rejection shows the generic error. The token is never cleared. */
  function Login(s: State, username: string, password: string, reply: LoginReply): (r: State)
    ensures !r.spinnerOn
    ensures r.requests == s.requests + [LoginRequest(username, password)]
    ensures r.articles == s.articles
    ensures r.token != s.token ==> reply.Answered? && reply.ok
    ensures reply.Answered? && reply.ok ==>
      && r.token == Some(reply.body.token)
      && r.currentArticleId == None
      && r.location == ArticlesPath
      && r.message == (if reply.body.message.Some? && reply.body.message.value != ""
                       then reply.body.message.value
                       else DefaultGreeting(username))
    ensures reply.Answered? && !reply.ok ==>
      && r.message == "" && r.token == s.token
      && r.location == s.location && r.currentArticleId == s.currentArticleId
    ensures reply.Failed? ==>
      && r.message == LoginErrorText && r.token == s.token
      && r.location == s.location && r.currentArticleId == s.currentArticleId
  {
    var pending := Send(Begin(s), LoginRequest(username, password));
    var settled :=
      match reply
      case Answered(ok, body) =>
        if ok then
          RedirectToArticles(pending.(token := Some(body.token),
                                      message := OrElse(body.message, DefaultGreeting(username)),
                                      currentArticleId := None))
        else pending
      case Failed => pending.(message := LoginErrorText);
    Finally(settled)
  }

  /** `getArticles`: GET the collection with the stored token. On success the
      collection is replaced by the server's list and the server's message
      is shown; a 401 goes to the login screen; any other status changes
      nothing more; with no response at all, reading `error.response.status`
      throws inside `catch`, so the handler rejects after `finally`. */
  function GetArticles(s: State, o: Outcome<Listing>): (r: Settled)
    ensures !r.state.spinnerOn
    ensures r.state.requests == s.requests + [ListRequest(s.token)]
    ensures r.state.token == s.token && r.state.currentArticleId == s.currentArticleId
    ensures r.exit == Threw <==> o.NoResponse?
    ensures o.Ok? ==> r.state.articles == o.payload.articles && r.state.message == o.payload.message
    ensures !o.Ok? ==> r.state.articles == s.articles && r.state.message == ""
    ensures r.state.location == (if o == HttpError(Unauthorized) then LoginPath else s.location)
  {
    var pending := Send(Begin(s), ListRequest(s.token));
    var settled :=
      match o
      case Ok(listing) =>
        Settled(pending.(articles := listing.articles, message := listing.message), Returned)
      case HttpError(status) =>
        Settled(if status == Unauthorized then RedirectToLogin(pending) else pending, Returned)
      case NoResponse => Settled(pending, Threw);
    Settled(Finally(settled.state), settled.exit)
  }

  /** `postArticle`: POST a draft. On success exactly the returned article is
      appended after the ones already held; failures are classified as in
      `getArticles`. */
  function PostArticle(s: State, draft: Draft, o: Outcome<Created>): (r: Settled)
    ensures !r.state.spinnerOn
    ensures r.state.requests == s.requests + [CreateRequest(draft, s.token)]
    ensures r.state.token == s.token && r.state.currentArticleId == s.currentArticleId
    ensures r.exit == Threw <==> o.NoResponse?
    ensures o.Ok? ==>
      && |r.state.articles| == |s.articles| + 1
      && (forall i :: 0 <= i < |s.articles| ==> r.state.articles[i] == s.articles[i])
      && r.state.articles[|s.articles|] == o.payload.article
      && r.state.message == o.payload.message
    ensures !o.Ok? ==> r.state.articles == s.articles && r.state.message == ""
    ensures r.state.location == (if o == HttpError(Unauthorized) then LoginPath else s.location)
  {
    var pending := Send(Begin(s), CreateRequest(draft, s.token));
    var settled :=
      match o
      case Ok(created) =>
        Settled(pending.(articles := pending.articles + [created.article], message := created.message), Returned)
      case HttpError(status) =>
        Settled(if status == Unauthorized then RedirectToLogin(pending) else pending, Returned)
      case NoResponse => Settled(pending, Threw);
    Settled(Finally(settled.state), settled.exit)
  }

  /** `updateArticle`: PUT the edited fields, then on success await one
      `getArticles` (whose outcome is `refetch`) and show the PUT's message
      over the one the refetch set. Its `catch` tests `error.response`
      before the status, so it never throws: a 401 goes to the login screen,
      and every other failure, the refetch's rejection included, shows the
      update error text. */
  function UpdateArticle(s: State, id: int, draft: Draft, o: Outcome<Ack>, refetch: Outcome<Listing>): (r: State)
    ensures !r.spinnerOn
    ensures r.token == s.token && r.currentArticleId == s.currentArticleId
    ensures o.Ok? ==> r.requests == s.requests + [UpdateRequest(id, draft, s.token), ListRequest(s.token)]
    ensures !o.Ok? ==> r.requests == s.requests + [UpdateRequest(id, draft, s.token)]
    ensures o.Ok? && refetch.Ok? ==> r.articles == refetch.payload.articles
    ensures !(o.Ok? && refetch.Ok?) ==> r.articles == s.articles
    ensures o.Ok? && !refetch.NoResponse? ==> r.message == o.payload.message
    ensures o == HttpError(Unauthorized) ==> r.message == ""
    ensures o.HttpError? && o.status != Unauthorized ==> r.message == UpdateErrorText
    ensures o.NoResponse? || (o.Ok? && refetch.NoResponse?) ==> r.message == UpdateErrorText
    ensures r.location ==
      (if o == HttpError(Unauthorized) || (o.Ok? && refetch == HttpError(Unauthorized))
       then LoginPath else s.location)
  {
    var pending := Send(Begin(s), UpdateRequest(id, draft, s.token));
    var settled :=
      match o
      case Ok(ack) =>
        var refetched := GetArticles(pending, refetch);
        if refetched.exit == Returned then refetched.state.(message := ack.message)
        else refetched.state.(message := UpdateErrorText)
      case HttpError(status) =>
        if status == Unauthorized then RedirectToLogin(pending)
        else pending.(message := UpdateErrorText)
      case NoResponse => pending.(message := UpdateErrorText);
    Finally(settled)
  }

  /** `deleteArticle`: DELETE by id, then on success await one `getArticles`
      and show the DELETE's message. Its `catch` reads
      `error?.response.status`, so a failure without a response, the
      refetch's own rejection included, throws again after `finally`. */
  function DeleteArticle(s: State, id: int, o: Outcome<Ack>, refetch: Outcome<Listing>): (r: Settled)
    ensures !r.state.spinnerOn
    ensures r.state.token == s.token && r.state.currentArticleId == s.currentArticleId
    ensures o.Ok? ==> r.state.requests == s.requests + [DeleteRequest(id, s.token), ListRequest(s.token)]
    ensures !o.Ok? ==> r.state.requests == s.requests + [DeleteRequest(id, s.token)]
    ensures o.Ok? && refetch.Ok? ==> r.state.articles == refetch.payload.articles
    ensures !(o.Ok? && refetch.Ok?) ==> r.state.articles == s.articles
    ensures o.Ok? && !refetch.NoResponse? ==> r.state.message == o.payload.message
    ensures !(o.Ok? && !refetch.NoResponse?) ==> r.state.message == ""
    ensures r.exit == Threw <==> o.NoResponse? || (o.Ok? && refetch.NoResponse?)
    ensures r.state.location ==
      (if o == HttpError(Unauthorized) || (o.Ok? && refetch == HttpError(Unauthorized))
       then LoginPath else s.location)
  {
    var pending := Send(Begin(s), DeleteRequest(id, s.token));
    var settled :=
      match o
      case Ok(ack) =>
        var refetched := GetArticles(pending, refetch);
        if refetched.exit == Returned then Settled(refetched.state.(message := ack.message), Returned)
        else Settled(refetched.state, Threw)
      case HttpError(status) =>
        Settled(if status == Unauthorized then RedirectToLogin(pending) else pending, Returned)
      case NoResponse => Settled(pending, Threw);
    Settled(Finally(settled.state), settled.exit)
  }
}
