/** Any sequence of handler invocations, one after another, and what holds
    of the state after all of them. */
module Runs {
  import opened Remote
  import opened Handlers

  /** One user action together with the outcome of every remote call it makes. */
  datatype Action =
    | LogoutAction
    | LoginAction(username: string, password: string, reply: LoginReply)
    | ListAction(list: Outcome<Listing>)
    | CreateAction(draft: Draft, create: Outcome<Created>)
    | UpdateAction(id: int, edit: Draft, update: Outcome<Ack>, updateRefetch: Outcome<Listing>)
    | DeleteAction(deleteId: int, delete: Outcome<Ack>, deleteRefetch: Outcome<Listing>)

  /** The state once the action's handler has settled; a rejected promise
      does not stop the application, so its exit is dropped. */
  function Step(s: State, a: Action): (r: State)
    ensures a.LogoutAction? ==> r.spinnerOn == s.spinnerOn
    ensures !a.LogoutAction? ==> !r.spinnerOn
  {
    match a
    case LogoutAction => Logout(s)
    case LoginAction(u, p, reply) => Login(s, u, p, reply)
    case ListAction(o) => GetArticles(s, o).state
    case CreateAction(d, o) => PostArticle(s, d, o).state
    case UpdateAction(id, d, o, refetch) => UpdateArticle(s, id, d, o, refetch)
    case DeleteAction(id, o, refetch) => DeleteArticle(s, id, o, refetch).state
  }

  function Run(s: State, trace: seq<Action>): State
    decreases |trace|
  {
    if trace == [] then s else Run(Step(s, trace[0]), trace[1..])
  }

  lemma {:induction false} RunAppend(s: State, trace: seq<Action>, a: Action)
    ensures Run(s, trace + [a]) == Step(Run(s, trace), a)
    decreases |trace|
  {
    if trace == [] {
      assert [] + [a] == [a];
    } else {
      assert (trace + [a])[1..] == trace[1..] + [a];
      RunAppend(Step(s, trace[0]), trace[1..], a);
    }
  }

  /** The spinner is on after a run exactly when it was on before and the run
      held nothing but logouts: every remote handler leaves it off. */
  lemma {:induction false} SpinnerAfterRun(s: State, trace: seq<Action>)
    ensures Run(s, trace).spinnerOn <==>
      s.spinnerOn && forall i :: 0 <= i < |trace| ==> trace[i].LogoutAction?
    decreases |trace|
  {
    if trace != [] {
      SpinnerAfterRun(Step(s, trace[0]), trace[1..]);
      assert forall i :: 1 <= i < |trace| ==> trace[i] == trace[1..][i - 1];
    }
  }

  /** Starting from the first render, the spinner is off after any run. */
  lemma SpinnerOffFromStart(storedToken: Option<string>, at: string, trace: seq<Action>)
    ensures !Run(Initial(storedToken, at), trace).spinnerOn
  {
    SpinnerAfterRun(Initial(storedToken, at), trace);
  }

  /** The actions that write the stored token: logout removes it, an ok
      login stores the returned one. */
  predicate SessionEvent(a: Action) {
    a.LogoutAction? || (a.LoginAction? && a.reply.Answered? && a.reply.ok)
  }

  /** Reference definition of the stored token after a run: set by the last
      session event, or the one held before if there was none. */
  function TokenAfter(before: Option<string>, trace: seq<Action>): Option<string>
    decreases |trace|
  {
    if trace == [] then before
    else
      var last := trace[|trace| - 1];
      if last.LogoutAction? then None
      else if SessionEvent(last) then Some(last.reply.body.token)
      else TokenAfter(before, trace[..|trace| - 1])
  }

  lemma {:induction false} TokenAfterRun(s: State, trace: seq<Action>)
    ensures Run(s, trace).token == TokenAfter(s.token, trace)
    decreases |trace|
  {
    if trace != [] {
      var init, last := trace[..|trace| - 1], trace[|trace| - 1];
      assert trace == init + [last];
      RunAppend(s, init, last);
      TokenAfterRun(s, init);
    }
  }

  /** No failure of any kind, a 401 included, touches the stored token. */
  lemma {:induction false} TokenKeptWithoutSessionEvents(s: State, trace: seq<Action>)
    requires forall i :: 0 <= i < |trace| ==> !SessionEvent(trace[i])
    ensures Run(s, trace).token == s.token
    decreases |trace|
  {
    if trace != [] {
      assert !SessionEvent(trace[0]);
      TokenKeptWithoutSessionEvents(Step(s, trace[0]), trace[1..]);
    }
  }

  /** How many remote calls an action makes: none for logout, two for an
      update or delete that succeeded (the call and its one refetch), one
      otherwise. */
  function Calls(a: Action): nat {
    match a
    case LogoutAction => 0
    case UpdateAction(_, _, o, _) => if o.Ok? then 2 else 1
    case DeleteAction(_, o, _) => if o.Ok? then 2 else 1
    case _ => 1
  }

  function TotalCalls(trace: seq<Action>): nat
    decreases |trace|
  {
    if trace == [] then 0 else Calls(trace[0]) + TotalCalls(trace[1..])
  }

  lemma {:induction false} RequestsAfterRun(s: State, trace: seq<Action>)
    ensures |Run(s, trace).requests| == |s.requests| + TotalCalls(trace)
    ensures Run(s, trace).requests[..|s.requests|] == s.requests
    decreases |trace|
  {
    if trace != [] {
      var next := Step(s, trace[0]);
      assert |next.requests| == |s.requests| + Calls(trace[0]);
      assert next.requests[..|s.requests|] == s.requests;
      RequestsAfterRun(next, trace[1..]);
    }
  }

  /** The actions whose success response writes the collection. */
  predicate Synchronises(a: Action) {
    match a
    case ListAction(o) => o.Ok?
    case CreateAction(_, o) => o.Ok?
    case UpdateAction(_, _, o, refetch) => o.Ok? && refetch.Ok?
    case DeleteAction(_, o, refetch) => o.Ok? && refetch.Ok?
    case _ => false
  }

  /** Without a successful list, create or refetch, the collection after a
      run is the one before it: logins, logouts, 401s and every other
      failure leave it alone. */
  lemma {:induction false} ArticlesKeptWithoutSuccess(s: State, trace: seq<Action>)
    requires forall i :: 0 <= i < |trace| ==> !Synchronises(trace[i])
    ensures Run(s, trace).articles == s.articles
    decreases |trace|
  {
    if trace != [] {
      assert !Synchronises(trace[0]);
      ArticlesKeptWithoutSuccess(Step(s, trace[0]), trace[1..]);
    }
  }

  /** The screen an action navigates to, if any: logout goes to the login
      screen, an ok login to the articles screen, and a 401 on any article
      call (an update's or delete's refetch included) to the login screen. */
  function Navigation(a: Action): Option<string> {
    match a
    case LogoutAction => Some(LoginPath)
    case LoginAction(_, _, reply) =>
      if reply.Answered? && reply.ok then Some(ArticlesPath) else None
    case ListAction(o) =>
      if o == HttpError(Unauthorized) then Some(LoginPath) else None
    case CreateAction(_, o) =>
      if o == HttpError(Unauthorized) then Some(LoginPath) else None
    case UpdateAction(_, _, o, refetch) =>
      if o == HttpError(Unauthorized) || (o.Ok? && refetch == HttpError(Unauthorized))
      then Some(LoginPath) else None
    case DeleteAction(_, o, refetch) =>
      if o == HttpError(Unauthorized) || (o.Ok? && refetch == HttpError(Unauthorized))
      then Some(LoginPath) else None
  }

  /** Reference definition of the location after a run: where the last
      navigating action went, or where the browser was if none navigated. */
  function LocationAfter(before: string, trace: seq<Action>): string
    decreases |trace|
  {
    if trace == [] then before
    else
      match Navigation(trace[|trace| - 1])
      case Some(target) => target
      case None => LocationAfter(before, trace[..|trace| - 1])
  }

  lemma {:induction false} LocationAfterRun(s: State, trace: seq<Action>)
    ensures Run(s, trace).location == LocationAfter(s.location, trace)
    decreases |trace|
  {
    if trace != [] {
      var init, last := trace[..|trace| - 1], trace[|trace| - 1];
      assert trace == init + [last];
      RunAppend(s, init, last);
      LocationAfterRun(s, init);
    }
  }
}
