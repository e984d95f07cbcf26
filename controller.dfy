/** The App component as an object whose handlers update its fields in the
    order the source does. Each handler takes the outcome of its remote call
    as a parameter and is proved to settle in the state the matching
    function of Handlers gives. */
module Controller {
  import opened Remote
  import H = Handlers

  class App {
    var message: string
    var articles: seq<Article>
    var currentArticleId: Option<int>
    var spinnerOn: bool
    /** The value stored under localStorage key 'token'. */
    var token: Option<string>
    /** The router location. */
    var location: string
    /** Every remote call made so far, oldest first. */
    var requests: seq<Request>

    function Snapshot(): (s: H.State)
      reads this
      ensures s.message == message && s.articles == articles && s.spinnerOn == spinnerOn
      ensures s.currentArticleId == currentArticleId && s.token == token
      ensures s.location == location && s.requests == requests
    {
      H.State(message, articles, currentArticleId, spinnerOn, token, location, requests)
    }

    /** First render: the states take their initial values, the token is
        whatever storage already holds, and the location is where the
        browser opened. */
    constructor (storedToken: Option<string>, at: string)
      ensures Snapshot() == H.Initial(storedToken, at)
    {
      message := "";
      articles := [];
      currentArticleId := None;
      spinnerOn := false;
      token := storedToken;
      location := at;
      requests := [];
    }

    method RedirectToLogin()
      modifies this
      ensures Snapshot() == H.RedirectToLogin(old(Snapshot()))
    {
      location := H.LoginPath;
    }

    method RedirectToArticles()
      modifies this
      ensures Snapshot() == H.RedirectToArticles(old(Snapshot()))
    {
      location := H.ArticlesPath;
    }

    /** One remote call leaving the client. It is only ever made while the
        spinner is on and the message is cleared. */
    method Send(req: Request)
      requires spinnerOn && message == ""
      modifies this
      ensures Snapshot() == old(Snapshot()).(requests := old(requests) + [req])
    {
      requests := requests + [req];
    }

    method Logout()
      modifies this
      ensures Snapshot() == H.Logout(old(Snapshot()))
    {
      token := None;
      RedirectToLogin();
      message := H.Farewell;
    }

    method Login(username: string, password: string, reply: LoginReply)
      modifies this
      ensures Snapshot() == H.Login(old(Snapshot()), username, password, reply)
    {
      message := "";
      spinnerOn := true;
      Send(LoginRequest(username, password));
      match reply {
        case Answered(ok, body) =>
          if ok {
            token := Some(body.token);
            message := H.OrElse(body.message, H.DefaultGreeting(username));
            currentArticleId := None;
            RedirectToArticles();
          }
        case Failed =>
          message := H.LoginErrorText;
      }
      spinnerOn := false;
    }

    method GetArticles(o: Outcome<Listing>) returns (exit: H.Exit)
      modifies this
      ensures H.Settled(Snapshot(), exit) == H.GetArticles(old(Snapshot()), o)
    {
      message := "";
      spinnerOn := true;
      var authorization := token;
      Send(ListRequest(authorization));
      match o {
        case Ok(listing) =>
          articles := listing.articles;
          message := listing.message;
          exit := H.Returned;
        case HttpError(status) =>
          if status == Unauthorized {
            RedirectToLogin();
          }
          exit := H.Returned;
        case NoResponse =>
          // `error?.response.status` reads a field of undefined.
          exit := H.Threw;
      }
      spinnerOn := false;
    }

    method PostArticle(draft: Draft, o: Outcome<Created>) returns (exit: H.Exit)
      modifies this
      ensures H.Settled(Snapshot(), exit) == H.PostArticle(old(Snapshot()), draft, o)
    {
      message := "";
      spinnerOn := true;
      var authorization := token;
      Send(CreateRequest(draft, authorization));
      match o {
        case Ok(created) =>
          articles := articles + [created.article];
          message := created.message;
          exit := H.Returned;
        case HttpError(status) =>
          if status == Unauthorized {
            RedirectToLogin();
          }
          exit := H.Returned;
        case NoResponse =>
          exit := H.Threw;
      }
      spinnerOn := false;
    }

    method UpdateArticle(id: int, draft: Draft, o: Outcome<Ack>, refetch: Outcome<Listing>)
      modifies this
      ensures Snapshot() == H.UpdateArticle(old(Snapshot()), id, draft, o, refetch)
    {
      message := "";
      spinnerOn := true;
      var authorization := token;
      Send(UpdateRequest(id, draft, authorization));
      match o {
        case Ok(ack) =>
          var refetched := GetArticles(refetch);
          if refetched == H.Returned {
            message := ack.message;
          } else {
            // The refetch's rejection carries no response.
            message := H.UpdateErrorText;
          }
        case HttpError(status) =>
          if status == Unauthorized {
            RedirectToLogin();
          } else {
            message := H.UpdateErrorText;
          }
        case NoResponse =>
          message := H.UpdateErrorText;
      }
      spinnerOn := false;
    }

    method DeleteArticle(id: int, o: Outcome<Ack>, refetch: Outcome<Listing>) returns (exit: H.Exit)
      modifies this
      ensures H.Settled(Snapshot(), exit) == H.DeleteArticle(old(Snapshot()), id, o, refetch)
    {
      message := "";
      spinnerOn := true;
      var authorization := token;
      Send(DeleteRequest(id, authorization));
      match o {
        case Ok(ack) =>
          var refetched := GetArticles(refetch);
          if refetched == H.Returned {
            message := ack.message;
            exit := H.Returned;
          } else {
            // `error?.response.status` on the refetch's rejection throws again.
            exit := H.Threw;
          }
        case HttpError(status) =>
          if status == Unauthorized {
            RedirectToLogin();
          }
          exit := H.Returned;
        case NoResponse =>
          exit := H.Threw;
      }
      spinnerOn := false;
    }
  }
}
