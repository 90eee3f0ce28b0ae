/**
 * The running application as one object: the two process-wide lists that
 * the handlers append to, and the session bag of the client being served.
 * Each handler is a method that changes only the fields it is allowed to;
 * `Handle` runs the middleware stack and is proved to agree with `Routes.Step`.
 */
module Server {
  import opened Model
  import opened Rules
  import Routes

  class App {
    var users: seq<User>
    var messages: seq<ChatMessage>
    var session: Session

    /** A freshly started process: no users, no messages, no session. */
    constructor ()
      ensures users == [] && messages == [] && session == NoSession
    {
      users := [];
      messages := [];
      session := NoSession;
    }

    /** The abstract state of the object. */
    function Snapshot(): State
      reads this
    {
      State(users, messages, session)
    }

    /** `GET /`: the greeting page. */
    method Home() returns (resp: Response)
      ensures resp == Ok(View(HomeTitle, session.user, Hello))
    {
      resp := Ok(View(HomeTitle, session.user, Hello));
    }

    /** `GET /login`: the login form, whether or not someone is logged in. */
    method LoginPage() returns (resp: Response)
      ensures resp == Ok(View(LoginTitle, session.user, LoginForm))
    {
      resp := Ok(View(LoginTitle, session.user, LoginForm));
    }

    /** `GET /logout`: destroys the session; a store failure leaves it and answers 500. */
    method Logout(destroyOk: bool) returns (resp: Response)
      modifies this`session
      ensures destroyOk ==> session == NoSession && resp == Redirect(LoginPath)
      ensures !destroyOk ==> session == old(session) && resp == ServerError(DestroyFailedText)
    {
      if !destroyOk {
        resp := ServerError(DestroyFailedText);
        return;
      }
      session := NoSession;
      resp := Redirect(LoginPath);
    }

    /**
     * `POST /login`: the admin pair stores the admin identity stamped with the
     * clock and redirects home; any other pair changes nothing and redirects
     * back to the form.
     */
    method Login(body: Body, now: int) returns (resp: Response)
      modifies this`session
      ensures IsAdminCredentials(body) ==>
                session == old(session).(user := Some(SessionUser(AdminName, now))) && resp == Redirect(HomePath)
      ensures !IsAdminCredentials(body) ==> session == old(session) && resp == Redirect(LoginPath)
    {
      var username := Param(body, UsernameKey);
      var password := Param(body, PasswordKey);
      if username == Some(AdminName) && password == Some(AdminPassword) {
        session := session.(user := Some(SessionUser(username.value, now)));
        resp := Redirect(HomePath);
        return;
      }
      resp := Redirect(LoginPath);
    }

    /**
     * `GET /cadastro`: reads the stored errors, clears them, and shows them with
     * every registered user in insertion order.
     */
    method RegistrationPage() returns (resp: Response)
      modifies this`session
      ensures session == old(session).(errors := None)
      ensures resp == Ok(View(RegistrationTitle, session.user, Registration(old(session.errors), users)))
    {
      var errors := session.errors;
      session := session.(errors := None);
      resp := Ok(View(RegistrationTitle, session.user, Registration(errors, users)));
    }

    /**
     * `POST /cadastro`: a form missing any field stores the per-field errors and
     * leaves the users alone; a complete form appends exactly one record, with
     * no uniqueness check. Both redirect back to the registration page.
     */
    method Register(body: Body) returns (resp: Response)
      modifies this`users, this`session
      ensures resp == Redirect(RegistrationPath)
      ensures !IsCompleteRegistration(body) ==>
                users == old(users) && session == old(session).(errors := Validate(body))
      ensures IsCompleteRegistration(body) ==>
                users == old(users) + [NewUser(body)] && session == old(session)
    {
      var username, data, nickname := Truthy(body, UsernameKey), Truthy(body, DataKey), Truthy(body, NicknameKey);
      if !username || !data || !nickname {
        session := session.(errors := Validate(body));
        resp := Redirect(RegistrationPath);
        return;
      }
      users := users + [User(body[UsernameKey], body[DataKey], body[NicknameKey])];
      resp := Redirect(RegistrationPath);
    }

    /**
     * `GET /batepapo`: redirects to registration exactly when nobody is
     * registered; otherwise shows every username as a selectable author and the
     * whole message history. Changes nothing.
     */
    method ChatPage() returns (resp: Response)
      ensures resp == Redirect(RegistrationPath) <==> users == []
      ensures users != [] ==> resp == Ok(View(ChatTitle, session.user, Chat(Usernames(users), messages)))
    {
      if |users| == 0 {
        resp := Redirect(RegistrationPath);
        return;
      }
      resp := Ok(View(ChatTitle, session.user, Chat(Usernames(users), messages)));
    }

    /**
     * `POST /batepapo`: a complete form appends exactly one message stamped with
     * the clock, whoever the author; an incomplete one changes nothing. Both
     * redirect back to the chat page.
     */
    method PostMessage(body: Body, now: int) returns (resp: Response)
      modifies this`messages
      ensures resp == Redirect(ChatPath)
      ensures IsCompleteMessage(body) ==>
                messages == old(messages) + [ChatMessage(body[MessageKey], body[UsernameKey], now)]
      ensures !IsCompleteMessage(body) ==> messages == old(messages)
    {
      if !Truthy(body, MessageKey) || !Truthy(body, UsernameKey) {
        resp := Redirect(ChatPath);
        return;
      }
      messages := messages + [ChatMessage(body[MessageKey], body[UsernameKey], now)];
      resp := Redirect(ChatPath);
    }

    /** `GET *`: the not-found page. */
    method NotFoundPage() returns (resp: Response)
      ensures resp == NotFound(View(DefaultTitle, session.user, PageNotFound))
    {
      resp := NotFound(View(DefaultTitle, session.user, PageNotFound));
    }

    /**
     * One request through the stack: the static-file middleware, the gate,
     * then the handler its verb and path select.
     */
    method Handle(req: Request, env: Env) returns (resp: Response)
      modifies this
      ensures Transition(Snapshot(), resp) == Routes.Step(old(Snapshot()), req, env)
    {
      if ServesStatic(req, env) {
        resp := StaticFile;
        return;
      }
      if session.user.None? && req.path != LoginPath {
        resp := Redirect(LoginPath);
        return;
      }
      match req.verb {
        case Get =>
          if req.path == HomePath {
            resp := Home();
          } else if req.path == LoginPath {
            resp := LoginPage();
          } else if req.path == LogoutPath {
            resp := Logout(env.destroyOk);
          } else if req.path == RegistrationPath {
            resp := RegistrationPage();
          } else if req.path == ChatPath {
            resp := ChatPage();
          } else {
            resp := NotFoundPage();
          }
        case Post =>
          if req.path == LoginPath {
            resp := Login(req.body, env.now);
          } else if req.path == RegistrationPath {
            resp := Register(req.body);
          } else if req.path == ChatPath {
            resp := PostMessage(req.body, env.now);
          } else {
            resp := NoRoute;
          }
        case Options =>
          resp := Allowed(AllowedMethods(req.path));
        case Other =>
          resp := NoRoute;
      }
    }
  }
}
