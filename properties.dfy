/**
 * What one request does, stated through the whole middleware stack
 * (`Routes.Step`): the gate, each route's effect on the lists and the session,
 * and a few short request sequences the application promises.
 */
module Properties {
  import opened Model
  import opened Rules
  import opened Routes

  /** An anonymous request for any path but the login page is sent to the login page, changing nothing. */
  lemma GateRedirectsAnonymous(st: State, req: Request, env: Env)
    requires st.session.user.None? && req.path != LoginPath && !ServesStatic(req, env)
    ensures Step(st, req, env) == Transition(st, Redirect(LoginPath))
  {
  }

  /** A request that is not a static file, with a session user or for the login path with any verb, reaches the route table. */
  lemma GateLetsThrough(st: State, req: Request, env: Env)
    requires !ServesStatic(req, env) && (st.session.user.Some? || req.path == LoginPath)
    ensures Step(st, req, env) == Route(st, req, env)
  {
  }

  /** The static-file middleware runs before the session and the gate, so it answers anonymous clients too. */
  lemma StaticBypassesGate(st: State, req: Request, env: Env)
    requires ServesStatic(req, env)
    ensures Step(st, req, env) == Transition(st, StaticFile)
  {
  }

  /**
   * `POST /login`, from any session: the response goes home exactly when both
   * fields are "admin", and then the session holds the admin stamped with the
   * clock; any other pair changes nothing and goes back to the login form.
   */
  lemma LoginStep(st: State, body: Body, env: Env)
    ensures var r := Step(st, Request(Post, LoginPath, body), env);
      && r.state.users == st.users && r.state.messages == st.messages
      && r.state.session.errors == st.session.errors
      && (r.response == Redirect(HomePath) <==> IsAdminCredentials(body))
      && (IsAdminCredentials(body) ==> r.state.session.user == Some(SessionUser(AdminName, env.now)))
      && (!IsAdminCredentials(body) ==> r == Transition(st, Redirect(LoginPath)))
  {
  }

  /**
   * `GET /logout` with a session user: a successful destruction leaves no user
   * and no errors and goes to the login page; a failed one answers 500 and
   * keeps the session.
   */
  lemma LogoutStep(st: State, body: Body, env: Env)
    requires st.session.user.Some?
    ensures var r := Step(st, Request(Get, LogoutPath, body), env);
      && r.state.users == st.users && r.state.messages == st.messages
      && (env.destroyOk ==> r.state.session == NoSession && r.response == Redirect(LoginPath))
      && (!env.destroyOk ==> r.state == st && r.response == ServerError(DestroyFailedText))
  {
  }

  /**
   * After a successful logout the next request that is not a static file and
   * not for the login page is gated again (`Traces.LoggedOutStaysOut` extends
   * this to every later request until the login page is asked for).
   */
  lemma LogoutLocksOut(st: State, body: Body, env: Env, req: Request, env': Env)
    requires st.session.user.Some? && env.destroyOk
    requires req.path != LoginPath && !ServesStatic(req, env')
    ensures var s := Step(st, Request(Get, LogoutPath, body), env).state;
      Step(s, req, env') == Transition(s, Redirect(LoginPath))
  {
  }

  /**
   * `POST /cadastro` with a field missing: the users are untouched, the session
   * errors give every missing field its required-field message and every
   * present field the empty string, and the client goes back to the form.
   */
  lemma RegisterIncompleteStep(st: State, body: Body, env: Env)
    requires st.session.user.Some? && !IsCompleteRegistration(body)
    ensures var r := Step(st, Request(Post, RegistrationPath, body), env);
      && r.response == Redirect(RegistrationPath)
      && r.state.users == st.users && r.state.messages == st.messages
      && r.state.session.user == st.session.user
      && r.state.session.errors.Some?
      && forall f :: r.state.session.errors.value.Get(f) == if Truthy(body, Key(f)) then "" else RequiredMessage(f)
  {
  }

  /**
   * `POST /cadastro` with all three fields: exactly one record with the
   * submitted values is appended after the existing ones; nothing else changes.
   */
  lemma RegisterCompleteStep(st: State, body: Body, env: Env)
    requires st.session.user.Some? && IsCompleteRegistration(body)
    ensures var r := Step(st, Request(Post, RegistrationPath, body), env);
      && r.response == Redirect(RegistrationPath)
      && r.state.users == st.users + [User(body[UsernameKey], body[DataKey], body[NicknameKey])]
      && r.state.messages == st.messages && r.state.session == st.session
  {
  }

  /** Registering the same form twice adds two identical records: usernames need not be unique. */
  lemma DuplicateRegistrationAccepted(st: State, body: Body, env: Env, env': Env)
    requires st.session.user.Some? && IsCompleteRegistration(body)
    ensures var req := Request(Post, RegistrationPath, body);
      var u := User(body[UsernameKey], body[DataKey], body[NicknameKey]);
      Step(Step(st, req, env).state, req, env').state.users == st.users + [u, u]
  {
  }

  /** `GET /cadastro` shows the errors stored before the call with every user in order, and clears them. */
  lemma RegistrationPageStep(st: State, body: Body, env: Env)
    requires st.session.user.Some?
    ensures var r := Step(st, Request(Get, RegistrationPath, body), env);
      && r.response == Ok(View(RegistrationTitle, st.session.user, Registration(st.session.errors, st.users)))
      && r.state == st.(session := st.session.(errors := None))
  {
    RoutedPathsDistinct();
  }

  /**
   * Flash errors: after a failed registration the next `GET /cadastro` shows
   * the stored errors (displayed under exactly the missing fields) and the one
   * after it shows none.
   */
  lemma FlashErrorsShownOnce(st: State, form: Body, noBody: Body, e1: Env, e2: Env, e3: Env)
    requires st.session.user.Some? && !IsCompleteRegistration(form)
    ensures var s1 := Step(st, Request(Post, RegistrationPath, form), e1).state;
      var t2 := Step(s1, Request(Get, RegistrationPath, noBody), e2);
      var t3 := Step(t2.state, Request(Get, RegistrationPath, noBody), e3);
      && t2.response == Ok(View(RegistrationTitle, st.session.user, Registration(Validate(form), st.users)))
      && (forall f :: DisplayedError(Validate(form), f) == if Truthy(form, Key(f)) then None else Some(RequiredMessage(f)))
      && t3.response == Ok(View(RegistrationTitle, st.session.user, Registration(None, st.users)))
      && t3.state == st.(session := st.session.(errors := None))
  {
    RoutedPathsDistinct();
    forall f ensures DisplayedError(Validate(form), f) == if Truthy(form, Key(f)) then None else Some(RequiredMessage(f)) {
      DisplayedErrorsAreTheMissingFields(form, f);
    }
  }

  /**
   * `GET /batepapo` never changes anything; it redirects to registration exactly
   * when no user is registered, and otherwise lists every username as an
   * author choice and the whole message history.
   */
  lemma ChatPageStep(st: State, body: Body, env: Env)
    requires st.session.user.Some?
    ensures var r := Step(st, Request(Get, ChatPath, body), env);
      && r.state == st
      && (r.response == Redirect(RegistrationPath) <==> st.users == [])
      && (st.users != [] ==> r.response == Ok(View(ChatTitle, st.session.user, Chat(Usernames(st.users), st.messages))))
  {
    RoutedPathsDistinct();
  }

  /**
   * `POST /batepapo`: a form with both fields appends exactly one message with
   * the server's clock, with no check that the author is registered or that
   * anyone is; otherwise the messages are untouched. Both go back to the chat.
   */
  lemma PostChatStep(st: State, body: Body, env: Env)
    requires st.session.user.Some?
    ensures var r := Step(st, Request(Post, ChatPath, body), env);
      && r.response == Redirect(ChatPath)
      && r.state.users == st.users && r.state.session == st.session
      && (IsCompleteMessage(body) ==>
            r.state.messages == st.messages + [ChatMessage(body[MessageKey], body[UsernameKey], env.now)])
      && (!IsCompleteMessage(body) ==> r.state.messages == st.messages)
  {
  }

  /**
   * From a signed-in client, a GET for a path without a route that is not a
   * static file gets the not-found page; a POST for such a path, or any verb
   * but GET, POST and OPTIONS, gets Express's 404.
   */
  lemma UnroutedStep(st: State, req: Request, env: Env)
    requires st.session.user.Some? && !ServesStatic(req, env)
    requires req.path !in {HomePath, LoginPath, LogoutPath, RegistrationPath, ChatPath}
    ensures var r := Step(st, req, env);
      && r.state == st
      && (req.verb == Get ==> r.response == NotFound(View(DefaultTitle, st.session.user, PageNotFound)))
      && (req.verb == Post || req.verb == Other ==> r.response == NoRoute)
  {
  }

  /**
   * OPTIONS, once past the gate, is answered by Express with the verbs of the
   * routes matching the path, and changes nothing: POST is offered exactly on
   * the login, registration and chat paths.
   */
  lemma OptionsStep(st: State, req: Request, env: Env)
    requires req.verb == Options && Admits(st.session, req.path)
    ensures var r := Step(st, req, env);
      && r.state == st
      && r.response.Allowed?
      && (r.response.methods == ["GET", "HEAD", "POST"] <==> req.path in {LoginPath, RegistrationPath, ChatPath})
      && (req.path !in {LoginPath, RegistrationPath, ChatPath} ==> r.response.methods == ["GET", "HEAD"])
  {
  }

  /**
   * From a fresh process: logging in as admin, registering "joe" and posting
   * "hi" as "joe" leaves one user, one message stamped with the clock of the
   * post, and the admin logged in.
   */
  lemma ChatScenario(t0: int, t1: int, t2: int)
    ensures var s1 := Step(InitialState, Request(Post, LoginPath, map[UsernameKey := "admin", PasswordKey := "admin"]),
                           Env(t0, true, false)).state;
      var s2 := Step(s1, Request(Post, RegistrationPath, map[UsernameKey := "joe", DataKey := "2000-01-01", NicknameKey := "J"]),
                     Env(t1, true, false)).state;
      var s3 := Step(s2, Request(Post, ChatPath, map[MessageKey := "hi", UsernameKey := "joe"]),
                     Env(t2, true, false)).state;
      && s3.users == [User("joe", "2000-01-01", "J")]
      && s3.messages == [ChatMessage("hi", "joe", t2)]
      && s3.session == Session(Some(SessionUser(AdminName, t0)), None)
  {
  }
}
