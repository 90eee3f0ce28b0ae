/**
 * The application's behaviour on one request as a function of the state:
 * the static-file middleware, then the request gate, then the route table.
 * This is the specification the `Server.App` object is proved against.
 */
module Routes {
  import opened Model
  import opened Rules

  /** The five routed paths are different strings, so each request selects one route. */
  lemma RoutedPathsDistinct()
    ensures HomePath != LoginPath && HomePath != LogoutPath && HomePath != RegistrationPath && HomePath != ChatPath
    ensures LoginPath != LogoutPath && LoginPath != RegistrationPath && LoginPath != ChatPath
    ensures LogoutPath != RegistrationPath && LogoutPath != ChatPath
    ensures RegistrationPath != ChatPath
  {
  }

  /** `GET /logout`: destroy the session, or answer 500 when the store fails. */
  function Logout(st: State, destroyOk: bool): Transition {
    if destroyOk then Transition(st.(session := NoSession), Redirect(LoginPath))
    else Transition(st, ServerError(DestroyFailedText))
  }

  /** `POST /login`: store the admin identity on a credential match. */
  function Login(st: State, body: Body, now: int): Transition {
    if IsAdminCredentials(body) then
      Transition(st.(session := st.session.(user := Some(SessionUser(AdminName, now)))), Redirect(HomePath))
    else
      Transition(st, Redirect(LoginPath))
  }

  /** `GET /cadastro`: show and consume the stored errors, and list the users. */
  function ShowRegistration(st: State): Transition {
    Transition(st.(session := st.session.(errors := None)),
               Ok(View(RegistrationTitle, st.session.user, Registration(st.session.errors, st.users))))
  }

  /** `POST /cadastro`: store field errors, or append the new user. */
  function Register(st: State, body: Body): Transition {
    var errors := Validate(body);
    if errors.Some? then
      Transition(st.(session := st.session.(errors := errors)), Redirect(RegistrationPath))
    else
      Transition(st.(users := st.users + [NewUser(body)]), Redirect(RegistrationPath))
  }

  /** `GET /batepapo`: send a client to registration while nobody is registered. */
  function ShowChat(st: State): Transition {
    if |st.users| == 0 then Transition(st, Redirect(RegistrationPath))
    else Transition(st, Ok(View(ChatTitle, st.session.user, Chat(Usernames(st.users), st.messages))))
  }

  /** `POST /batepapo`: append a complete message, ignore an incomplete one. */
  function PostChat(st: State, body: Body, now: int): Transition {
    if IsCompleteMessage(body) then
      Transition(st.(messages := st.messages + [NewMessage(body, now)]), Redirect(ChatPath))
    else
      Transition(st, Redirect(ChatPath))
  }

  /** The route table, for a request the gate has let through. */
  function Route(st: State, req: Request, env: Env): Transition {
    var nav := st.session.user;
    match req.verb
    case Get =>
      if req.path == HomePath then Transition(st, Ok(View(HomeTitle, nav, Hello)))
      else if req.path == LoginPath then Transition(st, Ok(View(LoginTitle, nav, LoginForm)))
      else if req.path == LogoutPath then Logout(st, env.destroyOk)
      else if req.path == RegistrationPath then ShowRegistration(st)
      else if req.path == ChatPath then ShowChat(st)
      else Transition(st, NotFound(View(DefaultTitle, nav, PageNotFound)))
    case Post =>
      if req.path == LoginPath then Login(st, req.body, env.now)
      else if req.path == RegistrationPath then Register(st, req.body)
      else if req.path == ChatPath then PostChat(st, req.body, env.now)
      else Transition(st, NoRoute)
    case Options =>
      Transition(st, Allowed(AllowedMethods(req.path)))
    case Other =>
      Transition(st, NoRoute)
  }

  /** One request through the whole middleware stack. */
  function Step(st: State, req: Request, env: Env): Transition {
    if ServesStatic(req, env) then Transition(st, StaticFile)
    else if !Admits(st.session, req.path) then Transition(st, Redirect(LoginPath))
    else Route(st, req, env)
  }
}
