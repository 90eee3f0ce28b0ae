/**
 * The data of the chat-board web application: requests and responses with
 * HTTP stripped away, the user and message records held in the two
 * process-wide lists, and the session bag of the requesting client.
 */
module Model {

  datatype Option<+T> = None | Some(value: T)

  /** The urlencoded form fields of a request body, by name. */
  type Body = map<string, string>

  /**
   * The HTTP verb. Express answers HEAD with the GET handler, so a HEAD
   * request is written as `Get`. Express answers OPTIONS itself from the
   * routes that match the path. Every other verb is `Other`.
   */
  datatype Method = Get | Post | Options | Other

  datatype Request = Request(verb: Method, path: string, body: Body)

  /**
   * What a single request sees of the outside world: the clock (`new Date()`
   * as a number), the outcome of the session store's `destroy`, and whether
   * the static-file middleware finds a file for the request's path.
   */
  datatype Env = Env(now: int, destroyOk: bool, staticServes: bool)

  /** A registered user; the birth date `data` is kept as the submitted text. */
  datatype User = User(username: string, data: string, nickname: string)

  /** A chat message as appended to the message list. */
  datatype ChatMessage = ChatMessage(message: string, username: string, date: int)

  /** The authenticated identity stored in the session by a successful login. */
  datatype SessionUser = SessionUser(username: string, lastLogin: int)

  /** The three fields of the registration form. */
  datatype Field = UsernameField | DataField | NicknameField

  /** The per-field error object stored in the session after a failed registration. */
  datatype FieldErrors = FieldErrors(username: string, data: string, nickname: string)
  {
    function Get(f: Field): string {
      match f
      case UsernameField => username
      case DataField => data
      case NicknameField => nickname
    }
  }

  /**
   * The session bag: `user` is absent for an anonymous client, `errors` is
   * absent when it is undefined or null (the application treats both alike).
   */
  datatype Session = Session(user: Option<SessionUser>, errors: Option<FieldErrors>)

  /** The session of a client that has none yet, or whose session was destroyed. */
  const NoSession: Session := Session(None, None)

  /** Everything the request handlers read or write. */
  datatype State = State(users: seq<User>, messages: seq<ChatMessage>, session: Session)

  const InitialState: State := State([], [], NoSession)

  /** The page-specific data a rendered page shows. */
  datatype Content =
    | Hello
    | LoginForm
    | Registration(errors: Option<FieldErrors>, users: seq<User>)
    | Chat(participants: seq<string>, messages: seq<ChatMessage>)
    | PageNotFound

  /**
   * A rendered page: its title, the user greeted by the navigation bar (the
   * bar is shown only when the session has a user) and its content.
   */
  datatype View = View(title: string, nav: Option<SessionUser>, content: Content)

  datatype Response =
    | Redirect(target: string)   // 302
    | Ok(view: View)             // 200 with a rendered page
    | NotFound(view: View)       // 404 from the catch-all GET route
    | ServerError(text: string)  // 500 with a plain-text message
    | Allowed(methods: seq<string>)  // Express's own 200 to OPTIONS, listing the verbs in its Allow header
    | NoRoute                    // Express's own 404 when no route matches a non-OPTIONS verb and the path
    | StaticFile                 // answered by the static-file middleware

  /** The new state and the response of one request. */
  datatype Transition = Transition(state: State, response: Response)

  // Paths
  const HomePath: string := "/"
  const LoginPath: string := "/login"
  const LogoutPath: string := "/logout"
  const RegistrationPath: string := "/cadastro"
  const ChatPath: string := "/batepapo"
  const StaticMount: string := "/static"

  // Form field names
  const UsernameKey: string := "username"
  const PasswordKey: string := "password"
  const DataKey: string := "data"
  const NicknameKey: string := "nickname"
  const MessageKey: string := "message"

  // The one accepted credential pair
  const AdminName: string := "admin"
  const AdminPassword: string := "admin"

  // Page titles; `DefaultTitle` is the renderer's fallback
  const HomeTitle: string := "Home"
  const LoginTitle: string := "Login"
  const RegistrationTitle: string := "Cadastro"
  const ChatTitle: string := "Bate papo"
  const DefaultTitle: string := "Página"

  const DestroyFailedText: string := "Erro ao encerrar a sessão"
}
