/**
 * The pure decisions the request handlers make: JavaScript truthiness of a
 * form field, the request gate, the credential test, the registration
 * presence check and which stored errors the registration page displays.
 */
module Rules {
  import opened Model

  /** `req.body[key]`: absent when the form did not send the field. */
  function Param(body: Body, key: string): Option<string> {
    if key in body then Some(body[key]) else None
  }

  /** JavaScript truthiness of a form field: present and not the empty string. */
  predicate Truthy(body: Body, key: string) {
    key in body && body[key] != ""
  }

  /** The request gate: only a session with a user, or the login path, passes. */
  predicate Admits(session: Session, path: string) {
    session.user.Some? || path == LoginPath
  }

  /** Whether the static-file middleware, mounted ahead of the gate, answers the request. */
  predicate IsStaticPath(path: string) {
    path == StaticMount || StaticMount + "/" <= path
  }

  predicate ServesStatic(req: Request, env: Env) {
    req.verb == Get && IsStaticPath(req.path) && env.staticServes
  }

  /** Strict equality of both submitted fields with the hard-coded pair. */
  predicate IsAdminCredentials(body: Body) {
    Param(body, UsernameKey) == Some(AdminName) && Param(body, PasswordKey) == Some(AdminPassword)
  }

  function Key(f: Field): string {
    match f
    case UsernameField => UsernameKey
    case DataField => DataKey
    case NicknameField => NicknameKey
  }

  /** The required-field message the registration handler stores for a missing field. */
  function RequiredMessage(f: Field): (m: string)
    ensures m != ""
  {
    match f
    case UsernameField => "Usuário é obrigatório"
    case DataField => "Data de nascimento é obrigatório"
    case NicknameField => "Apelido é obrigatório"
  }

  predicate IsCompleteRegistration(body: Body) {
    Truthy(body, UsernameKey) && Truthy(body, DataKey) && Truthy(body, NicknameKey)
  }

  function ErrorFor(body: Body, f: Field): string {
    if Truthy(body, Key(f)) then "" else RequiredMessage(f)
  }

  /**
   * The presence check of the registration form: no errors when all three
   * fields are truthy; otherwise an error object in which every missing field
   * carries its required-field message and every present field the empty string.
   */
  function Validate(body: Body): (r: Option<FieldErrors>)
    ensures r.None? <==> IsCompleteRegistration(body)
    ensures r.Some? ==> forall f :: (r.value.Get(f) == "") <==> Truthy(body, Key(f))
    ensures r.Some? ==> forall f :: !Truthy(body, Key(f)) ==> r.value.Get(f) == RequiredMessage(f)
  {
    if IsCompleteRegistration(body) then None
    else Some(FieldErrors(ErrorFor(body, UsernameField), ErrorFor(body, DataField), ErrorFor(body, NicknameField)))
  }

  /** The record a complete registration form appends. */
  function NewUser(body: Body): User
    requires IsCompleteRegistration(body)
  {
    User(body[UsernameKey], body[DataKey], body[NicknameKey])
  }

  predicate IsCompleteMessage(body: Body) {
    Truthy(body, MessageKey) && Truthy(body, UsernameKey)
  }

  /** The record a complete chat form appends, stamped with the server's clock. */
  function NewMessage(body: Body, now: int): ChatMessage
    requires IsCompleteMessage(body)
  {
    ChatMessage(body[MessageKey], body[UsernameKey], now)
  }

  /**
   * The error paragraph the registration page shows under field `f`: only a
   * truthy stored message is displayed.
   */
  function DisplayedError(errors: Option<FieldErrors>, f: Field): Option<string> {
    if errors.Some? && errors.value.Get(f) != "" then Some(errors.value.Get(f)) else None
  }

  /**
   * After a failed registration the page displays a message under exactly the
   * fields that were missing, and that message is the field's required-field text.
   */
  lemma DisplayedErrorsAreTheMissingFields(body: Body, f: Field)
    requires !IsCompleteRegistration(body)
    ensures DisplayedError(Validate(body), f) == if Truthy(body, Key(f)) then None else Some(RequiredMessage(f))
  {
  }

  /**
   * The verbs Express lists in its automatic answer to OPTIONS: those of every
   * route matching the path, in route order, with HEAD added after GET. The
   * catch-all `GET *` matches every path, so GET and HEAD are always there;
   * POST is there exactly for the three paths with a POST route.
   */
  function AllowedMethods(path: string): (ms: seq<string>)
    ensures |ms| >= 2 && ms[0] == "GET" && ms[1] == "HEAD"
    ensures ("POST" in ms) <==> (path == LoginPath || path == RegistrationPath || path == ChatPath)
    ensures forall i, j :: 0 <= i < j < |ms| ==> ms[i] != ms[j]
  {
    if path == LoginPath || path == RegistrationPath || path == ChatPath then ["GET", "HEAD", "POST"]
    else ["GET", "HEAD"]
  }

  /** The values of the chat page's author selector: every user's username, in list order. */
  function Usernames(users: seq<User>): (names: seq<string>)
    ensures |names| == |users|
    ensures forall i :: 0 <= i < |users| ==> names[i] == users[i].username
  {
    if users == [] then [] else [users[0].username] + Usernames(users[1..])
  }
}
