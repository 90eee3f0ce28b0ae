/**
 * Sequences of requests from one client: what holds however many requests
 * arrive, in whatever order. The user and message lists only ever grow; an
 * anonymous client that never asks for the login page changes nothing; a
 * session user exists only after an admin login; and while a client stays
 * signed in, the lists grow by exactly the complete forms it submits.
 */
module Traces {
  import opened Model
  import opened Rules
  import opened Routes

  /** One request together with what it finds in the outside world. */
  datatype Exchange = Exchange(req: Request, env: Env)

  /** The state after serving every exchange of `t` in order. */
  function Final(st: State, t: seq<Exchange>): State
    decreases |t|
  {
    if t == [] then st else Final(Step(st, t[0].req, t[0].env).state, t[1..])
  }

  /** The responses to the exchanges of `t`, one per request. */
  function Replies(st: State, t: seq<Exchange>): (rs: seq<Response>)
    ensures |rs| == |t|
    decreases |t|
  {
    if t == [] then [] else [Step(st, t[0].req, t[0].env).response] + Replies(Step(st, t[0].req, t[0].env).state, t[1..])
  }

  predicate IsRegistration(x: Exchange) {
    x.req.verb == Post && x.req.path == RegistrationPath && IsCompleteRegistration(x.req.body)
  }

  predicate IsChatPost(x: Exchange) {
    x.req.verb == Post && x.req.path == ChatPath && IsCompleteMessage(x.req.body)
  }

  predicate IsLogout(x: Exchange) {
    x.req.verb == Get && x.req.path == LogoutPath && x.env.destroyOk
  }

  predicate IsAdminLogin(x: Exchange) {
    x.req.verb == Post && x.req.path == LoginPath && IsAdminCredentials(x.req.body)
  }

  /** The user records the complete registration forms of `t` carry, in order. */
  function Registered(t: seq<Exchange>): seq<User>
    decreases |t|
  {
    if t == [] then []
    else (if IsRegistration(t[0]) then [NewUser(t[0].req.body)] else []) + Registered(t[1..])
  }

  /** The messages the complete chat forms of `t` carry, each with the clock of its request. */
  function Posted(t: seq<Exchange>): seq<ChatMessage>
    decreases |t|
  {
    if t == [] then []
    else (if IsChatPost(t[0]) then [NewMessage(t[0].req.body, t[0].env.now)] else []) + Posted(t[1..])
  }

  /** Every session user is the admin. */
  predicate AdminOnly(st: State) {
    st.session.user.Some? ==> st.session.user.value.username == AdminName
  }

  /** Users and messages are append-only: what was there stays, in place, whatever the requests. */
  lemma {:induction false} AppendOnly(st: State, t: seq<Exchange>)
    ensures st.users <= Final(st, t).users
    ensures st.messages <= Final(st, t).messages
    decreases |t|
  {
    if t != [] {
      var s := Step(st, t[0].req, t[0].env).state;
      AppendOnly(s, t[1..]);
    }
  }

  /**
   * An anonymous client that never asks for the login page changes nothing and
   * only ever gets a redirect to the login page or a static file.
   */
  lemma {:induction false} AnonymousIsInert(st: State, t: seq<Exchange>)
    requires st.session.user.None?
    requires forall k :: 0 <= k < |t| ==> t[k].req.path != LoginPath
    ensures Final(st, t) == st
    ensures forall k :: 0 <= k < |t| ==> Replies(st, t)[k] == Redirect(LoginPath) || Replies(st, t)[k] == StaticFile
    decreases |t|
  {
    if t != [] {
      assert Step(st, t[0].req, t[0].env).state == st;
      assert forall k :: 0 <= k < |t[1..]| ==> t[1..][k] == t[k + 1];
      AnonymousIsInert(st, t[1..]);
      assert Replies(st, t) == [Step(st, t[0].req, t[0].env).response] + Replies(st, t[1..]);
    }
  }

  /**
   * After a successful logout the client is locked out for good: until it asks
   * for the login page, nothing it sends changes the state, and every reply is
   * a redirect to the login page or a static file.
   */
  lemma {:induction false} LoggedOutStaysOut(st: State, body: Body, env: Env, t: seq<Exchange>)
    requires st.session.user.Some? && env.destroyOk
    requires forall k :: 0 <= k < |t| ==> t[k].req.path != LoginPath
    ensures var s := Step(st, Request(Get, LogoutPath, body), env).state;
      && Final(s, t) == s
      && forall k :: 0 <= k < |t| ==> Replies(s, t)[k] == Redirect(LoginPath) || Replies(s, t)[k] == StaticFile
  {
    var s := Step(st, Request(Get, LogoutPath, body), env).state;
    AnonymousIsInert(s, t);
  }

  /** No request can put anyone but the admin into the session. */
  lemma {:induction false} AdminOnlyIsKept(st: State, t: seq<Exchange>)
    requires AdminOnly(st)
    ensures AdminOnly(Final(st, t))
    decreases |t|
  {
    if t != [] {
      AdminOnlyIsKept(Step(st, t[0].req, t[0].env).state, t[1..]);
    }
  }

  /**
   * A session that starts without a user and ends with one went through an
   * admin login on the way, and the user it ends with is the admin.
   */
  lemma {:induction false} SessionUserNeedsLogin(st: State, t: seq<Exchange>)
    requires st.session.user.None?
    requires Final(st, t).session.user.Some?
    ensures Final(st, t).session.user.value.username == AdminName
    ensures exists k :: 0 <= k < |t| && IsAdminLogin(t[k])
    decreases |t|
  {
    assert t != [];
    var s := Step(st, t[0].req, t[0].env).state;
    if s.session.user.Some? {
      assert IsAdminLogin(t[0]);
      AdminOnlyIsKept(s, t[1..]);
    } else {
      SessionUserNeedsLogin(s, t[1..]);
      var k :| 0 <= k < |t[1..]| && IsAdminLogin(t[1..][k]);
      assert IsAdminLogin(t[k + 1]);
    }
  }

  /** One request from a signed-in client that is not a logout, as `SignedInGrowth` needs it. */
  lemma SignedInStep(st: State, x: Exchange)
    requires st.session.user.Some? && !IsLogout(x)
    ensures var s := Step(st, x.req, x.env).state;
      && s.session.user.Some?
      && s.users == st.users + (if IsRegistration(x) then [NewUser(x.req.body)] else [])
      && s.messages == st.messages + (if IsChatPost(x) then [NewMessage(x.req.body, x.env.now)] else [])
  {
  }

  /** `Registered` and `Posted` take the first exchange's record, if any, then the rest. */
  lemma RecordsUnfold(t: seq<Exchange>)
    requires t != []
    ensures Registered(t) == (if IsRegistration(t[0]) then [NewUser(t[0].req.body)] else []) + Registered(t[1..])
    ensures Posted(t) == (if IsChatPost(t[0]) then [NewMessage(t[0].req.body, t[0].env.now)] else []) + Posted(t[1..])
  {
  }

  /**
   * While a signed-in client does not log out, it stays signed in, and the
   * lists grow by exactly the records of its complete registration and chat
   * forms, in the order it sent them.
   */
  lemma {:induction false} SignedInGrowth(st: State, t: seq<Exchange>)
    requires st.session.user.Some?
    requires forall k :: 0 <= k < |t| ==> !IsLogout(t[k])
    ensures Final(st, t).session.user.Some?
    ensures Final(st, t).users == st.users + Registered(t)
    ensures Final(st, t).messages == st.messages + Posted(t)
    decreases |t|
  {
    if t != [] {
      var s := Step(st, t[0].req, t[0].env).state;
      SignedInStep(st, t[0]);
      assert forall k :: 0 <= k < |t[1..]| ==> t[1..][k] == t[k + 1];
      SignedInGrowth(s, t[1..]);
      RecordsUnfold(t);
      var u := if IsRegistration(t[0]) then [NewUser(t[0].req.body)] else [];
      var m := if IsChatPost(t[0]) then [NewMessage(t[0].req.body, t[0].env.now)] else [];
      assert st.users + u + Registered(t[1..]) == st.users + (u + Registered(t[1..]));
      assert st.messages + m + Posted(t[1..]) == st.messages + (m + Posted(t[1..]));
    }
  }
}
