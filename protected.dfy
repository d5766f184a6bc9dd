/** The route guard (src/components/ProtectedRoute.tsx): the tri-state `isAuthenticated`
    (None for "not yet known"), the decision `checkAuth` reaches from the two auth-service
    replies, the auth-change listener, and what the guard renders in each state. */
module Protected {
  import opened Js

  /** What one auth-service call produced: the reply `{ data, error }`, or an exception. */
  datatype AuthReply = Threw | Reply(data: Value, error: Value)

  /** A reply the code gets past: it did not throw, its `data` can be destructured and
      its `error` is falsy. */
  predicate Clean(reply: AuthReply) {
    reply.Reply? && !Nullish(reply.data) && !Truthy(reply.error)
  }

  /** Lines 16-40, the body of the `try`: `getSession` first, `getUser` only when there is
      no session. Destructuring `{ data: { session } }` throws when `data` is null or
      undefined, as does a call that rejects. */
  function CheckAuthOutcome(sessionReply: AuthReply, userReply: AuthReply): Result<bool> {
    if sessionReply.Threw? then Err(Thrown("getSession"))
    else
      var session :- Prop(sessionReply.data, "session");
      if Truthy(sessionReply.error) then Ok(false)
      else if Truthy(session) then Ok(true)
      else if userReply.Threw? then Err(Thrown("getUser"))
      else
        var user :- Prop(userReply.data, "user");
        if Truthy(userReply.error) then Ok(false) else Ok(Truthy(user))
  }

  /** Lines 15-44 with the `catch`: any exception counts as not authenticated. The
      visitor is let in exactly when the session reply is clean and either carries a
      session, or the user reply is clean and carries a user. */
  function CheckAuthDecision(sessionReply: AuthReply, userReply: AuthReply): (b: bool)
    ensures b <==> Clean(sessionReply) && (Truthy(Get(sessionReply.data, "session"))
                     || (Clean(userReply) && Truthy(Get(userReply.data, "user"))))
  {
    match CheckAuthOutcome(sessionReply, userReply)
    case Ok(v) => v
    case Err(_) => false
  }

  /** A live session settles the question without consulting the user reply, and a
      session error refuses whatever that reply says. */
  lemma SessionDecidesFirst(sessionReply: AuthReply, u1: AuthReply, u2: AuthReply)
    ensures Clean(sessionReply) && Truthy(Get(sessionReply.data, "session")) ==>
              CheckAuthDecision(sessionReply, u1) && CheckAuthDecision(sessionReply, u2)
    ensures sessionReply.Reply? && Truthy(sessionReply.error) ==>
              !CheckAuthDecision(sessionReply, u1) && !CheckAuthDecision(sessionReply, u2)
  {
  }

  /** Lines 62-75: spinner while unknown, a replacing redirect to the sign-in page that
      remembers where the visitor wanted to go, or the protected children. */
  datatype Screen = Spinner | Redirect(to: string, replace: bool, from: string) | Children

  const SignInPath := "/auth/signin"

  function Render(isAuthenticated: Option<bool>, location: string): (s: Screen)
    ensures s.Spinner? <==> isAuthenticated.None?
    ensures s.Children? <==> isAuthenticated == Some(true)
    ensures s.Redirect? <==> isAuthenticated == Some(false)
    ensures s.Redirect? ==> s.to == SignInPath && s.replace && s.from == location
  {
    match isAuthenticated
    case None => Spinner
    case Some(b) => if b then Children else Redirect(SignInPath, true, location)
  }

  /** The protected page is rendered only after a check or an auth event that found a
      signed-in visitor. */
  lemma ChildrenOnlyWhenSignedIn(s: AuthReply, u: AuthReply, location: string)
    ensures Render(Some(CheckAuthDecision(s, u)), location).Children? ==>
              Clean(s) && (Truthy(Get(s.data, "session")) || Truthy(Get(u.data, "user")))
  {
  }

  class AuthGate {
    var isAuthenticated: Option<bool>

    /** Line 11: unknown until the first check or event. */
    constructor ()
      ensures isAuthenticated == None
    {
      isAuthenticated := None;
    }

    /** Lines 15-44, step by step: each early `return` sets false or true first. */
    method CheckAuth(sessionReply: AuthReply, userReply: AuthReply)
      modifies this
      ensures isAuthenticated == Some(CheckAuthDecision(sessionReply, userReply))
    {
      if sessionReply.Threw? || Nullish(sessionReply.data) {
        isAuthenticated := Some(false);
        return;
      }
      var session := Get(sessionReply.data, "session");
      if Truthy(sessionReply.error) {
        isAuthenticated := Some(false);
        return;
      }
      if Truthy(session) {
        isAuthenticated := Some(true);
        return;
      }
      if userReply.Threw? || Nullish(userReply.data) {
        isAuthenticated := Some(false);
        return;
      }
      var user := Get(userReply.data, "user");
      if Truthy(userReply.error) {
        isAuthenticated := Some(false);
        return;
      }
      isAuthenticated := Some(Truthy(user));
    }

    /** Lines 51-54: `setIsAuthenticated(!!session)`. */
    method OnAuthStateChange(session: Value)
      modifies this
      ensures isAuthenticated == Some(Truthy(session))
    {
      isAuthenticated := Some(Truthy(session));
    }
  }
}
