/** The mock guest session: a token that expires an hour after issue, kept
    in one local-storage entry; restoring it on mount, logging in and
    logging out. The clock and the random part of the token text are
    parameters; the storage entry is a field. */
module Auth {
  import opened Wrappers
  import opened JsBuiltins

  datatype User = User(id: string, email: string, name: string)

  datatype AuthToken = AuthToken(
    accessToken: string,
    tokenType: string,
    expiresIn: int,
    expiresAt: int,
    user: User)

  /** What the storage entry can hold: the empty string (falsy, so it is
      ignored), text `JSON.parse` rejects, or a token. */
  datatype StoredToken = Blank | Unparseable | Parsed(token: AuthToken)

  const GuestUser: User := User("guest_user", "guest@zama.ai", "Guest User")

  /** One hour, in seconds. */
  const TokenLifetime: int := 3600

  /** `generateMockToken()` at `now` (milliseconds); `draw` is the
      `Math.random().toString(36)` text whose characters 2..10 enter the
      access token. */
  function GenerateMockToken(now: int, draw: string): (t: AuthToken)
    ensures t.tokenType == "Bearer" && t.user == GuestUser
    ensures t.expiresIn == 3600 && t.expiresAt == now + 3600000
  {
    AuthToken("mock_token_" + Substr(draw, 2, 9) + "_" + IntToString(now),
              "Bearer", TokenLifetime, now + TokenLifetime * 1000, GuestUser)
  }

  /** `isTokenValid(token)` at `now`. */
  predicate IsTokenValid(token: AuthToken, now: int)
  {
    now < token.expiresAt
  }

  /** A fresh token is valid from its issue until just before an hour has
      passed, and invalid from then on. */
  lemma FreshTokenLifetime(issued: int, draw: string, now: int)
    ensures IsTokenValid(GenerateMockToken(issued, draw), issued)
    ensures IsTokenValid(GenerateMockToken(issued, draw), now) <==> now < issued + 3600000
  {
  }

  /** What restoring does with the storage entry: the user to adopt (None:
      the user is left as it is) and the entry afterwards. */
  datatype RestoreOutcome = RestoreOutcome(user: Option<User>, stored: Option<StoredToken>)

  /** `checkExistingAuth()` at `now`: a valid token yields its user; an
      expired token or unparseable text is removed; no entry or an empty
      one changes nothing. */
  function Restore(stored: Option<StoredToken>, now: int): (r: RestoreOutcome)
    ensures r.user.Some? <==> stored.Some? && stored.value.Parsed? && IsTokenValid(stored.value.token, now)
    ensures r.user.Some? ==> r.user.value == stored.value.token.user && r.stored == stored
    ensures stored.Some? && r.stored.None? <==>
              stored.Some? && (stored.value.Unparseable?
                               || (stored.value.Parsed? && !IsTokenValid(stored.value.token, now)))
    ensures r.stored.Some? ==> r.stored == stored
  {
    match stored
    case None => RestoreOutcome(None, None)
    case Some(Blank) => RestoreOutcome(None, stored)
    case Some(Unparseable) => RestoreOutcome(None, None)
    case Some(Parsed(token)) =>
      if IsTokenValid(token, now) then RestoreOutcome(Some(token.user), stored)
      else RestoreOutcome(None, None)
  }

  /** A token stored by a login at `issued` restores the guest at `now`
      exactly within the hour, and is otherwise removed. */
  lemma {:induction false} RestoreAfterLogin(issued: int, draw: string, now: int)
    ensures var stored := Some(Parsed(GenerateMockToken(issued, draw)));
            Restore(stored, now)
            == if now < issued + 3600000 then RestoreOutcome(Some(GuestUser), stored)
               else RestoreOutcome(None, None)
  {
    FreshTokenLifetime(issued, draw, now);
  }

  /** The provider's state. */
  class AuthSession {
    var user: Option<User>
    var isLoading: bool
    /** The `zama_auth_token` entry of local storage. */
    var stored: Option<StoredToken>

    /** Mounting: no user, loading, and whatever the entry held. */
    constructor(initial: Option<StoredToken>)
      ensures user == None && isLoading && stored == initial
    {
      user, isLoading, stored := None, true, initial;
    }

    /** `isAuthenticated`. */
    predicate IsAuthenticated()
      reads this
    {
      user.Some?
    }

    /** The mount effect at `now`; loading ends on every path. */
    method CheckExistingAuth(now: int)
      modifies this
      ensures !isLoading
      ensures stored == Restore(old(stored), now).stored
      ensures user == if Restore(old(stored), now).user.Some? then Restore(old(stored), now).user else old(user)
    {
      var outcome := Restore(stored, now);
      if outcome.user.Some? {
        user := outcome.user;
      }
      stored := outcome.stored;
      isLoading := false;
    }

    /** `login()` at `now`: store a fresh token and adopt its user. */
    method Login(now: int, draw: string)
      modifies this
      ensures stored == Some(Parsed(GenerateMockToken(now, draw)))
      ensures user == Some(GuestUser) && IsAuthenticated()
      ensures !isLoading
    {
      isLoading := true;
      var token := GenerateMockToken(now, draw);
      stored := Some(Parsed(token));
      user := Some(token.user);
      isLoading := false;
    }

    /** `logout()`: remove the entry and forget the user. */
    method Logout()
      modifies this
      ensures stored == None && user == None && !IsAuthenticated()
      ensures isLoading == old(isLoading)
    {
      stored := None;
      user := None;
    }
  }
}
