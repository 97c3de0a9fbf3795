/** The session (`AuthProvider`): the logged-in identity and its token, kept in memory and
    in the browser's storage under the keys "user" and "token". Storage is a map from key
    to text; the login answer is a parameter. */
module AuthContext {
  import opened Options
  import opened Text
  import opened ClubTypes
  import opened UserJson

  const UserKey := "user"
  const TokenKey := "token"
  const LoginFallback := "Error al iniciar sesión"

  /** What mounting reads from the "user" entry: nothing (absent or empty text), an identity,
      or text `JSON.parse` throws on. */
  datatype Restore = Restored(user: Option<Identity>) | Unparseable

  /** The login answer's body on a 2xx. */
  datatype LoginData = LoginData(user: Identity, token: string)

  /** `savedUser ? JSON.parse(savedUser) : null`: a missing or empty entry is no session. */
  function RestoreUser(stored: map<string, string>): (r: Restore)
    ensures (UserKey !in stored || stored[UserKey] == "") ==> r == Restored(None)
    ensures UserKey in stored && stored[UserKey] != "" ==>
              (r == Unparseable <==> Decode(stored[UserKey]).None?)
    ensures r.Restored? && r.user.Some? ==>
              UserKey in stored && Decode(stored[UserKey]) == Some(r.user.value)
  {
    if UserKey !in stored || stored[UserKey] == "" then Restored(None)
    else match Decode(stored[UserKey])
      case None => Unparseable
      case Some(u) => Restored(Some(u))
  }

  /** `getItem('token') || null`: a missing or empty entry is no token. */
  function RestoreToken(stored: map<string, string>): (t: Option<string>)
    ensures t.None? <==> (TokenKey !in stored || stored[TokenKey] == "")
    ensures t.Some? ==> t.value == stored[TokenKey]
  {
    if TokenKey !in stored || stored[TokenKey] == "" then None else Some(stored[TokenKey])
  }

  /** The storage `logout` leaves: both entries gone, every other key as it was. */
  function LoggedOut(stored: map<string, string>): (s: map<string, string>)
    ensures UserKey !in s && TokenKey !in s
    ensures forall k :: k in stored && k != UserKey && k != TokenKey ==> k in s && s[k] == stored[k]
    ensures forall k :: k in s ==> k in stored
  {
    stored - {UserKey, TokenKey}
  }

  /** Logging out twice leaves the same storage as logging out once. */
  lemma LogoutIdempotent(stored: map<string, string>)
    ensures LoggedOut(LoggedOut(stored)) == LoggedOut(stored)
  {
    var once := LoggedOut(stored);
    assert LoggedOut(once).Keys == once.Keys;
  }

  /** After a logout, a reload restores no session. */
  lemma LoggedOutRestoresNothing(stored: map<string, string>)
    ensures RestoreUser(LoggedOut(stored)) == Restored(None)
    ensures RestoreToken(LoggedOut(stored)) == None
  {
  }

  /** The storage a successful login leaves, and what a reload reads back from it: the same
      identity, and the same token whenever that token is not empty. */
  lemma {:induction false} LoginRestores(stored: map<string, string>, data: LoginData)
    ensures RestoreUser(stored[UserKey := Encode(data.user)][TokenKey := data.token]) == Restored(Some(data.user))
    ensures data.token != "" ==>
              RestoreToken(stored[UserKey := Encode(data.user)][TokenKey := data.token]) == Some(data.token)
  {
    var s := stored[UserKey := Encode(data.user)][TokenKey := data.token];
    assert UserKey != TokenKey;
    assert s[UserKey] == Encode(data.user);
    EncodeNonEmpty(data.user);
    DecodeEncode(data.user);
  }

  class Session {
    var user: Option<Identity>
    var token: Option<string>
    var storage: map<string, string>

    /** The in-memory session is what a reload would read back from storage. */
    ghost predicate Persisted()
      reads this
    {
      RestoreUser(storage) == Restored(user) && RestoreToken(storage) == token
    }

    /** Mounting with a storage whose "user" entry `JSON.parse` accepts (or that has none). */
    constructor (stored: map<string, string>)
      requires RestoreUser(stored).Restored?
      ensures user == RestoreUser(stored).user && token == RestoreToken(stored)
      ensures storage == stored
      ensures Persisted()
    {
      user := RestoreUser(stored).user;
      token := RestoreToken(stored);
      storage := stored;
    }

    /** `login(email, password)`: one request; on a 2xx the identity and token are kept in
        memory and in storage and the call resolves with true; otherwise it throws the body's
        message (or the fallback, or the browser's connection error) and nothing changes. */
    method Login(email: string, password: string, res: Reply<LoginData>)
      returns (sent: Option<Request>, r: Outcome<bool>)
      modifies this
      ensures sent == Some(PostLogin(email, password))
      ensures res.Ok? ==> r == Done(true) && user == Some(res.data.user) && token == Some(res.data.token)
                          && storage == old(storage)[UserKey := Encode(res.data.user)][TokenKey := res.data.token]
      ensures res.Ok? && res.data.token != "" ==> Persisted()
      ensures res.Rejected? ==> r == Threw(OrDefault(res.message, LoginFallback))
      ensures res.Unreachable? ==> r == Threw(FetchFailed)
      ensures !res.Ok? ==> unchanged(this)
      ensures !res.Ok? && old(Persisted()) ==> Persisted()
    {
      sent := Some(PostLogin(email, password));
      match res {
        case Ok(data) =>
          user := Some(data.user);
          token := Some(data.token);
          storage := storage[UserKey := Encode(data.user)];
          storage := storage[TokenKey := data.token];
          LoginRestores(old(storage), data);
          r := Done(true);
        case Rejected(m) =>
          r := Threw(OrDefault(m, LoginFallback));
        case Unreachable =>
          r := Threw(FetchFailed);
      }
    }

    /** `logout()`: no identity, no token, and both storage entries removed, whatever the
        session was before. */
    method Logout()
      modifies this
      ensures user == None && token == None
      ensures storage == LoggedOut(old(storage))
      ensures Persisted()
    {
      user := None;
      token := None;
      storage := LoggedOut(storage);
      LoggedOutRestoresNothing(old(storage));
    }
  }
}
