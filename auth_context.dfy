/**
 * The authentication context (src/contexts/AuthContext.tsx): on start-up the user
 * is restored from the two storage keys when both hold a value, a stored user that
 * fails to parse removes both keys, `login` builds the user from the reply and
 * the e-mail address and writes both keys, and `logout` removes them. The browser
 * store is a map from key to text; JSON text is produced and read by the function
 * parameters `serialize` and `parse` (`None` when parsing throws).
 */
module AuthContext {
  import opened Wrappers
  import opened JsText

  const TokenKey: string := "cinema_token"
  const UserKey: string := "cinema_user"
  const MsgLoginFailed: string := "Ошибка входа"
  /** `login` does not take the id from the reply: every user gets id 1. */
  const LoggedInId: int := 1

  datatype User = User(id: int, email: string, role: string, username: Option<string>)

  type Storage = map<string, string>

  /** `localStorage.getItem(key)`: `None` for a missing key. */
  function Get(st: Storage, key: string): Option<string> {
    if key in st then Some(st[key]) else None
  }

  /** `email.split('@')[0]`: the text before the first "@", or all of it. */
  function Username(email: string): (u: string)
    ensures IsPrefix(u, email) && '@' !in u
    ensures '@' in email ==> |u| < |email| && email[|u|] == '@'
    ensures '@' !in email ==> u == email
  {
    FirstPiece(email, '@');
    Split(email, '@')[0]
  }

  /** The store after a successful login. */
  function LoggedIn(st: Storage, token: string, userText: string): (r: Storage)
    ensures Get(r, TokenKey) == Some(token) && Get(r, UserKey) == Some(userText)
    ensures forall k :: k != TokenKey && k != UserKey ==> Get(r, k) == Get(st, k)
  {
    st[TokenKey := token][UserKey := userText]
  }

  /** The store after logout, or after a stored user failed to parse. */
  function LoggedOut(st: Storage): (r: Storage)
    ensures TokenKey !in r && UserKey !in r
    ensures forall k :: k in r <==> k in st && k != TokenKey && k != UserKey
    ensures forall k :: k in r ==> r[k] == st[k]
  {
    st - {TokenKey, UserKey}
  }

  /** What the start-up effect yields: the user it sets (if any) and the store. */
  function Restored(st: Storage, parse: string -> Option<User>): (r: (Option<User>, Storage))
    ensures r.0.Some? ==> Truthy(Get(st, TokenKey)) && Truthy(Get(st, UserKey)) && r.1 == st
    ensures !Truthy(Get(st, TokenKey)) || !Truthy(Get(st, UserKey)) ==> r == (None, st)
  {
    var token, userText := Get(st, TokenKey), Get(st, UserKey);
    if Truthy(token) && Truthy(userText) then
      match parse(userText.value)
      case Some(u) => (Some(u), st)
      case None => (None, LoggedOut(st))
    else (None, st)
  }

  /** A stored user that does not parse removes both keys, after which the next
    * start-up finds nothing and changes nothing. */
  lemma CorruptUserCleared(st: Storage, parse: string -> Option<User>)
    requires Truthy(Get(st, TokenKey)) && Truthy(Get(st, UserKey)) && parse(st[UserKey]).None?
    ensures Restored(st, parse) == (None, LoggedOut(st))
    ensures Restored(LoggedOut(st), parse) == (None, LoggedOut(st))
  {
  }

  /** Reloading after a login restores the logged-in user, when the token is
    * non-empty and parsing the written text gives the user back. */
  lemma RestoreAfterLogin(st: Storage, token: string, u: User,
                          serialize: User -> string, parse: string -> Option<User>)
    requires token != "" && serialize(u) != "" && parse(serialize(u)) == Some(u)
    ensures Restored(LoggedIn(st, token, serialize(u)), parse) == (Some(u), LoggedIn(st, token, serialize(u)))
  {
    var st2 := LoggedIn(st, token, serialize(u));
    assert Get(st2, TokenKey) == Some(token);
    assert Get(st2, UserKey) == Some(serialize(u));
  }

  /** Reloading after logout restores nobody, and logging out twice is logging out once. */
  lemma RestoreAfterLogout(st: Storage, parse: string -> Option<User>)
    ensures Restored(LoggedOut(st), parse) == (None, LoggedOut(st))
    ensures LoggedOut(LoggedOut(st)) == LoggedOut(st)
  {
    assert Get(LoggedOut(st), TokenKey) == None;
  }

  /** The fields of a successful login reply. */
  datatype LoginReply = LoginReply(email: string, role: string, token: string)

  /** What `login` resolves to. */
  datatype LoginResult = LoginResult(success: bool, error: Option<string>)

  /** The user `login` stores for a reply and the e-mail typed in. */
  function UserFor(reply: LoginReply, email: string): (u: User)
    ensures u.id == LoggedInId && u.email == reply.email && u.role == reply.role
    ensures u.username.Some? && IsPrefix(u.username.value, email) && '@' !in u.username.value
  {
    User(LoggedInId, reply.email, reply.role, Some(Username(email)))
  }

  class AuthProvider {
    var storage: Storage
    var user: Option<User>
    var loading: bool

    constructor (st: Storage)
      ensures storage == st && user == None && loading
    {
      storage, user, loading := st, None, true;
    }

    /** The start-up effect. */
    method Restore(parse: string -> Option<User>)
      modifies this
      ensures (user, storage) == (if Restored(old(storage), parse).0.Some? then Restored(old(storage), parse)
                                  else (old(user), Restored(old(storage), parse).1))
      ensures !loading
    {
      var token := Get(storage, TokenKey);
      var userText := Get(storage, UserKey);
      if Truthy(token) && Truthy(userText) {
        var parsed := parse(userText.value);
        if parsed.Some? {
          user := parsed;
        } else {
          storage := storage - {TokenKey};
          storage := storage - {UserKey};
          assert storage == LoggedOut(old(storage));
        }
      }
      loading := false;
    }

    /** `login(email, password)`: `reply` is the server's answer, `None` when the
      * request failed, and then `errorText` is `error.response?.data?.error`. */
    method Login(email: string, reply: Option<LoginReply>, errorText: Option<string>, serialize: User -> string)
      returns (r: LoginResult)
      modifies this
      ensures reply.Some? ==>
        r == LoginResult(true, None) && user == Some(UserFor(reply.value, email)) &&
        storage == LoggedIn(old(storage), reply.value.token, serialize(UserFor(reply.value, email)))
      ensures reply.None? ==>
        r == LoginResult(false, Some(OrElse(errorText, MsgLoginFailed))) &&
        user == old(user) && storage == old(storage)
      ensures loading == old(loading)
    {
      if reply.None? {
        return LoginResult(false, Some(OrElse(errorText, MsgLoginFailed)));
      }
      var userData := User(LoggedInId, reply.value.email, reply.value.role, Some(Split(email, '@')[0]));
      storage := storage[TokenKey := reply.value.token];
      storage := storage[UserKey := serialize(userData)];
      user := Some(userData);
      r := LoginResult(true, None);
    }

    /** `logout`. */
    method Logout()
      modifies this
      ensures storage == LoggedOut(old(storage)) && user == None && loading == old(loading)
    {
      storage := storage - {TokenKey};
      storage := storage - {UserKey};
      user := None;
    }
  }
}
