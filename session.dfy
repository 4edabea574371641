/** The session store (src/contexts/AuthContext.tsx): the signed-in user, the
    loading flag and the browser's `localStorage`, which keeps the user record
    across reloads under the key "user". The network call that checks the
    credentials is not modelled; its outcome is passed in. */
module Session {
  import opened Types
  import Routing

  const UserKey := "user"
  const InvalidCredentials := "Identifiants invalides"
  const MissingProvider := "useAuth must be used within an AuthProvider"
  /** The kind of error `JSON.parse` throws on text that is not JSON; its
      message depends on the JavaScript engine. */
  const ParseError := "SyntaxError"

  /** A `localStorage` value: the record written by `login`, read back as the
      same user, or any other text. `Text("")` is the one falsy value. */
  datatype Stored = Serialized(user: User) | Text(text: string)

  /** `useAuth`: the provider's value, or the error thrown outside a provider. */
  function UseAuth<T>(context: Option<T>): (r: Result<T, string>)
    ensures r.Ok? <==> context.Some?
    ensures r.Ok? ==> r.value == context.value
    ensures r.Err? ==> r.error == MissingProvider
  {
    match context
    case Some(c) => Ok(c)
    case None => Err(MissingProvider)
  }

  class AuthProvider {
    var user: Option<User>
    var isLoading: bool
    var storage: map<string, Stored>

    /** The stored "user" entry and `user` say the same thing: both hold the
        same record, or both are absent. */
    ghost predicate StorageAgrees()
      reads this
    {
      match user
      case None => UserKey !in storage
      case Some(u) => UserKey in storage && storage[UserKey] == Serialized(u)
    }

    /** There is a stored record that `if (savedUser)` accepts. */
    predicate HasSavedUser()
      reads this
    {
      UserKey in storage && storage[UserKey].Serialized?
    }

    /** What the route guard reads from the context. */
    function GuardView(): (s: Routing.GuardState)
      reads this
      ensures s.isLoading == isLoading && s.user == user
    {
      Routing.GuardState(isLoading, user)
    }

    /** The provider mounts with no user and not loading, over whatever the
        browser had persisted. */
    constructor (persisted: map<string, Stored>)
      ensures user == None && !isLoading && storage == persisted
    {
      user := None;
      isLoading := false;
      storage := persisted;
    }

    /** The mount effect: a stored record becomes the user, unchecked. An empty
        entry is falsy and leaves the user as it is. Any other text makes
        `JSON.parse` throw out of the effect before `setUser` runs; nothing
        catches it, and the outcome reports it. Storage is only read. */
    method Restore() returns (outcome: Result<(), string>)
      modifies this`user
      ensures outcome.Err? <==> UserKey in storage && storage[UserKey].Text? && storage[UserKey].text != ""
      ensures outcome.Err? ==> outcome.error == ParseError
      ensures HasSavedUser() ==> user == Some(storage[UserKey].user) && StorageAgrees()
      ensures !HasSavedUser() ==> user == old(user)
    {
      outcome := Ok(());
      if UserKey in storage {
        match storage[UserKey]
        case Serialized(u) => user := Some(u);
        case Text(text) =>
          if text != "" {
            outcome := Err(ParseError);
          }
      }
    }

    /** The part of `login` before the request is awaited. */
    method BeginLogin()
      modifies this`isLoading
      ensures isLoading
    {
      isLoading := true;
    }

    /** The part of `login` after the request settles, with its outcome: a user
        record on success, `None` for any failure; `saved` tells whether
        `localStorage.setItem` succeeded. A response sets the user. A saved
        one also replaces the stored record; an unsaved one (a full or
        refused storage) leaves storage as it was, and the `catch` still
        reports `InvalidCredentials`. A failed request changes neither. The
        `finally` clears the loading flag either way. */
    method CompleteLogin(response: Option<User>, saved: bool) returns (outcome: Result<(), string>)
      modifies this
      ensures !isLoading
      ensures response.Some? && saved ==>
        outcome == Ok(()) && user == response &&
        storage == old(storage)[UserKey := Serialized(response.value)] && StorageAgrees()
      ensures response.Some? && !saved ==>
        outcome == Err(InvalidCredentials) && user == response && storage == old(storage)
      ensures response.None? ==>
        outcome == Err(InvalidCredentials) && user == old(user) && storage == old(storage)
    {
      if response.Some? {
        user := response;
        if saved {
          storage := storage[UserKey := Serialized(response.value)];
          outcome := Ok(());
        } else {
          outcome := Err(InvalidCredentials);
        }
      } else {
        outcome := Err(InvalidCredentials);
      }
      isLoading := false;
    }

    /** `login`: the loading flag is raised while the request is in flight and
        lowered when it settles. A success leaves store and user in agreement,
        and a failed request keeps an agreement that held before. */
    method Login(response: Option<User>, saved: bool) returns (outcome: Result<(), string>)
      modifies this
      ensures !isLoading
      ensures outcome.Ok? <==> response.Some? && saved
      ensures outcome.Ok? ==>
        user == response &&
        storage == old(storage)[UserKey := Serialized(response.value)] && StorageAgrees()
      ensures outcome.Err? ==> outcome.error == InvalidCredentials && storage == old(storage)
      ensures response.Some? && !saved ==> user == response
      ensures response.None? ==> user == old(user) && (old(StorageAgrees()) ==> StorageAgrees())
    {
      BeginLogin();
      outcome := CompleteLogin(response, saved);
    }

    /** `logout`: no user, and the "user" entry removed; every other stored
        entry stays. Once not loading, every path shows the login form. */
    method Logout()
      modifies this`user, this`storage
      ensures user == None && storage == old(storage) - {UserKey}
      ensures StorageAgrees()
      ensures forall k :: k in old(storage) && k != UserKey ==> k in storage && storage[k] == old(storage)[k]
      ensures !isLoading ==> forall path :: Routing.AppRoutes(path, GuardView()) == Routing.Render(Routing.LoginForm)
    {
      user := None;
      storage := storage - {UserKey};
    }
  }

  /** A session that signs in and out ends as it began as far as the "user" entry
      goes: it is gone, the rest of storage is as it was before the login,
      whether or not the record could be saved. */
  method LoginThenLogout(auth: AuthProvider, response: User, saved: bool)
    modifies auth
    ensures auth.user == None && !auth.isLoading
    ensures auth.storage == old(auth.storage) - {UserKey}
  {
    var outcome := auth.Login(Some(response), saved);
    auth.Logout();
  }
}
