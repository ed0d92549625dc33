/** The authentication service (src/app/services/auth.service.ts): keeps
    the signed-in user and the session token in local storage.

    The user is kept as the JSON text `JSON.stringify` makes of it; parsing
    is not modelled, and a parsed user stands for the text it came from. */
module Auth {
  import opened JsStrings
  import opened BrowserStorage

  const UserKey: string := "currentUser"
  const TokenKey: string := "authToken"
  const LoginRoute: string := "/login"
  const UnexpectedError: string := "Ocorreu um erro inesperado"
  const ClientErrorPrefix: string := "Erro: "

  /** What the login and register endpoints answer: the user, as JSON
      text, and perhaps a token. */
  datatype AuthResponse = AuthResponse(userJson: string, token: Option<string>)

  /** The user a service starts with: the stored entry, unless it is
      missing or empty. */
  function RestoredUser(entries: map<string, string>): (u: Option<string>)
    ensures u.Some? <==> UserKey in entries && entries[UserKey] != ""
    ensures u.Some? ==> u.value == entries[UserKey]
  {
    if UserKey in entries && entries[UserKey] != "" then Some(entries[UserKey]) else None
  }

  /** Storage after the `tap` of a successful login or register: the user
      is written; the token only when present and non-empty. */
  function StoreSession(entries: map<string, string>, r: AuthResponse): map<string, string> {
    var withUser := entries[UserKey := r.userJson];
    if r.token.Some? && r.token.value != "" then withUser[TokenKey := r.token.value] else withUser
  }

  function ClearSession(entries: map<string, string>): map<string, string> {
    entries - {UserKey} - {TokenKey}
  }

  /** How an HTTP failure reaches `handleError`: a client-side `ErrorEvent`
      with its message, or anything else. */
  datatype HttpFailure = ClientSide(message: string) | ServerSide(status: int)

  function HandleError(e: HttpFailure): (msg: string)
    ensures e.ServerSide? ==> msg == UnexpectedError
    ensures e.ClientSide? ==> StartsWith(msg, ClientErrorPrefix)
  {
    match e
    case ClientSide(m) => ClientErrorPrefix + m
    case ServerSide(_) => UnexpectedError
  }

  /** The message tells the two kinds apart, and a client-side message can
      be read back from it. */
  lemma HandleErrorReadable(e: HttpFailure)
    ensures StartsWith(HandleError(e), ClientErrorPrefix) <==> e.ClientSide?
    ensures e.ClientSide? ==> HandleError(e)[|ClientErrorPrefix|..] == e.message
  {
    if e.ServerSide? {
      assert UnexpectedError[0] != ClientErrorPrefix[0];
    }
  }

  /** A session survives a reload: a service started over the storage a
      login left behind has that user signed in, and the token is the
      new one or, if none came, the previous one. */
  lemma SessionSurvivesReload(entries: map<string, string>, r: AuthResponse)
    requires r.userJson != ""
    ensures RestoredUser(StoreSession(entries, r)) == Some(r.userJson)
    ensures var after := StoreSession(entries, r);
      if r.token.Some? && r.token.value != "" then TokenKey in after && after[TokenKey] == r.token.value
      else (TokenKey in after <==> TokenKey in entries)
           && (TokenKey in entries ==> after[TokenKey] == entries[TokenKey])
  {
  }

  /** Logging out leaves nobody to restore and no token, and keeps every
      other stored entry. */
  lemma LogoutForgets(entries: map<string, string>, key: string)
    ensures RestoredUser(ClearSession(entries)) == None
    ensures TokenKey !in ClearSession(entries)
    ensures key != UserKey && key != TokenKey ==>
      (key in ClearSession(entries) <==> key in entries)
      && (key in entries ==> ClearSession(entries)[key] == entries[key])
  {
  }

  /** Signing in touches only the two session keys. */
  lemma StoreSessionKeepsOthers(entries: map<string, string>, r: AuthResponse, key: string)
    requires key != UserKey && key != TokenKey
    ensures key in StoreSession(entries, r) <==> key in entries
    ensures key in entries ==> StoreSession(entries, r)[key] == entries[key]
  {
  }

  class AuthService {
    const storage: LocalStorage
    var currentUser: Option<string>   // the value of `currentUserSubject`

    constructor (storage: LocalStorage)
      ensures this.storage == storage
      ensures currentUser == RestoredUser(storage.entries)
    {
      this.storage := storage;
      var stored := storage.GetItem(UserKey);
      currentUser := if stored.Some? && stored.value != "" then stored else None;
    }

    function IsAuthenticated(): (b: bool)
      reads this
      ensures b <==> currentUser.Some?
    {
      currentUser != None
    }

    function Token(): (t: Option<string>)
      reads this, storage
      ensures t.Some? <==> TokenKey in storage.entries
      ensures t.Some? ==> t.value == storage.entries[TokenKey]
    {
      storage.GetItem(TokenKey)
    }

    /** The `tap` of `login` and of `register`. */
    method OnAuthenticated(r: AuthResponse)
      modifies this, storage
      ensures storage.entries == StoreSession(old(storage.entries), r)
      ensures currentUser == Some(r.userJson)
    {
      storage.SetItem(UserKey, r.userJson);
      if r.token.Some? && r.token.value != "" {
        storage.SetItem(TokenKey, r.token.value);
      }
      currentUser := Some(r.userJson);
    }

    /** Returns the route navigated to. */
    method Logout() returns (route: string)
      modifies this, storage
      ensures storage.entries == ClearSession(old(storage.entries))
      ensures currentUser == None && route == LoginRoute
    {
      storage.RemoveItem(UserKey);
      storage.RemoveItem(TokenKey);
      currentUser := None;
      route := LoginRoute;
    }
  }

  /** Signing in, then reloading the page, keeps the user signed in. */
  method ReloadAfterLogin(storage: LocalStorage, r: AuthResponse) returns (reloaded: AuthService)
    requires r.userJson != ""
    modifies storage
    ensures reloaded.IsAuthenticated() && reloaded.currentUser == Some(r.userJson)
  {
    var auth := new AuthService(storage);
    auth.OnAuthenticated(r);
    SessionSurvivesReload(old(storage.entries), r);
    reloaded := new AuthService(storage);
  }
}
