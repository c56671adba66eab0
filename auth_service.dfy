/** The session held by the authentication service: a token, the current user
    and an authenticated flag, mirrored into two browser-storage keys. */
module AuthService {

  import opened Wrappers
  import opened Models

  const TokenKey: string := "auth_token"
  const UserKey: string := "current_user"

  /** What `JSON.parse` makes of the stored user text: a failure (it throws), JSON
      `null`, or a user record. */
  datatype ParsedUser = ParseFailure | ParsedNull | Parsed(user: User)

  /** The login response: `token` and `user` are optional. */
  datatype AuthResponse = AuthResponse(message: string, token: Option<string>, user: Option<User>)

  /** The whole observable state: browser storage and the three subjects' values. */
  datatype Session = Session(
    storage: map<string, string>,
    token: Option<string>,
    currentUser: Option<User>,
    authenticated: bool)

  /** `localStorage.getItem(key)` with `null` as `None`. */
  function StorageGet(storage: map<string, string>, key: string): (r: Option<string>)
    ensures r.Some? <==> key in storage
  {
    if key in storage then Some(storage[key]) else None
  }

  predicate TruthyText(o: Option<string>) {
    o.Some? && o.value != ""
  }

  /** `logout()` */
  function LoggedOut(s: Session, browser: bool): (r: Session)
    ensures !r.authenticated && r.token.None? && r.currentUser.None?
    ensures browser ==> TokenKey !in r.storage && UserKey !in r.storage
    ensures forall k :: k != TokenKey && k != UserKey ==> StorageGet(r.storage, k) == StorageGet(s.storage, k)
    ensures !browser ==> r.storage == s.storage
  {
    Session(if browser then s.storage - {TokenKey, UserKey} else s.storage, None, None, false)
  }

  /** Logging out twice is logging out once. */
  lemma LogoutIdempotent(s: Session, browser: bool)
    ensures LoggedOut(LoggedOut(s, browser), browser) == LoggedOut(s, browser)
  {
    if browser {
      assert s.storage - {TokenKey, UserKey} - {TokenKey, UserKey} == s.storage - {TokenKey, UserKey};
    }
  }

  /** `checkAuthStatus()` applied to state `s`. */
  function Restored(s: Session, browser: bool, parseUser: string -> ParsedUser): Session {
    if !browser then Session(s.storage, None, None, false)
    else
      var token := StorageGet(s.storage, TokenKey);
      var user := StorageGet(s.storage, UserKey);
      if !TruthyText(token) then s
      else if TruthyText(user) then
        match parseUser(user.value)
        case ParseFailure => LoggedOut(s, browser)
        case ParsedNull => Session(s.storage, token, None, true)
        case Parsed(u) => Session(s.storage, token, Some(u), true)
      else LoggedOut(s, browser)
  }

  /** In a browser with no stored token, restoring returns early and changes nothing. */
  lemma RestoreWithoutTokenChangesNothing(s: Session, parseUser: string -> ParsedUser)
    requires !TruthyText(StorageGet(s.storage, TokenKey))
    ensures Restored(s, true, parseUser) == s
  {
  }

  /** A stored token and a stored user that parses give an authenticated session
      with storage untouched. */
  lemma RestoreWithParsedUser(s: Session, parseUser: string -> ParsedUser, u: User)
    requires TruthyText(StorageGet(s.storage, TokenKey)) && TruthyText(StorageGet(s.storage, UserKey))
    requires parseUser(s.storage[UserKey]) == Parsed(u)
    ensures Restored(s, true, parseUser) == Session(s.storage, Some(s.storage[TokenKey]), Some(u), true)
  {
  }

  /** A stored token without a usable stored user ends logged out. */
  lemma RestoreWithoutUserLogsOut(s: Session, parseUser: string -> ParsedUser)
    requires TruthyText(StorageGet(s.storage, TokenKey))
    requires !TruthyText(StorageGet(s.storage, UserKey)) || parseUser(s.storage[UserKey]).ParseFailure?
    ensures Restored(s, true, parseUser) == LoggedOut(s, true)
  {
  }

  /** Outside a browser the session is always empty. */
  lemma RestoreOutsideBrowser(s: Session, parseUser: string -> ParsedUser)
    ensures var r := Restored(s, false, parseUser);
      r.token.None? && r.currentUser.None? && !r.authenticated && r.storage == s.storage
  {
  }

  /** The login `tap`: only a response carrying both a token and a user, in a
      browser, changes anything. */
  function LoggedIn(s: Session, response: AuthResponse, browser: bool, stringifyUser: User -> string): (r: Session)
    ensures !(TruthyText(response.token) && response.user.Some? && browser) ==> r == s
    ensures TruthyText(response.token) && response.user.Some? && browser ==>
      r.authenticated && r.token == response.token && r.currentUser == response.user
      && StorageGet(r.storage, TokenKey) == response.token
      && StorageGet(r.storage, UserKey) == Some(stringifyUser(response.user.value))
      && forall k :: k != TokenKey && k != UserKey ==> StorageGet(r.storage, k) == StorageGet(s.storage, k)
  {
    if TruthyText(response.token) && response.user.Some? && browser then
      Session(s.storage[TokenKey := response.token.value][UserKey := stringifyUser(response.user.value)],
              response.token, response.user, true)
    else s
  }

  /** The service's invariant: authenticated exactly when a token is held, and a
      held token is the non-empty one in browser storage. */
  predicate Consistent(s: Session) {
    (s.authenticated <==> s.token.Some?)
    && (s.token.Some? ==> s.token.value != "" && StorageGet(s.storage, TokenKey) == s.token)
  }

  lemma OperationsKeepConsistent(s: Session, browser: bool, parseUser: string -> ParsedUser,
                                 response: AuthResponse, stringifyUser: User -> string, u: User)
    requires Consistent(s)
    ensures Consistent(Restored(s, browser, parseUser))
    ensures Consistent(LoggedOut(s, browser))
    ensures Consistent(LoggedIn(s, response, browser, stringifyUser))
    ensures Consistent(UserRefreshed(s, u, stringifyUser))
  {
  }

  /** After a login, a reloaded page (a new service over the same storage) restores
      the same session, provided parsing the stored text gives the user back. */
  lemma ReloadAfterLoginRestoresSession(s: Session, response: AuthResponse,
                                        parseUser: string -> ParsedUser, stringifyUser: User -> string)
    requires TruthyText(response.token) && response.user.Some?
    requires parseUser(stringifyUser(response.user.value)) == Parsed(response.user.value)
    requires stringifyUser(response.user.value) != ""
    ensures var after := LoggedIn(s, response, true, stringifyUser);
      Restored(Session(after.storage, None, None, false), true, parseUser) == after
  {
    var after := LoggedIn(s, response, true, stringifyUser);
    assert StorageGet(after.storage, TokenKey) == response.token;
    assert StorageGet(after.storage, UserKey) == Some(stringifyUser(response.user.value));
  }

  /** After a logout, a reloaded page stays logged out and leaves storage alone. */
  lemma ReloadAfterLogoutStaysOut(s: Session, parseUser: string -> ParsedUser)
    ensures var after := LoggedOut(s, true);
      Restored(Session(after.storage, None, None, false), true, parseUser) == after
  {
  }

  /** The refresh `tap`: the stored and current user are replaced; token and flag stay. */
  function UserRefreshed(s: Session, u: User, stringifyUser: User -> string): (r: Session)
    ensures r.token == s.token && r.authenticated == s.authenticated
    ensures r.currentUser == Some(u) && StorageGet(r.storage, UserKey) == Some(stringifyUser(u))
    ensures StorageGet(r.storage, TokenKey) == StorageGet(s.storage, TokenKey)
  {
    Session(s.storage[UserKey := stringifyUser(u)], s.token, Some(u), s.authenticated)
  }

  datatype Outcome = Sent | Failed(error: string)

  /** `localStorage.getItem(key)` as the service calls it: the stored value, or
      the `ReferenceError` it throws where no browser storage exists. */
  datatype StorageRead = Stored(value: Option<string>) | NoStorage

  /** The message of that `ReferenceError`. */
  const NoStorageError: string := "localStorage is not defined"

  class AuthService {
    const browser: bool
    const parseUser: string -> ParsedUser
    const stringifyUser: User -> string

    var storage: map<string, string>
    var token: Option<string>
    var currentUser: Option<User>
    var authenticated: bool

    function State(): Session
      reads this
    {
      Session(storage, token, currentUser, authenticated)
    }

    /** Construction runs `checkAuthStatus` over the page's storage. */
    constructor(browser: bool, initialStorage: map<string, string>,
                parseUser: string -> ParsedUser, stringifyUser: User -> string)
      ensures this.browser == browser && this.parseUser == parseUser && this.stringifyUser == stringifyUser
      ensures State() == Restored(Session(initialStorage, None, None, false), browser, parseUser)
      ensures Consistent(State())
    {
      this.browser := browser;
      this.parseUser := parseUser;
      this.stringifyUser := stringifyUser;
      storage := initialStorage;
      token := None;
      currentUser := None;
      authenticated := false;
      new;
      CheckAuthStatus();
    }

    method CheckAuthStatus()
      modifies this
      ensures State() == Restored(old(State()), browser, parseUser)
    {
      if browser {
        var storedToken := StorageGet(storage, TokenKey);
        if !TruthyText(storedToken) {
          return;
        }
        var storedUser := StorageGet(storage, UserKey);
        if TruthyText(storedUser) {
          match parseUser(storedUser.value)
          case ParseFailure =>
            Logout();
          case ParsedNull =>
            token := storedToken;
            currentUser := None;
            authenticated := true;
          case Parsed(u) =>
            token := storedToken;
            currentUser := Some(u);
            authenticated := true;
        } else {
          Logout();
        }
      } else {
        token := None;
        currentUser := None;
        authenticated := false;
      }
    }

    /** The login request's `tap`, given the server's response. */
    method OnLoginResponse(response: AuthResponse)
      modifies this
      ensures State() == LoggedIn(old(State()), response, browser, stringifyUser)
    {
      if TruthyText(response.token) && response.user.Some? && browser {
        storage := storage[TokenKey := response.token.value];
        storage := storage[UserKey := stringifyUser(response.user.value)];
        token := response.token;
        currentUser := response.user;
        authenticated := true;
      }
    }

    method Logout()
      modifies this
      ensures State() == LoggedOut(old(State()), browser)
    {
      if browser {
        storage := storage - {TokenKey};
        storage := storage - {UserKey};
      }
      token := None;
      currentUser := None;
      authenticated := false;
    }

    /** `getAuthToken()`: the token as stored. It is the one call into storage
        without the browser check, so outside a browser it throws; in a browser
        the stored token may differ from `token` only if storage was changed
        behind the service's back. */
    function GetAuthToken(): (r: StorageRead)
      reads this
      ensures r.NoStorage? <==> !browser
      ensures browser ==> r.Stored? && (r.value.Some? <==> TokenKey in storage)
      ensures browser && Consistent(State()) && authenticated ==> r == Stored(token)
    {
      if browser then Stored(StorageGet(storage, TokenKey)) else NoStorage
    }

    /** `refreshUserData()` up to sending the request: it throws outside a browser
        (from `getAuthToken`) and when no token is stored. */
    method RefreshUserData() returns (outcome: Outcome)
      ensures !browser ==> outcome == Failed(NoStorageError)
      ensures browser ==> (outcome == Sent <==> TruthyText(StorageGet(storage, TokenKey)))
      ensures browser && outcome != Sent ==> outcome == Failed("No auth token found")
      ensures browser && Consistent(State()) && authenticated ==> outcome == Sent
    {
      var read := GetAuthToken();
      if read.NoStorage? {
        return Failed(NoStorageError);
      }
      if !TruthyText(read.value) {
        return Failed("No auth token found");
      }
      return Sent;
    }

    /** The refresh request's `tap`, given the user the server returned. */
    method OnUserRefreshed(u: User)
      modifies this
      ensures State() == UserRefreshed(old(State()), u, stringifyUser)
    {
      storage := storage[UserKey := stringifyUser(u)];
      currentUser := Some(u);
    }
  }
}
