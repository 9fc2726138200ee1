/**
 * The session store every component reads: the signed-in user, a loading flag,
 * the last authentication error, whether the sign-in dialog is requested, and
 * the token kept in the browser's storage.  Each operation takes the outcome of
 * its back-end call as a parameter.
 */
module Session {
  import opened Text
  import opened Service

  datatype User = User(
    userId: string,
    username: string,
    createdAt: string,
    lastLogin: Option<string>,
    accountStatus: string)

  /** The `data` part of a sign-in or registration response. */
  datatype AuthData = AuthData(
    token: string,
    user: User,
    passphrase: Option<string>,
    isNewDevice: Option<bool>)

  const LoginFailed := "Login failed. Please try again."
  const RegistrationFailed := "Registration failed. Please try again."

  /** The stored token after a successful sign-in: replaced only by a non-empty one. */
  function StoreToken(stored: Option<string>, received: string): (r: Option<string>)
    ensures received != "" ==> r == Some(received)
    ensures received == "" ==> r == stored
  {
    if received != "" then Some(received) else stored
  }

  class AuthSession {
    var user: Option<User>
    var isLoading: bool
    var error: Option<string>
    var openAuthDialog: bool
    /** The browser's stored "token" entry. */
    var token: Option<string>

    /** No empty token is ever stored. */
    ghost predicate Valid()
      reads this
    {
      token.None? || token.value != ""
    }

    /** The initial state on mount: loading, with whatever token the browser kept. */
    constructor (stored: Option<string>)
      requires stored.None? || stored.value != ""
      ensures Valid()
      ensures user == None && isLoading && error == None && !openAuthDialog && token == stored
    {
      user := None;
      isLoading := true;
      error := None;
      openAuthDialog := false;
      token := stored;
    }

    /** `isAuthenticated` is derived from the user, never stored. */
    function IsAuthenticated(): (b: bool)
      reads this
      ensures b <==> user.Some?
    {
      user.Some?
    }

    /** `AuthService.isAuthenticated`: a token is stored. */
    function HasToken(): (b: bool)
      reads this
      requires Valid()
      ensures b <==> token.Some?
    {
      token.Some? && token.value != ""
    }

    /**
     * The startup check: with a stored token the current user is fetched and
     * set; a failed fetch removes the token.  Loading always ends.
     */
    method Startup(fetched: Outcome<Option<User>>)
      requires Valid()
      modifies this`user, this`token, this`isLoading
      ensures Valid() && !isLoading
      ensures old(token).None? ==> user == old(user) && token == None
      ensures old(token).Some? && fetched.Success? ==> user == fetched.value && token == old(token)
      ensures old(token).Some? && fetched.Failure? ==> user == old(user) && token == None
    {
      if HasToken() {
        match fetched {
          case Success(current) => user := current;
          case Failure(_) => token := None;
        }
      }
      isLoading := false;
    }

    method ClearError()
      modifies this`error
      ensures error == None
    {
      error := None;
    }

    method TriggerLogin()
      modifies this`openAuthDialog
      ensures openAuthDialog
    {
      openAuthDialog := true;
    }

    /**
     * The pattern `login`, `loginWithPassphrase` and `register` share: success
     * signs the user in, clears the error and closes the dialog; failure
     * records the server message or `fallback` and leaves the user as it was.
     * Loading ends either way.
     */
    method Authenticate(outcome: Outcome<AuthData>, fallback: string)
      requires Valid()
      modifies this
      ensures Valid() && !isLoading
      ensures outcome.Success? ==>
        user == Some(outcome.value.user) && error == None && !openAuthDialog &&
        token == StoreToken(old(token), outcome.value.token)
      ensures outcome.Failure? ==>
        user == old(user) && error == Some(MessageOr(outcome.message, fallback)) &&
        openAuthDialog == old(openAuthDialog) && token == old(token)
    {
      isLoading := true;
      match outcome {
        case Success(data) =>
          token := StoreToken(token, data.token);
          user := Some(data.user);
          error := None;
          openAuthDialog := false;
        case Failure(message) =>
          error := Some(MessageOr(message, fallback));
      }
      isLoading := false;
    }

    method Login(outcome: Outcome<AuthData>)
      requires Valid()
      modifies this
      ensures Valid() && !isLoading
      ensures outcome.Success? ==>
        user == Some(outcome.value.user) && error == None && !openAuthDialog &&
        token == StoreToken(old(token), outcome.value.token)
      ensures outcome.Failure? ==>
        user == old(user) && error == Some(MessageOr(outcome.message, LoginFailed)) &&
        openAuthDialog == old(openAuthDialog) && token == old(token)
    {
      Authenticate(outcome, LoginFailed);
    }

    method LoginWithPassphrase(outcome: Outcome<AuthData>)
      requires Valid()
      modifies this
      ensures Valid() && !isLoading
      ensures outcome.Success? ==>
        user == Some(outcome.value.user) && error == None && !openAuthDialog &&
        token == StoreToken(old(token), outcome.value.token)
      ensures outcome.Failure? ==>
        user == old(user) && error == Some(MessageOr(outcome.message, LoginFailed)) &&
        openAuthDialog == old(openAuthDialog) && token == old(token)
    {
      Authenticate(outcome, LoginFailed);
    }

    method Register(outcome: Outcome<AuthData>)
      requires Valid()
      modifies this
      ensures Valid() && !isLoading
      ensures outcome.Success? ==>
        user == Some(outcome.value.user) && error == None && !openAuthDialog &&
        token == StoreToken(old(token), outcome.value.token)
      ensures outcome.Failure? ==>
        user == old(user) && error == Some(MessageOr(outcome.message, RegistrationFailed)) &&
        openAuthDialog == old(openAuthDialog) && token == old(token)
    {
      Authenticate(outcome, RegistrationFailed);
    }

    /** Sign-out is fail-open: whatever the call's outcome, no user and no token remain. */
    method Logout(outcome: Outcome<()>)
      requires Valid()
      modifies this`user, this`token
      ensures Valid() && user == None && token == None
      ensures !IsAuthenticated()
    {
      user := None;
      token := None;
    }
  }
}
