/**
 * Sign-in with username and password.  A sign-in from a device the server does
 * not recognise turns the form into a prompt to continue with the passphrase.
 */
module Login {
  import opened Text
  import opened Service
  import Session

  datatype Field = UsernameField | PasswordField

  datatype LoginErrors = LoginErrors(
    username: Option<string>,
    password: Option<string>,
    general: Option<string>)

  const NoErrors := LoginErrors(None, None, None)

  const UsernameRequired := "Username is required"
  const PasswordRequired := "Password is required"
  const InvalidCredentials := "Invalid username or password. Please try again."

  /** `validateForm`: both fields are required; the username may not be blank. */
  function LoginValidation(username: string, password: string): (e: LoginErrors)
    ensures e.general == None
    ensures e.username == None <==> !AllSpace(username)
    ensures e.username != None ==> e.username == Some(UsernameRequired)
    ensures e.password == None <==> password != ""
    ensures e.password != None ==> e.password == Some(PasswordRequired)
    ensures e == NoErrors <==> !AllSpace(username) && password != ""
  {
    LoginErrors(
      if Trim(username) == "" then Some(UsernameRequired) else None,
      if password == "" then Some(PasswordRequired) else None,
      None)
  }

  /** `errors[name] = undefined` for the edited field; the general error stays. */
  function ClearField(e: LoginErrors, field: Field): (r: LoginErrors)
    ensures r.general == e.general
    ensures field == UsernameField ==> r.username == None && r.password == e.password
    ensures field == PasswordField ==> r.password == None && r.username == e.username
  {
    match field
    case UsernameField => e.(username := None)
    case PasswordField => e.(password := None)
  }

  class LoginForm {
    var username: string
    var password: string
    var errors: LoginErrors
    var isLoading: bool
    var isNewDevice: bool
    /** Set once a sign-in succeeded and the dialog was closed. */
    var closed: bool

    constructor ()
      ensures username == "" && password == "" && errors == NoErrors
      ensures !isLoading && !isNewDevice && !closed
    {
      username, password := "", "";
      errors := NoErrors;
      isLoading, isNewDevice, closed := false, false, false;
    }

    /** `handleChange`: stores the value and clears that field's error only. */
    method Change(field: Field, value: string)
      modifies this`username, this`password, this`errors
      ensures username == (if field == UsernameField then value else old(username))
      ensures password == (if field == PasswordField then value else old(password))
      ensures errors == ClearField(old(errors), field)
    {
      match field {
        case UsernameField => username := value;
        case PasswordField => password := value;
      }
      errors := ClearField(errors, field);
    }

    method Validate() returns (valid: bool)
      modifies this`errors
      ensures errors == LoginValidation(username, password)
      ensures valid <==> !AllSpace(username) && password != ""
    {
      errors := LoginValidation(username, password);
      valid := errors == NoErrors;
    }

    /**
     * `handleSubmit`; returns whether `login` was called.  A response flagged
     * as coming from a new device shows the passphrase prompt and keeps the
     * dialog open; any other success closes it; a failure sets the general error.
     */
    method Submit(outcome: Outcome<Session.AuthData>) returns (called: bool)
      modifies this`errors, this`isLoading, this`isNewDevice, this`closed
      ensures called <==> !AllSpace(username) && password != ""
      ensures !called ==>
        errors == LoginValidation(username, password) &&
        isLoading == old(isLoading) && isNewDevice == old(isNewDevice) && closed == old(closed)
      ensures called ==> !isLoading
      ensures called && outcome.Success? && outcome.value.isNewDevice == Some(true) ==>
        isNewDevice && closed == old(closed) && errors == NoErrors
      ensures called && outcome.Success? && outcome.value.isNewDevice != Some(true) ==>
        closed && isNewDevice == old(isNewDevice) && errors == NoErrors
      ensures called && outcome.Failure? ==>
        errors == LoginErrors(None, None, Some(MessageOr(outcome.message, InvalidCredentials))) &&
        closed == old(closed) && isNewDevice == old(isNewDevice)
    {
      called := Validate();
      if !called {
        assert errors == LoginValidation(username, password);
        return;
      }
      Attempt(outcome);
    }

    /** The `login` call and what follows it. */
    method Attempt(outcome: Outcome<Session.AuthData>)
      modifies this`errors, this`isLoading, this`isNewDevice, this`closed
      ensures !isLoading
      ensures outcome.Success? && outcome.value.isNewDevice == Some(true) ==>
        isNewDevice && closed == old(closed) && errors == old(errors)
      ensures outcome.Success? && outcome.value.isNewDevice != Some(true) ==>
        closed && isNewDevice == old(isNewDevice) && errors == old(errors)
      ensures outcome.Failure? ==>
        errors == LoginErrors(None, None, Some(MessageOr(outcome.message, InvalidCredentials))) &&
        closed == old(closed) && isNewDevice == old(isNewDevice)
    {
      isLoading := true;
      match outcome {
        case Success(data) =>
          if data.isNewDevice == Some(true) {
            isNewDevice := true;
          } else {
            closed := true;
          }
        case Failure(message) =>
          errors := LoginErrors(None, None, Some(MessageOr(message, InvalidCredentials)));
      }
      isLoading := false;
    }

    /** "Try again with password" leaves the new-device prompt. */
    method TryAgainWithPassword()
      modifies this`isNewDevice
      ensures !isNewDevice
    {
      isNewDevice := false;
    }
  }
}
