/**
 * The registration wizard: a form step (username, password, confirmation)
 * whose validation gates the `register` call, a step showing the passphrase
 * the server issued, and a check step where the user types the passphrase back
 * into the twelve boxes.
 */
module Register {
  import opened Text
  import opened Service
  import opened Passphrase
  import Session

  datatype Step = FormStep | PassphraseStep | VerificationStep

  datatype Field = UsernameField | PasswordField | ConfirmField

  /** One optional message per form field, plus a general one. */
  datatype FormErrors = FormErrors(
    username: Option<string>,
    password: Option<string>,
    confirmPassword: Option<string>,
    general: Option<string>)

  const NoErrors := FormErrors(None, None, None, None)

  const UsernameRequired := "Username is required"
  const UsernameTooShort := "Username must be at least 4 characters long"
  const PasswordRequired := "Password is required"
  const PasswordTooShort := "Password must be at least 8 characters long"
  const ConfirmRequired := "Please confirm your password"
  const PasswordsDiffer := "Passwords do not match"
  const RegistrationFailed := "Registration failed. Please try again."
  const EnterAllWords := "Please enter all 12 words of your passphrase."
  const PassphraseMismatch := "The passphrase you entered doesn't match. Please try again."

  /** The registration form passes validation. */
  function Acceptable(username: string, password: string, confirm: string): (b: bool)
    ensures b ==> Trim(username) != "" && |confirm| >= 8
  {
    !AllSpace(username) && |username| >= 4 && |password| >= 8 && confirm == password
  }

  /**
   * `validateForm`.  The username is checked for blankness after trimming but
   * for length as typed; the confirmation only against the password.
   */
  function ValidateRegistration(username: string, password: string, confirm: string): (e: FormErrors)
    ensures e.general == None
    ensures AllSpace(username) ==> e.username == Some(UsernameRequired)
    ensures !AllSpace(username) && |username| < 4 ==> e.username == Some(UsernameTooShort)
    ensures e.username == None <==> !AllSpace(username) && |username| >= 4
    ensures password == "" ==> e.password == Some(PasswordRequired)
    ensures password != "" && |password| < 8 ==> e.password == Some(PasswordTooShort)
    ensures e.password == None <==> |password| >= 8
    ensures confirm == "" ==> e.confirmPassword == Some(ConfirmRequired)
    ensures confirm != "" && confirm != password ==> e.confirmPassword == Some(PasswordsDiffer)
    ensures e.confirmPassword == None <==> confirm != "" && confirm == password
    ensures e == NoErrors <==> Acceptable(username, password, confirm)
  {
    var u :=
      if Trim(username) == "" then Some(UsernameRequired)
      else if |username| < 4 then Some(UsernameTooShort)
      else None;
    var p :=
      if password == "" then Some(PasswordRequired)
      else if |password| < 8 then Some(PasswordTooShort)
      else None;
    var c :=
      if confirm == "" then Some(ConfirmRequired)
      else if password != confirm then Some(PasswordsDiffer)
      else None;
    FormErrors(u, p, c, None)
  }

  /** `errors[name] = undefined` for the edited field. */
  function ClearField(e: FormErrors, field: Field): (r: FormErrors)
    ensures r.general == e.general
    ensures field == UsernameField ==> r.username == None && r.password == e.password && r.confirmPassword == e.confirmPassword
    ensures field == PasswordField ==> r.password == None && r.username == e.username && r.confirmPassword == e.confirmPassword
    ensures field == ConfirmField ==> r.confirmPassword == None && r.username == e.username && r.password == e.password
  {
    match field
    case UsernameField => e.(username := None)
    case PasswordField => e.(password := None)
    case ConfirmField => e.(confirmPassword := None)
  }

  /**
   * The check compares the lowered single-space joins of the boxes and of the
   * issued passphrase.  Since every box holds a normal word, this is the same as
   * each box holding the matching passphrase word in lower case; in particular
   * a passphrase of other than twelve words can never be confirmed.
   */
  lemma VerificationMatch(cells: seq<string>, passphrase: seq<string>)
    requires |cells| == CellCount && AllNormal(cells) && AllSpaceFree(passphrase)
    ensures Lower(JoinSpace(cells)) == Lower(JoinSpace(passphrase)) <==> cells == LowerAll(passphrase)
    ensures |passphrase| != CellCount ==> Lower(JoinSpace(cells)) != Lower(JoinSpace(passphrase))
  {
    assert LowerAll(cells) == cells by {
      forall k | 0 <= k < |cells|
        ensures LowerAll(cells)[k] == cells[k]
      {
        LowerNoUpper(cells[k]);
      }
    }
    if |passphrase| == 0 {
      JoinLength(cells);
      assert |Lower(JoinSpace(passphrase))| == 0;
    } else {
      NormalSpaceFree(cells);
      LowerJoinEqual(cells, passphrase);
    }
  }

  /**
   * Pasting the passphrase exactly as shown (twelve words, single spaces)
   * into the check step fills the boxes so that the check succeeds.
   */
  lemma PasteOwnPassphrase(words: seq<string>, ws: seq<string>)
    requires |words| == CellCount && |ws| == CellCount
    requires forall k :: 0 <= k < |ws| ==> IsWord(ws[k])
    ensures var issued := JoinSpace(ws);
      PasteWords(words, issued) == LowerAll(SplitSpace(issued))
  {
    var issued := JoinSpace(ws);
    forall k | 0 <= k < |ws| ensures SpaceFree(ws[k]) { WordIsOwnTrim(ws[k]); }
    SplitJoin(ws);
    TokensJoin(ws);
    assert !AllSpace(issued) by {
      assert issued[..|ws[0]|] == ws[0];
      assert !IsSpace(issued[0]);
    }
    assert PasteTokens(issued) == LowerAll(ws);
  }

  class RegisterDialog {
    var username: string
    var password: string
    var confirmPassword: string
    var errors: FormErrors
    var isLoading: bool
    var step: Step
    var passphrase: seq<string>
    var grid: WordGrid
    var isVerifying: bool
    var verificationError: Option<string>
    /** Set once the check succeeded and the dialog was closed. */
    var completed: bool

    ghost predicate Valid()
      reads this, grid, grid.cells
    {
      grid.Valid() && AllSpaceFree(passphrase)
    }

    constructor ()
      ensures Valid() && fresh(grid) && fresh(grid.cells)
      ensures username == "" && password == "" && confirmPassword == ""
      ensures errors == NoErrors && !isLoading && step == FormStep && passphrase == []
      ensures grid.cells[..] == Blank() && !isVerifying && verificationError == None && !completed
    {
      username, password, confirmPassword := "", "", "";
      errors := NoErrors;
      isLoading := false;
      step := FormStep;
      passphrase := [];
      grid := new WordGrid();
      isVerifying := false;
      verificationError := None;
      completed := false;
    }

    /** `handleChange`: stores the value and clears that field's error only. */
    method Change(field: Field, value: string)
      requires Valid()
      modifies this`username, this`password, this`confirmPassword, this`errors
      ensures Valid()
      ensures username == (if field == UsernameField then value else old(username))
      ensures password == (if field == PasswordField then value else old(password))
      ensures confirmPassword == (if field == ConfirmField then value else old(confirmPassword))
      ensures errors == ClearField(old(errors), field)
    {
      match field {
        case UsernameField => username := value;
        case PasswordField => password := value;
        case ConfirmField => confirmPassword := value;
      }
      errors := ClearField(errors, field);
    }

    /** `validateForm`: records the field errors and reports whether there are none. */
    method Validate() returns (valid: bool)
      modifies this`errors
      ensures errors == ValidateRegistration(username, password, confirmPassword)
      ensures valid <==> Acceptable(username, password, confirmPassword)
    {
      errors := ValidateRegistration(username, password, confirmPassword);
      valid := errors == NoErrors;
    }

    /**
     * `handleSubmit`; returns whether `register` was called.  A response with a
     * passphrase stores its space-separated words (which join back to exactly
     * the issued text) and moves on to the passphrase step.
     */
    method Submit(outcome: Outcome<Session.AuthData>) returns (called: bool)
      requires Valid()
      modifies this`errors, this`isLoading, this`passphrase, this`step
      ensures Valid()
      ensures called <==> Acceptable(username, password, confirmPassword)
      ensures !called ==>
        errors == ValidateRegistration(username, password, confirmPassword) &&
        isLoading == old(isLoading) && step == old(step) && passphrase == old(passphrase)
      ensures called ==> !isLoading
      ensures called && outcome.Success? && outcome.value.passphrase.Some? && outcome.value.passphrase.value != "" ==>
        errors == NoErrors && step == PassphraseStep &&
        passphrase == SplitSpace(outcome.value.passphrase.value) &&
        JoinSpace(passphrase) == outcome.value.passphrase.value
      ensures called && outcome.Success? && (outcome.value.passphrase.None? || outcome.value.passphrase.value == "") ==>
        errors == NoErrors && step == old(step) && passphrase == old(passphrase)
      ensures called && outcome.Failure? ==>
        errors == FormErrors(None, None, None, Some(MessageOr(outcome.message, RegistrationFailed))) &&
        step == old(step) && passphrase == old(passphrase)
    {
      var valid := Validate();
      if !valid {
        return false;
      }
      called := true;
      isLoading := true;
      if outcome.Failure? {
        errors := FormErrors(None, None, None, Some(MessageOr(outcome.message, RegistrationFailed)));
      } else if outcome.value.passphrase.Some? && outcome.value.passphrase.value != "" {
        var issued := outcome.value.passphrase.value;
        passphrase := SplitSpace(issued);
        JoinSplit(issued);
        step := PassphraseStep;
      }
      isLoading := false;
    }

    method GoToVerification()
      requires Valid()
      modifies this`step
      ensures Valid() && step == VerificationStep
    {
      step := VerificationStep;
    }

    /** Back to the passphrase; the check error is cleared, the boxes are kept. */
    method GoBackToPassphrase()
      requires Valid()
      modifies this`step, this`verificationError
      ensures Valid() && step == PassphraseStep && verificationError == None
    {
      step := PassphraseStep;
      verificationError := None;
    }

    /** Typing in a box clears the check error, except after a spill. */
    method ChangeWord(index: nat, value: string)
      requires Valid() && index < CellCount
      modifies this`verificationError, grid, grid.cells
      ensures Valid()
      ensures grid.cells[..] == WordChange(old(grid.cells[..]), index, value)
      ensures grid.focus == if Spills(index, value) then index + 1 else old(grid.focus)
      ensures verificationError == if Spills(index, value) then old(verificationError) else None
    {
      var spilled := grid.ChangeWord(index, value);
      if !spilled {
        verificationError := None;
      }
    }

    method KeyDown(key: Key)
      requires Valid()
      modifies grid`focus
      ensures Valid()
      ensures grid.focus == KeyFocus(grid.cells[..], old(grid.focus), key)
    {
      grid.KeyDown(key);
    }

    method Paste(text: string)
      requires Valid()
      modifies grid, grid.cells
      ensures Valid()
      ensures grid.cells[..] == PasteWords(old(grid.cells[..]), text)
      ensures grid.focus == PasteFocus(grid.cells[..])
    {
      grid.Paste(text);
    }

    /**
     * `handleVerificationSubmit`: with an empty box only the error is set;
     * otherwise the dialog completes exactly when every box holds the matching
     * passphrase word in lower case, and a mismatch sets the error.
     */
    method SubmitVerification()
      requires Valid()
      modifies this`verificationError, this`completed, this`isVerifying
      ensures Valid()
      ensures FirstEmpty(grid.cells[..]).Some? ==>
        verificationError == Some(EnterAllWords) &&
        completed == old(completed) && isVerifying == old(isVerifying)
      ensures FirstEmpty(grid.cells[..]).None? ==>
        !isVerifying &&
        (completed <==> old(completed) || grid.cells[..] == LowerAll(passphrase)) &&
        verificationError ==
          (if grid.cells[..] == LowerAll(passphrase) then old(verificationError) else Some(PassphraseMismatch))
    {
      var empty := grid.FirstEmptyIndex();
      if empty.Some? {
        verificationError := Some(EnterAllWords);
        return;
      }
      isVerifying := true;
      var entered := grid.Joined();
      VerificationMatch(grid.cells[..], passphrase);
      if Lower(entered) == Lower(JoinSpace(passphrase)) {
        completed := true;
      } else {
        verificationError := Some(PassphraseMismatch);
      }
      isVerifying := false;
    }
  }
}
