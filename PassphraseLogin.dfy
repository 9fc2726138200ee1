/**
 * Sign-in with username and the twelve-word recovery passphrase.  Validation
 * names the first empty box; a valid form sends the username and the boxes
 * joined by single spaces.
 */
module PassphraseLogin {
  import opened Text
  import opened Service
  import opened Passphrase
  import Session

  const UsernameRequired := "Username is required"
  const LoginFailed := "Login failed. Please check your username and passphrase."

  /** What the form sends to `loginWithPassphrase`. */
  datatype Credentials = Credentials(username: string, passphrase: string)

  const EmptyWordPrefix := "Please enter all 12 words. Word #"
  const EmptyWordSuffix := " is empty."

  /** The error naming box `k` (counted from 0) as the first empty one, counted from 1. */
  function EmptyWordMessage(k: nat): (m: string)
    ensures |m| == |EmptyWordPrefix| + |NatToString(k + 1)| + |EmptyWordSuffix|
    ensures StartsWith(m, EmptyWordPrefix)
    ensures m[|EmptyWordPrefix|..|m| - |EmptyWordSuffix|] == NatToString(k + 1)
  {
    EmptyWordPrefix + NatToString(k + 1) + EmptyWordSuffix
  }

  /** Distinct boxes give distinct messages, so the message identifies the box. */
  lemma EmptyWordMessageInjective(a: nat, b: nat)
    ensures EmptyWordMessage(a) == EmptyWordMessage(b) ==> a == b
  {
    if EmptyWordMessage(a) == EmptyWordMessage(b) {
      NatToStringInjective(a + 1, b + 1);
    }
  }

  /**
   * The sent credential splits back, at single spaces, into exactly the twelve
   * boxes, because no box holds a space.
   */
  lemma CredentialRoundTrip(cells: seq<string>)
    requires |cells| == CellCount && AllNormal(cells)
    ensures SplitSpace(JoinSpace(cells)) == cells
  {
    NormalSpaceFree(cells);
    SplitJoin(cells);
  }

  class PassphraseLoginForm {
    var username: string
    var usernameError: Option<string>
    var grid: WordGrid
    var errors: Option<string>
    var isLoading: bool
    /** Set once a sign-in succeeded and the dialog was closed. */
    var closed: bool

    ghost predicate Valid()
      reads this, grid, grid.cells
    {
      grid.Valid()
    }

    constructor ()
      ensures Valid() && fresh(grid) && fresh(grid.cells)
      ensures username == "" && usernameError == None && grid.cells[..] == Blank()
      ensures errors == None && !isLoading && !closed
    {
      username := "";
      usernameError := None;
      grid := new WordGrid();
      errors := None;
      isLoading := false;
      closed := false;
    }

    method UsernameChange(value: string)
      modifies this`username, this`usernameError
      ensures username == value && usernameError == None
    {
      username := value;
      usernameError := None;
    }

    /** Typing in a box clears the form error, except after a spill. */
    method ChangeWord(index: nat, value: string)
      requires Valid() && index < CellCount
      modifies this`errors, grid, grid.cells
      ensures Valid()
      ensures grid.cells[..] == WordChange(old(grid.cells[..]), index, value)
      ensures grid.focus == if Spills(index, value) then index + 1 else old(grid.focus)
      ensures errors == if Spills(index, value) then old(errors) else None
    {
      var spilled := grid.ChangeWord(index, value);
      if !spilled {
        errors := None;
      }
    }

    method KeyDown(key: Key)
      requires Valid()
      modifies grid`focus
      ensures Valid()
      ensures grid.focus == KeyFocus(grid.cells[..], old(grid.focus), key)
    {
      grid.KeyDown(key);
    }

    method Paste(text: string)
      requires Valid()
      modifies grid, grid.cells
      ensures Valid()
      ensures grid.cells[..] == PasteWords(old(grid.cells[..]), text)
      ensures grid.focus == PasteFocus(grid.cells[..])
    {
      grid.Paste(text);
    }

    /**
     * `validateForm`: a blank username and an empty box each set their
     * message; messages are only ever set here, never cleared.
     */
    method Validate() returns (isValid: bool)
      requires Valid()
      modifies this`usernameError, this`errors
      ensures isValid <==> !AllSpace(username) && FirstEmpty(grid.cells[..]).None?
      ensures usernameError == if AllSpace(username) then Some(UsernameRequired) else old(usernameError)
      ensures errors == match FirstEmpty(grid.cells[..])
        case Some(k) => Some(EmptyWordMessage(k))
        case None => old(errors)
    {
      isValid := true;
      if Trim(username) == "" {
        usernameError := Some(UsernameRequired);
        isValid := false;
      }
      var emptyWordIndex := grid.FirstEmptyIndex();
      if emptyWordIndex.Some? {
        errors := Some(EmptyWordMessage(emptyWordIndex.value));
        isValid := false;
      }
    }

    /**
     * `handleSubmit`: returns what was sent, if anything.  Only a valid form
     * sends, and it sends the username as typed and the boxes joined by spaces;
     * an invalid form shows the messages `Validate` sets.
     */
    method Submit(outcome: Outcome<Session.AuthData>) returns (sent: Option<Credentials>)
      requires Valid()
      modifies this`usernameError, this`errors, this`isLoading, this`closed
      ensures Valid()
      ensures sent.Some? <==> !AllSpace(username) && FirstEmpty(grid.cells[..]).None?
      ensures sent.Some? ==>
        sent.value == Credentials(username, JoinSpace(grid.cells[..])) && !isLoading &&
        (outcome.Success? ==> closed && errors == old(errors)) &&
        (outcome.Failure? ==> closed == old(closed) && errors == Some(MessageOr(outcome.message, LoginFailed)))
      ensures sent.None? ==> closed == old(closed) && isLoading == old(isLoading)
      ensures usernameError == if AllSpace(username) then Some(UsernameRequired) else old(usernameError)
      ensures sent.None? ==> errors == match FirstEmpty(grid.cells[..])
        case Some(k) => Some(EmptyWordMessage(k))
        case None => old(errors)
    {
      var valid := Validate();
      if !valid {
        return None;
      }
      isLoading := true;
      var passphrase := grid.Joined();
      sent := Some(Credentials(username, passphrase));
      match outcome {
        case Success(_) => closed := true;
        case Failure(message) => errors := Some(MessageOr(message, LoginFailed));
      }
      isLoading := false;
    }
  }
}
