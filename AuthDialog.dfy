/**
 * The container that shows one of the three sign-in dialogs (password sign-in,
 * registration, passphrase sign-in) and moves between them when the user
 * follows a link inside one.  The 50 ms delay before the next dialog opens is
 * taken as immediate.
 */
module AuthDialog {

  datatype AuthView = LoginView | RegisterView | PassphraseView

  /** The links the three dialogs offer to one another. */
  datatype Link =
    | RegisterLink         // in the password sign-in dialog
    | PassphraseLink       // in the password sign-in dialog
    | LoginFromRegister    // in the registration dialog
    | PasswordLoginLink    // in the passphrase sign-in dialog

  /** The dialog a link is shown in. */
  function Host(link: Link): (v: AuthView)
    ensures v == LoginView <==> link == RegisterLink || link == PassphraseLink
  {
    match link
    case RegisterLink => LoginView
    case PassphraseLink => LoginView
    case LoginFromRegister => RegisterView
    case PasswordLoginLink => PassphraseView
  }

  /** The view a link asks for. */
  function Target(link: Link): (v: AuthView)
    ensures v != Host(link)
  {
    match link
    case RegisterLink => RegisterView
    case PassphraseLink => PassphraseView
    case LoginFromRegister => LoginView
    case PasswordLoginLink => LoginView
  }

  /**
   * Every view can be reached by a link shown in some other dialog: the
   * login view from registration, the other two from the login dialog.
   */
  lemma LinksLeave(v: AuthView)
    ensures exists l :: Target(l) == v && Host(l) != v
    ensures v != LoginView ==> exists l :: Target(l) == v && Host(l) == LoginView
  {
    match v
    case LoginView => assert Target(LoginFromRegister) == v;
    case RegisterView => assert Target(RegisterLink) == v;
    case PassphraseView => assert Target(PassphraseLink) == v;
  }

  class AuthDialogs {
    var currentView: AuthView
    var loginOpen: bool
    var registerOpen: bool
    var passphraseOpen: bool

    /** Whether the dialog for `v` is shown. */
    function Shown(v: AuthView): (b: bool)
      reads this
      ensures v == LoginView ==> (b <==> loginOpen)
      ensures v == RegisterView ==> (b <==> registerOpen)
      ensures v == PassphraseView ==> (b <==> passphraseOpen)
    {
      match v
      case LoginView => loginOpen
      case RegisterView => registerOpen
      case PassphraseView => passphraseOpen
    }

    /** No two dialogs are shown at once. */
    predicate AtMostOne()
      reads this
    {
      forall v, w :: Shown(v) && Shown(w) ==> v == w
    }

    /** `initialView` defaults to the password sign-in; every dialog starts closed. */
    constructor (initialView: AuthView := LoginView)
      ensures currentView == initialView
      ensures forall v :: !Shown(v)
    {
      currentView := initialView;
      loginOpen, registerOpen, passphraseOpen := false, false, false;
    }

    /**
     * The effect run when `isOpen` or `initialView` changes: opening shows the
     * dialog for `initialView` and touches no other flag; closing hides all
     * three.  The tracked `currentView` is left alone.  Opening from the
     * all-closed state shows exactly one dialog, but opening while another
     * dialog `w` is still shown (the prop changed after a link was followed)
     * shows two.
     */
    method OpenEffect(isOpen: bool, initialView: AuthView, ghost w: AuthView)
      modifies this`loginOpen, this`registerOpen, this`passphraseOpen
      ensures isOpen ==> Shown(initialView)
      ensures isOpen ==> forall v :: v != initialView ==> Shown(v) == old(Shown(v))
      ensures !isOpen ==> forall v :: !Shown(v)
      ensures isOpen && old(forall v :: !Shown(v)) ==> AtMostOne()
      ensures isOpen && old(Shown(w)) && w != initialView ==> !AtMostOne()
    {
      if isOpen {
        match initialView {
          case LoginView => loginOpen := true;
          case RegisterView => registerOpen := true;
          case PassphraseView => passphraseOpen := true;
        }
      } else {
        loginOpen, registerOpen, passphraseOpen := false, false, false;
      }
      if isOpen && old(Shown(w)) && w != initialView {
        assert Shown(w) && Shown(initialView);
      }
    }

    /**
     * `handleViewChange`: hides every dialog, records the view, then shows
     * exactly the dialog for it.
     */
    method ViewChange(view: AuthView)
      modifies this
      ensures currentView == view
      ensures forall v :: Shown(v) <==> v == view
      ensures AtMostOne()
    {
      loginOpen, registerOpen, passphraseOpen := false, false, false;
      currentView := view;
      match view {
        case LoginView => loginOpen := true;
        case RegisterView => registerOpen := true;
        case PassphraseView => passphraseOpen := true;
      }
    }

    /** Following a link inside a dialog closes it and shows the link's target. */
    method Follow(link: Link)
      modifies this
      ensures currentView == Target(link)
      ensures Shown(Target(link)) && !Shown(Host(link))
      ensures AtMostOne()
    {
      ViewChange(Target(link));
    }
  }
}
