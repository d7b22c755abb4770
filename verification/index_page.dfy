/**
 * The landing page: which screen is shown, the signed-in user it holds and
 * mirrors under `currentUser` in `localStorage`, and the props it hands to
 * the direct-message panel.
 */
module Pages {
  import opened Text
  import opened Optional
  import opened Session
  import Auth

  /** The four screens of the page, in the order the render checks them. */
  datatype View = AuthScreen | ProfileEditScreen | ProfileScreen | HomePage

  /**
   * The render's if-chain: the sign-in screen wins, then the profile editor
   * and the profile (both only for a signed-in user), then the home page.
   */
  function CurrentView(currentUser: Option<User>, showAuth: bool, showProfile: bool,
                       showProfileEdit: bool): (v: View)
    ensures v == AuthScreen <==> showAuth
    ensures v == ProfileEditScreen <==> !showAuth && currentUser.Some? && showProfileEdit
    ensures v == ProfileScreen <==> !showAuth && currentUser.Some? && !showProfileEdit && showProfile
    ensures v == HomePage <==> !showAuth && (currentUser.None? || (!showProfileEdit && !showProfile))
    ensures currentUser.None? ==> v == AuthScreen || v == HomePage
  {
    if showAuth then AuthScreen
    else if currentUser.Some? && showProfileEdit then ProfileEditScreen
    else if currentUser.Some? && showProfile then ProfileScreen
    else HomePage
  }

  /** The sections of the home page, top to bottom. */
  datatype Section = ChatSection | DirectSection | FriendsSection | ProfileEditSection | EncryptionSection

  /** The home page's sections; the profile editor is present only for a signed-in user. */
  function HomeSections(currentUser: Option<User>): (r: seq<Section>)
    ensures |r| == if currentUser.Some? then 5 else 4
    ensures ProfileEditSection in r <==> currentUser.Some?
    ensures r[..3] == [ChatSection, DirectSection, FriendsSection] && r[|r| - 1] == EncryptionSection
  {
    [ChatSection, DirectSection, FriendsSection]
    + (if currentUser.Some? then [ProfileEditSection] else [])
    + [EncryptionSection]
  }

  const GuestName: JsString := Lit("Гость")
  const GuestAvatar: JsString := Lit("https://api.dicebear.com/7.x/avataaars/svg?seed=guest")

  /**
   * `currentUser?.username || "Гость"`: the fallback also applies to a
   * signed-in user whose username is the empty string.
   */
  function DirectMessageName(currentUser: Option<User>): (name: JsString)
    ensures name != []
    ensures currentUser.Some? && currentUser.value.username != [] ==> name == currentUser.value.username
    ensures currentUser.None? || currentUser.value.username == [] ==> name == GuestName
  {
    if currentUser.Some? && currentUser.value.username != [] then currentUser.value.username else GuestName
  }

  /** `currentUser?.avatar || <guest avatar>`, with the same empty-string fallback. */
  function DirectMessageAvatar(currentUser: Option<User>): (avatar: JsString)
    ensures avatar != []
    ensures currentUser.Some? && currentUser.value.avatar != [] ==> avatar == currentUser.value.avatar
    ensures currentUser.None? || currentUser.value.avatar == [] ==> avatar == GuestAvatar
  {
    if currentUser.Some? && currentUser.value.avatar != [] then currentUser.value.avatar else GuestAvatar
  }

  /** The page's state; `storage` is the `localStorage` it shares with the sign-in form. */
  class IndexPage {
    const storage: LocalStorage
    var currentUser: Option<User>
    var showAuth: bool
    var showProfile: bool
    var showProfileEdit: bool

    /**
     * The page's invariant: the held user is the stored one, and the profile
     * editor flag stays down, since no control of the page ever raises it.
     */
    predicate Valid()
      reads this, storage
    {
      currentUser == SavedCurrentUser(storage.items) && !showProfileEdit
    }

    function View(): View
      reads this
    {
      CurrentView(currentUser, showAuth, showProfile, showProfileEdit)
    }

    /** Mounting reads the saved user; every screen flag starts down. */
    constructor (storage: LocalStorage)
      ensures this.storage == storage && Valid()
      ensures currentUser == SavedCurrentUser(storage.items)
      ensures !showAuth && !showProfile && !showProfileEdit
    {
      this.storage := storage;
      currentUser := SavedCurrentUser(storage.items);
      showAuth, showProfile, showProfileEdit := false, false, false;
    }

    /** The navigation's sign-in button. */
    method ShowAuth()
      modifies this
      ensures showAuth && View() == AuthScreen
      ensures currentUser == old(currentUser) && showProfile == old(showProfile)
      ensures showProfileEdit == old(showProfileEdit)
    {
      showAuth := true;
    }

    /** The "back" button of the sign-in screen. */
    method HideAuth()
      modifies this
      ensures !showAuth
      ensures currentUser == old(currentUser) && showProfile == old(showProfile)
      ensures showProfileEdit == old(showProfileEdit)
    {
      showAuth := false;
    }

    /** The navigation's profile button. */
    method ShowProfile()
      modifies this
      ensures showProfile
      ensures currentUser == old(currentUser) && showAuth == old(showAuth)
      ensures showProfileEdit == old(showProfileEdit)
    {
      showProfile := true;
    }

    /** The "back" button of the profile screen. */
    method HideProfile()
      modifies this
      ensures !showProfile
      ensures currentUser == old(currentUser) && showAuth == old(showAuth)
      ensures showProfileEdit == old(showProfileEdit)
    {
      showProfile := false;
    }

    /** The "back" button of the profile editor screen. */
    method HideProfileEdit()
      modifies this
      ensures !showProfileEdit
      ensures currentUser == old(currentUser) && showAuth == old(showAuth) && showProfile == old(showProfile)
    {
      showProfileEdit := false;
    }

    /** `handleLogin`, the sign-in form's `onLogin`: hold the user and leave the sign-in screen. */
    method HandleLogin(user: User)
      modifies this
      ensures currentUser == Some(user) && !showAuth
      ensures showProfile == old(showProfile) && showProfileEdit == old(showProfileEdit)
    {
      currentUser := Some(user);
      showAuth := false;
    }

    /** `handleLogout`: drop the user and its stored copy. */
    method HandleLogout()
      modifies this, storage
      ensures currentUser == None && storage.items == old(storage.items) - {CurrentUserKey}
      ensures showAuth == old(showAuth) && showProfile == old(showProfile)
      ensures showProfileEdit == old(showProfileEdit)
      ensures old(!showProfileEdit) ==> Valid()
    {
      currentUser := None;
      storage.RemoveItem(CurrentUserKey);
    }

    /**
     * `handleUpdateAvatar`: with a signed-in user, replace only its avatar and
     * store the result; without one, nothing happens.
     */
    method HandleUpdateAvatar(avatar: JsString)
      modifies this, storage
      ensures old(currentUser).None? ==> currentUser == None && storage.items == old(storage.items)
      ensures old(currentUser).Some? ==>
                && currentUser == Some(old(currentUser).value.(avatar := avatar))
                && storage.items == old(storage.items)[CurrentUserKey := OneUser(currentUser.value)]
      ensures showAuth == old(showAuth) && showProfile == old(showProfile)
      ensures showProfileEdit == old(showProfileEdit)
      ensures old(Valid()) ==> Valid()
    {
      if currentUser.Some? {
        var updatedUser := currentUser.value.(avatar := avatar);
        currentUser := Some(updatedUser);
        storage.SetItem(CurrentUserKey, OneUser(updatedUser));
      }
    }

    /**
     * Submitting the sign-in form shown by this page: the form's `handleLogin`,
     * then, when it finds the account, this page's `onLogin`. The page keeps
     * its invariant and the form keeps its account list in step with storage.
     */
    method SubmitLogin(form: Auth.AuthSystem)
      requires form.storage == storage
      modifies this, form, storage
      ensures var check := Auth.LoginCheck(old(form.users), old(form.loginEmail), old(form.loginPassword));
              if check.LoggedIn? then currentUser == Some(check.user) && !showAuth
              else currentUser == old(currentUser) && showAuth == old(showAuth)
      ensures showProfile == old(showProfile) && showProfileEdit == old(showProfileEdit)
      ensures old(Valid()) ==> Valid()
      ensures old(form.Synced()) ==> form.Synced()
    {
      var loggedIn := form.HandleLogin();
      if loggedIn.Some? {
        HandleLogin(loggedIn.value);
      }
    }
  }
}
