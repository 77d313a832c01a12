/** `RootView`: which of the three screens the app shows, and the handlers
    that move it from one to the next. */
module Root {
  import opened Common
  import opened Avatars
  import opened Keychain
  import Auth

  datatype Screen = LoginScreen | AvatarSelectionScreen | DialogScreen(avatar: AvatarType)

  /** The screen `body` builds from the three pieces of state: login first,
      then the avatar choice, then the chat with the chosen avatar. */
  function ScreenFor(isLoggedIn: bool, hasAvatar: bool, selectedAvatar: Option<AvatarType>): (s: Screen)
    ensures s == LoginScreen <==> !isLoggedIn
    ensures s == AvatarSelectionScreen <==> isLoggedIn && (!hasAvatar || selectedAvatar.None?)
    ensures s.DialogScreen? <==> isLoggedIn && hasAvatar && selectedAvatar.Some?
    ensures s.DialogScreen? ==> selectedAvatar == Some(s.avatar)
  {
    if !isLoggedIn then LoginScreen
    else if !hasAvatar || selectedAvatar.None? then AvatarSelectionScreen
    else DialogScreen(selectedAvatar.value)
  }

  class RootView {
    const auth: Auth.AuthService
    var isLoggedIn: bool
    var hasAvatar: bool
    var selectedAvatar: Option<AvatarType>

    /** The `@State` initial values are read from the shared services. */
    constructor (auth: Auth.AuthService)
      ensures this.auth == auth
      ensures isLoggedIn == auth.IsLoggedIn()
      ensures hasAvatar == auth.keychain.HasSeenAvatarSelection()
      ensures selectedAvatar == auth.keychain.GetSelectedAvatar()
    {
      this.auth := auth;
      isLoggedIn := auth.IsLoggedIn();
      hasAvatar := auth.keychain.HasSeenAvatarSelection();
      selectedAvatar := auth.keychain.GetSelectedAvatar();
    }

    function Shown(): Screen
      reads this
    {
      ScreenFor(isLoggedIn, hasAvatar, selectedAvatar)
    }

    /** `onAppear`: the three fields are reloaded from the stores, so the
        screen shown is the one the stored token and avatar call for. */
    method OnAppear()
      modifies this`isLoggedIn, this`hasAvatar, this`selectedAvatar
      ensures isLoggedIn == auth.IsLoggedIn()
      ensures hasAvatar == auth.keychain.HasSeenAvatarSelection()
      ensures selectedAvatar == auth.keychain.GetSelectedAvatar()
      ensures Shown() == ScreenFor(auth.IsLoggedIn(), auth.keychain.HasSeenAvatarSelection(), auth.keychain.GetSelectedAvatar())
    {
      isLoggedIn := auth.IsLoggedIn();
      hasAvatar := auth.keychain.HasSeenAvatarSelection();
      selectedAvatar := auth.keychain.GetSelectedAvatar();
    }

    /** `userDidLogin`, observed only by the login screen: signs in and
        refreshes `hasAvatar` from the store, but not `selectedAvatar`. */
    method ReceiveLogin()
      modifies this`isLoggedIn, this`hasAvatar
      ensures old(Shown()) == LoginScreen ==>
                isLoggedIn && hasAvatar == auth.keychain.HasSeenAvatarSelection() && selectedAvatar == old(selectedAvatar)
      ensures old(Shown()) == LoginScreen ==> Shown() != LoginScreen
      ensures old(Shown()) != LoginScreen ==> unchanged(this)
    {
      if Shown() == LoginScreen {
        isLoggedIn := true;
        hasAvatar := auth.keychain.HasSeenAvatarSelection();
      }
    }

    /** The avatar selection screen's `onSelected` callback: afterwards a
        signed-in user is in the chat with that avatar. */
    method AvatarChosen(avatar: AvatarType)
      modifies this`hasAvatar, this`selectedAvatar
      ensures selectedAvatar == Some(avatar) && hasAvatar
      ensures isLoggedIn ==> Shown() == DialogScreen(avatar)
    {
      selectedAvatar := Some(avatar);
      hasAvatar := true;
    }

    /** `userDidLogout`, observed by the avatar selection and chat screens:
        all three fields are reset, so the login screen comes back. */
    method ReceiveLogout()
      modifies this`isLoggedIn, this`hasAvatar, this`selectedAvatar
      ensures old(Shown()) != LoginScreen ==> !isLoggedIn && !hasAvatar && selectedAvatar == None
      ensures Shown() == LoginScreen
      ensures old(Shown()) == LoginScreen ==> unchanged(this)
    {
      if Shown() != LoginScreen {
        isLoggedIn := false;
        hasAvatar := false;
        selectedAvatar := None;
      }
    }
  }

  /** Signing out of the chat and straight back in lands on the avatar
      selection screen, even though the store still remembers the avatar:
      login refreshes `hasAvatar` but leaves `selectedAvatar` nil. */
  method LogoutThenLogin(view: RootView)
    modifies view
    requires view.Shown().DialogScreen?
    ensures view.Shown() == AvatarSelectionScreen
  {
    view.ReceiveLogout();
    view.ReceiveLogin();
  }

  /** An avatar saved through the store survives a relaunch: a signed-in
      user reopening the app goes straight to the chat with it. */
  method SavedAvatarSurvivesRelaunch(auth: Auth.AuthService, avatar: AvatarType) returns (view: RootView)
    modifies auth.keychain
    requires auth.IsLoggedIn()
    ensures view.Shown() == DialogScreen(avatar)
  {
    auth.keychain.SaveSelectedAvatar(avatar);
    KeysDistinct();
    view := new RootView(auth);
  }
}
