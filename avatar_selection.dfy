/** `AvatarSelectionView`: the first-run avatar choice, a tap to pick and a
    one-shot Continue button. */
module AvatarSelection {
  import opened Common
  import opened Avatars
  import opened Keychain

  class AvatarSelectionView {
    var selectedAvatar: Option<AvatarType>
    var isNavigating: bool

    constructor ()
      ensures selectedAvatar == None && !isNavigating
    {
      selectedAvatar := None;
      isNavigating := false;
    }

    /** Continue is enabled once an avatar is picked and until it is pressed. */
    predicate ContinueEnabled()
      reads this
    {
      selectedAvatar.Some? && !isNavigating
    }

    /** A tap on an option selects it. */
    method Tap(avatar: AvatarType)
      modifies this`selectedAvatar
      ensures selectedAvatar == Some(avatar)
    {
      selectedAvatar := Some(avatar);
    }

    /** Continue: with nothing picked, or once already pressed, it does
        nothing; otherwise it saves the avatar, marks the selection as seen,
        disables itself and hands the avatar to `onSelected`. */
    method Continue(store: KeychainService) returns (selected: Option<AvatarType>)
      modifies this`isNavigating, store
      ensures !old(ContinueEnabled()) ==>
                selected == None && store.items == old(store.items) && isNavigating == old(isNavigating)
      ensures old(ContinueEnabled()) ==>
                selected == old(selectedAvatar) && isNavigating
                && store.GetSelectedAvatar() == selected && store.HasSeenAvatarSelection()
                && store.items == old(store.items)[AvatarKey := RawValue(selected.value)][SeenAvatarSelectionKey := "1"]
      ensures !ContinueEnabled()
    {
      if isNavigating || selectedAvatar.None? {
        return None;
      }
      var avatar := selectedAvatar.value;
      isNavigating := true;
      store.SaveSelectedAvatar(avatar);
      store.MarkAvatarAsSelected();
      selected := Some(avatar);
    }
  }

  /** The last tap before Continue decides, and Continue fires only once. */
  method LastTapWins(view: AvatarSelectionView, store: KeychainService, a: AvatarType, b: AvatarType)
    returns (first: Option<AvatarType>, second: Option<AvatarType>)
    requires !view.isNavigating
    modifies view, store
    ensures first == Some(b) && second == None
    ensures store.GetSelectedAvatar() == Some(b)
  {
    view.Tap(a);
    view.Tap(b);
    first := view.Continue(store);
    second := view.Continue(store);
  }
}
