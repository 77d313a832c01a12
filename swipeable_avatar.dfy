/** `SwipeableAvatarChangeView`: the carousel for changing the avatar from the
    chat screen, with arrows, swipes and a one-shot confirm button. */
module AvatarCarousel {
  import opened Common
  import opened Avatars
  import opened Keychain

  const FemaleLabel: string := "Female Assistant"
  const MaleLabel: string := "Male Assistant"

  /** The caption under the carousel for the avatar at `index`. */
  function Label(index: nat): (r: string)
    requires index < |AllCases()|
    ensures r == FemaleLabel <==> IsFemale(AllCases()[index])
    ensures r == FemaleLabel || r == MaleLabel
  {
    if IsFemale(AllCases()[index]) then FemaleLabel else MaleLabel
  }

  class SwipeableAvatarChangeView {
    const currentAvatar: AvatarType
    var selectedIndex: int
    var isNavigating: bool

    /** The carousel's index always names an avatar. */
    ghost predicate Valid()
      reads this
    {
      0 <= selectedIndex < |AllCases()|
    }

    constructor (currentAvatar: AvatarType)
      ensures Valid()
      ensures this.currentAvatar == currentAvatar && selectedIndex == 0 && !isNavigating
    {
      this.currentAvatar := currentAvatar;
      selectedIndex := 0;
      isNavigating := false;
    }

    function Selected(): AvatarType
      requires Valid()
      reads this
    {
      AllCases()[selectedIndex]
    }

    /** The left arrow is shown only when there is an avatar to the left. */
    predicate HasLeftArrow()
      reads this
    {
      selectedIndex > 0
    }

    /** The right arrow is shown only when there is an avatar to the right. */
    predicate HasRightArrow()
      reads this
    {
      selectedIndex < |AllCases()| - 1
    }

    /** `onAppear`: start on the avatar currently in use. */
    method OnAppear()
      modifies this`selectedIndex
      ensures Valid() && Selected() == currentAvatar
      ensures selectedIndex == IndexOf(currentAvatar)
    {
      selectedIndex := IndexOf(currentAvatar);
    }

    /** A tap on the left arrow, which exists only while `HasLeftArrow()`. */
    method TapLeft()
      requires Valid()
      modifies this`selectedIndex
      ensures Valid()
      ensures old(HasLeftArrow()) ==> selectedIndex == old(selectedIndex) - 1
      ensures !old(HasLeftArrow()) ==> selectedIndex == old(selectedIndex)
    {
      if HasLeftArrow() {
        selectedIndex := selectedIndex - 1;
      }
    }

    /** A tap on the right arrow, which exists only while `HasRightArrow()`. */
    method TapRight()
      requires Valid()
      modifies this`selectedIndex
      ensures Valid()
      ensures old(HasRightArrow()) ==> selectedIndex == old(selectedIndex) + 1
      ensures !old(HasRightArrow()) ==> selectedIndex == old(selectedIndex)
    {
      if HasRightArrow() {
        selectedIndex := selectedIndex + 1;
      }
    }

    /** A swipe of the page view selects the page's tag, one of the indices. */
    method Swipe(page: nat)
      requires page < |AllCases()|
      modifies this`selectedIndex
      ensures Valid() && selectedIndex == page
    {
      selectedIndex := page;
    }

    /** The confirm button: the first press saves the selected avatar and hands
        that same avatar to `onSelected`; every later press does nothing. */
    method Confirm(store: KeychainService) returns (selected: Option<AvatarType>)
      requires Valid()
      modifies this`isNavigating, store
      ensures isNavigating
      ensures old(isNavigating) ==> selected == None && store.items == old(store.items)
      ensures !old(isNavigating) ==> selected == Some(Selected())
                                     && store.GetSelectedAvatar() == selected
                                     && store.HasSeenAvatarSelection()
      ensures !old(isNavigating) ==>
                store.items == old(store.items)[AvatarKey := RawValue(Selected())][SeenAvatarSelectionKey := "1"]
    {
      if isNavigating {
        return None;
      }
      isNavigating := true;
      var avatar := AllCases()[selectedIndex];
      store.SaveSelectedAvatar(avatar);
      selected := Some(avatar);
    }
  }

  /** From any position, two taps on the right arrow reach the last avatar,
      where that arrow is no longer shown. */
  method ArrowsReachTheEdges(view: SwipeableAvatarChangeView)
    requires view.Valid()
    modifies view
    ensures view.Valid() && view.selectedIndex == |AllCases()| - 1 && !view.HasRightArrow()
  {
    view.TapRight();
    view.TapRight();
  }

  /** However often confirm is pressed, `onSelected` receives one avatar. */
  method ConfirmIsOneShot(view: SwipeableAvatarChangeView, store: KeychainService)
    returns (first: Option<AvatarType>, second: Option<AvatarType>)
    requires view.Valid() && !view.isNavigating
    modifies view, store
    ensures view.Valid() && first == Some(view.Selected()) && second == None
    ensures store.GetSelectedAvatar() == first
  {
    first := view.Confirm(store);
    second := view.Confirm(store);
  }
}
