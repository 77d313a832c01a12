/** `AvatarView.gifName`: which animation asset an avatar shows in each state. */
module AvatarView {
  import opened Common
  import opened Avatars

  /** The asset-name prefix: the avatar's gender. */
  function GenderPrefix(a: AvatarType): string {
    if IsFemale(a) then "female" else "male"
  }

  /** The suffix for each state; speaking uses the `talking` asset. */
  function StateSuffix(s: AvatarAnimState): string {
    match s
    case Idle => "_idle"
    case Thinking => "_thinking"
    case Speaking => "_talking"
  }

  /** The asset name: female avatars' names start with "female", male
      avatars' with "male". */
  function GifName(a: AvatarType, s: AvatarAnimState): (r: string)
    ensures StartsWith(r, "female") <==> IsFemale(a)
    ensures StartsWith(r, "male") <==> !IsFemale(a)
  {
    var r := GenderPrefix(a) + StateSuffix(s);
    assert r[0] == GenderPrefix(a)[0];
    r
  }

  /** Each state has its own suffix; speaking is `_talking`, never `_speaking`. */
  lemma GifNameSuffix(a: AvatarType, s: AvatarAnimState)
    ensures s == Idle ==> GifName(a, s)[|GifName(a, s)| - 5..] == "_idle"
    ensures s == Thinking ==> GifName(a, s)[|GifName(a, s)| - 9..] == "_thinking"
    ensures s == Speaking ==> GifName(a, s)[|GifName(a, s)| - 8..] == "_talking"
  {
  }

  /** Different (avatar, state) pairs never share an asset. */
  lemma GifNameInjective(a: AvatarType, s: AvatarAnimState, b: AvatarType, t: AvatarAnimState)
    requires GifName(a, s) == GifName(b, t)
    ensures a == b && s == t
  {
  }
}
