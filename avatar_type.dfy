/** The assistant's avatars (`AvatarType`) and the animation states an avatar
    shows (`AvatarAnimState`). */
module Avatars {
  import opened Common

  /** `enum AvatarType: String, CaseIterable`, in declaration order. */
  datatype AvatarType = Male | Female

  datatype AvatarAnimState = Idle | Thinking | Speaking

  /** The enum's raw value: the case name. */
  function RawValue(a: AvatarType): string {
    match a
    case Male => "male"
    case Female => "female"
  }

  /** `AvatarType(rawValue:)`: nil for every string that is not a raw value. */
  function FromRawValue(raw: string): (r: Option<AvatarType>)
    ensures r.Some? <==> raw == "male" || raw == "female"
    ensures r.Some? ==> RawValue(r.value) == raw
  {
    if raw == "male" then Some(Male)
    else if raw == "female" then Some(Female)
    else None
  }

  /** Every avatar is recovered from its raw value, and no two avatars share one. */
  lemma RawValueRoundTrip(a: AvatarType)
    ensures FromRawValue(RawValue(a)) == Some(a)
    ensures forall b :: RawValue(b) == RawValue(a) ==> b == a
  {
  }

  /** The name shown to the user: the raw value with a capital initial. */
  function DisplayName(a: AvatarType): (r: string)
    ensures Lower(r) == RawValue(a) && r[1..] == RawValue(a)[1..]
    ensures 'A' <= r[0] <= 'Z'
  {
    match a
    case Male => "Male"
    case Female => "Female"
  }

  /** The asset identifier is the raw value. */
  function AssetId(a: AvatarType): (r: string)
    ensures FromRawValue(r) == Some(a)
  {
    RawValue(a)
  }

  predicate IsFemale(a: AvatarType) {
    a == Female
  }

  /** `AvatarType.allCases`. */
  function AllCases(): (r: seq<AvatarType>)
    ensures |r| == 2 && r[0] == Male && r[1] == Female
  {
    [Male, Female]
  }

  /** Every avatar appears in `allCases` exactly once; this is where the
      carousel's indices come from. */
  lemma AllCasesListsEachOnce(a: AvatarType)
    ensures a in AllCases()
    ensures forall i, j :: 0 <= i < j < |AllCases()| ==> AllCases()[i] != AllCases()[j]
  {
  }

  /** `allCases.firstIndex(of:)`: always found. */
  function IndexOf(a: AvatarType): (r: nat)
    ensures r < |AllCases()| && AllCases()[r] == a
    ensures forall j :: 0 <= j < r ==> AllCases()[j] != a
  {
    if a == Male then 0 else 1
  }
}
