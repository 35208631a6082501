/**
 * Frontend/src/components/dashboard/ProjectCard.jsx: what the dashboard card
 * derives from its props: the link id, the member list, the avatar strip
 * with its overflow badge, and the due-date text.
 */
module ProjectCard {
  import opened JsValues
  import JsStrings
  import opened Wrappers

  /** `id || _id`. */
  function ProjectId(id: Json, underscoreId: Json): (r: Json)
    ensures Truthy(id) ==> r == id
    ensures !Truthy(id) ==> r == underscoreId
  {
    Or(id, underscoreId)
  }

  /** `progress = 0`: a default parameter replaces only `undefined`. */
  function Progress(progress: Json): (r: Json)
    ensures progress.Undefined? ==> r == Num(0)
    ensures !progress.Undefined? ==> r == progress
  {
    if progress.Undefined? then Num(0) else progress
  }

  /** `members = []` and then `Array.isArray(members) ? members : []`. */
  function MembersList(members: Json): (r: seq<Json>)
    ensures members.Arr? ==> r == members.items
    ensures !members.Arr? ==> r == []
  {
    if members.Arr? then members.items else []
  }

  /** The avatar strip: a placeholder icon, or up to three avatars and an optional "+n" badge. */
  datatype Strip = Placeholder | Avatars(shown: seq<Json>, overflow: nat)

  function AvatarStrip(members: seq<Json>): (s: Strip)
    ensures s.Placeholder? <==> members == []
    ensures s.Avatars? ==> |s.shown| <= 3 && s.shown <= members
    ensures s.Avatars? ==> (s.overflow > 0 <==> |members| > 3)
  {
    if |members| == 0 then Placeholder
    else if |members| > 3 then Avatars(members[..3], |members| - 3)
    else Avatars(members, 0)
  }

  /** Every member is either drawn or counted in the badge, and the drawn ones are the first three. */
  lemma StripAccountsForAll(members: seq<Json>)
    requires members != []
    ensures |AvatarStrip(members).shown| + AvatarStrip(members).overflow == |members|
    ensures |members| >= 3 ==> AvatarStrip(members).shown == members[..3]
  {
  }

  const AvatarPrefix := "https://ui-avatars.com/api/?name="
  const AvatarSuffix := "&background=1A1A1A&color=FFFFFF"

  /**
   * The image of one member: its avatar, its photo, or a generated one from its
   * name (or "User"). Reading `member.avatar` of a null or undefined member
   * throws a TypeError, which is `None` here.
   */
  function AvatarSource(member: Json): (r: Option<Json>)
    ensures r.None? <==> member.Null? || member.Undefined?
    ensures r.Some? ==> Truthy(r.value)
    ensures r.Some? && Truthy(Prop(member, "avatar")) ==> r.value == Prop(member, "avatar")
    ensures r.Some? && !Truthy(Prop(member, "avatar")) && Truthy(Prop(member, "photoURL")) ==>
      r.value == Prop(member, "photoURL")
    ensures r.Some? && !Truthy(Prop(member, "avatar")) && !Truthy(Prop(member, "photoURL")) ==>
      r.value == Str(AvatarPrefix + JsStrings.EncodeUriComponent(ToText(Or(Prop(member, "name"), Str("User")))) + AvatarSuffix)
  {
    if member.Null? || member.Undefined? then None
    else Some(Or(Prop(member, "avatar"), Or(Prop(member, "photoURL"),
      Str(AvatarPrefix + JsStrings.EncodeUriComponent(ToText(Or(Prop(member, "name"), Str("User")))) + AvatarSuffix))))
  }

  /** A member object with no avatar, photo or name is drawn with the generated "User" avatar. */
  lemma NamelessMemberAvatar(member: Object)
    requires !Truthy(Get(member, "avatar")) && !Truthy(Get(member, "photoURL")) && !Truthy(Get(member, "name"))
    ensures AvatarSource(Obj(member)) == Some(Str(AvatarPrefix + "User" + AvatarSuffix))
  {
    JsStrings.EncodeUnreservedIsIdentity("User");
  }

  /** `formatDate`: "Not set" for a missing or empty date; otherwise the locale text, given here. */
  function FormatDate(dateString: Json, localeText: string): (r: string)
    ensures !Truthy(dateString) ==> r == "Not set"
    ensures Truthy(dateString) ==> r == localeText
  {
    if !Truthy(dateString) then "Not set" else localeText
  }
}
