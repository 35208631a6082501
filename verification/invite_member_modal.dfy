/**
 * Frontend/src/components/project/InviteMemberModal.jsx: the member list of a
 * project, the search for users to invite (which hides users who already
 * belong), the invite that rebuilds the list from the server's reply, and
 * member removal. The server calls become the outcomes passed in.
 */
module InviteMemberModal {
  import opened Wrappers
  import opened JsValues
  import JsStrings
  import Seqs

  const SearchFailed := "Failed to search for users. Please try again."
  const InviteFailed := "Failed to invite user. Please try again."
  const RemoveFailed := "Failed to remove team member. Please try again."
  const RemovedMessage := "Team member removed successfully."
  const AvatarPrefix := "https://ui-avatars.com/api/?name="
  const AvatarSuffix := "&background=1A1A1A&color=FFFFFF"

  /** Reading a property of `undefined` or `null` throws a TypeError. */
  predicate Nullish(v: Json) {
    v.Undefined? || v.Null?
  }

  /**
   * The already-member test: some field pair is strictly equal. Two absent
   * fields are both `undefined` and so compare equal.
   */
  predicate MatchesMember(member: Object, user: Json) {
    Get(member, "email") == Prop(user, "email")
    || Get(member, "userId") == Prop(user, "uid")
    || Get(member, "id") == Prop(user, "id")
  }

  predicate AlreadyMember(user: Json, members: seq<Object>) {
    exists i :: 0 <= i < |members| && MatchesMember(members[i], user)
  }

  /**
   * The search results once members are filtered out; a non-array reply
   * gives none. `None` is the TypeError thrown when a nullish user is
   * compared against at least one member.
   */
  function FilterResults(result: Json, members: seq<Object>): (r: Option<seq<Json>>)
    ensures !result.Arr? ==> r == Some([])
    ensures r.None? <==> result.Arr? && members != [] && exists i :: 0 <= i < |result.items| && Nullish(result.items[i])
    ensures r.Some? && result.Arr? ==>
      && Seqs.IsSubsequence(r.value, result.items)
      && (forall i :: 0 <= i < |r.value| ==> !AlreadyMember(r.value[i], members))
      && (forall i :: 0 <= i < |result.items| && !AlreadyMember(result.items[i], members) ==> result.items[i] in r.value)
    ensures r.Some? && result.Arr? ==>
      forall u :: multiset(r.value)[u] == if AlreadyMember(u, members) then 0 else multiset(result.items)[u]
  {
    if !result.Arr? then Some([])
    else if members != [] && exists i :: 0 <= i < |result.items| && Nullish(result.items[i]) then None
    else
      var keep := (user: Json) => !AlreadyMember(user, members);
      Seqs.FilterSpec(result.items, keep);
      Some(Seqs.Filter(result.items, keep))
  }

  /** With no members every user of the reply is offered, in order. */
  lemma NoMembersKeepsAll(items: seq<Json>)
    ensures FilterResults(Arr(items), []) == Some(items)
  {
    Seqs.FilterKeepsAll(items, (user: Json) => !AlreadyMember(user, []));
  }

  /** A user without an email is hidden as soon as some member has no email either. */
  lemma AbsentEmailsMatch(user: Object, members: seq<Object>, i: nat)
    requires i < |members| && "email" !in members[i] && "email" !in user
    ensures AlreadyMember(Obj(user), members)
  {
    assert MatchesMember(members[i], Obj(user));
  }

  /** `members.filter(m => m.userId !== userId && m.id !== userId)`. */
  function RemoveMembers(members: seq<Object>, userId: Json): (r: seq<Object>)
    ensures forall i :: 0 <= i < |r| ==> Get(r[i], "userId") != userId && Get(r[i], "id") != userId
    ensures forall i :: 0 <= i < |members| && Get(members[i], "userId") != userId && Get(members[i], "id") != userId ==> members[i] in r
    ensures Seqs.IsSubsequence(r, members)
    ensures forall m ::
      multiset(r)[m] == if Get(m, "userId") != userId && Get(m, "id") != userId then multiset(members)[m] else 0
  {
    var keep := (m: Object) => Get(m, "userId") != userId && Get(m, "id") != userId;
    Seqs.FilterSpec(members, keep);
    var r := Seqs.Filter(members, keep);
    assert forall i :: 0 <= i < |r| ==> keep(r[i]) == (Get(r[i], "userId") != userId && Get(r[i], "id") != userId);
    r
  }

  /** Removing an id no member carries leaves the list as it is. */
  lemma RemoveAbsentIsNoOp(members: seq<Object>, userId: Json)
    requires forall i :: 0 <= i < |members| ==> Get(members[i], "userId") != userId && Get(members[i], "id") != userId
    ensures RemoveMembers(members, userId) == members
  {
    Seqs.FilterKeepsAll(members, (m: Object) => Get(m, "userId") != userId && Get(m, "id") != userId);
  }

  /** The fallback display name: the text of the email before its first '@'. */
  function EmailName(email: string): (name: string)
    ensures name <= email && '@' !in name
    ensures '@' in email ==> email[|name|] == '@'
    ensures '@' !in email ==> name == email
  {
    JsStrings.SplitHead(email, '@');
    JsStrings.Split(email, '@')[0]
  }

  /**
   * One member of the invite reply, rebuilt for display. `None` is the
   * TypeError of reading a nullish member or splitting a non-string email.
   */
  function RebuildMember(m: Json): (r: Option<Object>)
    ensures r.None? <==> Nullish(m) || (!Truthy(Prop(m, "name")) && !Prop(m, "email").Str?)
    ensures r.Some? ==> Get(r.value, "id") == Prop(m, "userId") && Get(r.value, "userId") == Prop(m, "userId")
    ensures r.Some? ==> Get(r.value, "email") == Prop(m, "email") && Get(r.value, "role") == Prop(m, "role")
    ensures r.Some? && Truthy(Prop(m, "name")) ==> Get(r.value, "name") == Prop(m, "name")
    ensures r.Some? && !Truthy(Prop(m, "name")) ==> Get(r.value, "name") == Str(EmailName(Prop(m, "email").s))
    ensures r.Some? && Truthy(Prop(m, "photoURL")) ==> Get(r.value, "avatar") == Prop(m, "photoURL")
    ensures r.Some? && !Truthy(Prop(m, "photoURL")) ==>
      Get(r.value, "avatar") == Str(AvatarPrefix + JsStrings.EncodeUriComponent(ToText(Prop(m, "email"))) + AvatarSuffix)
  {
    if Nullish(m) then None
    else
      var name := Prop(m, "name");
      var email := Prop(m, "email");
      var photo := Prop(m, "photoURL");
      if !Truthy(name) && !email.Str? then None
      else Some(map[
        "id" := Prop(m, "userId"),
        "userId" := Prop(m, "userId"),
        "email" := email,
        "name" := if Truthy(name) then name else Str(EmailName(email.s)),
        "avatar" := if Truthy(photo) then photo
                    else Str(AvatarPrefix + JsStrings.EncodeUriComponent(ToText(email)) + AvatarSuffix),
        "role" := Prop(m, "role")])
  }

  /** `members.map(rebuild)`, failing when any member fails. */
  function RebuildMembers(items: seq<Json>): (r: Option<seq<Object>>)
    ensures r.Some? <==> forall i :: 0 <= i < |items| ==> RebuildMember(items[i]).Some?
    ensures r.Some? ==> |r.value| == |items| && forall i :: 0 <= i < |items| ==> r.value[i] == RebuildMember(items[i]).value
  {
    if items == [] then Some([])
    else match (RebuildMember(items[0]), RebuildMembers(items[1..]))
      case (Some(first), Some(rest)) => Some([first] + rest)
      case _ => None
  }

  /** `err.response?.data?.message || fallback`. */
  function ErrorMessage(err: Json, fallback: string): (v: Json)
    ensures fallback != "" ==> Truthy(v)
    ensures Truthy(Prop(Prop(Prop(err, "response"), "data"), "message")) ==>
      v == Prop(Prop(Prop(err, "response"), "data"), "message")
    ensures !Truthy(Prop(Prop(Prop(err, "response"), "data"), "message")) ==> v == Str(fallback)
  {
    Or(Prop(Prop(Prop(err, "response"), "data"), "message"), Str(fallback))
  }

  /** The search call answered and its reply could be filtered. */
  predicate SearchFound(outcome: Result<Json, Json>, members: seq<Object>) {
    outcome.Ok? && FilterResults(outcome.value, members).Some?
  }

  class Modal {
    var searchEmail: string
    var searchResults: seq<Json>
    var members: seq<Object>
    var isLoading: bool
    var searchPerformed: bool
    var error: Json
    var successMessage: Json

    constructor()
      ensures searchEmail == "" && searchResults == [] && members == [] && !isLoading && !searchPerformed
      ensures error == Null && successMessage == Null
    {
      searchEmail := "";
      searchResults := [];
      members := [];
      isLoading := false;
      searchPerformed := false;
      error := Null;
      successMessage := Null;
    }

    /** The effect on `currentMembers`: taken over only when non-empty. */
    method InitMembers(currentMembers: seq<Object>)
      modifies this
      ensures members == (if |currentMembers| > 0 then currentMembers else old(members))
      ensures searchEmail == old(searchEmail) && searchResults == old(searchResults) && isLoading == old(isLoading)
      ensures searchPerformed == old(searchPerformed) && error == old(error) && successMessage == old(successMessage)
    {
      if |currentMembers| > 0 {
        members := currentMembers;
      }
    }

    method SetSearchEmail(value: string)
      modifies this
      ensures searchEmail == value && searchResults == old(searchResults) && members == old(members)
      ensures isLoading == old(isLoading) && searchPerformed == old(searchPerformed)
      ensures error == old(error) && successMessage == old(successMessage)
    {
      searchEmail := value;
    }

    /** Search: a blank email does nothing; a failure clears the results and reports the error. */
    method HandleSearch(outcome: Result<Json, Json>)
      modifies this
      ensures JsStrings.IsBlank(old(searchEmail)) ==> unchanged(this)
      ensures !JsStrings.IsBlank(old(searchEmail)) ==> !isLoading && searchEmail == old(searchEmail)
      ensures !JsStrings.IsBlank(old(searchEmail)) ==> members == old(members) && successMessage == old(successMessage)
      ensures !JsStrings.IsBlank(old(searchEmail)) && SearchFound(outcome, old(members)) ==>
        searchResults == FilterResults(outcome.value, old(members)).value && searchPerformed && error == Null
      ensures !JsStrings.IsBlank(old(searchEmail)) && !SearchFound(outcome, old(members)) ==>
        searchResults == [] && searchPerformed == old(searchPerformed) && error == Str(SearchFailed)
    {
      if JsStrings.IsBlank(searchEmail) {
        return;
      }
      RunSearch(outcome);
    }

    /** The search call itself, once the email is known not to be blank. */
    method RunSearch(outcome: Result<Json, Json>)
      modifies this
      ensures !isLoading && searchEmail == old(searchEmail)
      ensures members == old(members) && successMessage == old(successMessage)
      ensures SearchFound(outcome, old(members)) ==>
        searchResults == FilterResults(outcome.value, old(members)).value && searchPerformed && error == Null
      ensures !SearchFound(outcome, old(members)) ==>
        searchResults == [] && searchPerformed == old(searchPerformed) && error == Str(SearchFailed)
    {
      isLoading := true;
      error := Null;
      if SearchFound(outcome, members) {
        searchResults := FilterResults(outcome.value, members).value;
        searchPerformed := true;
      } else {
        error := Str(SearchFailed);
        searchResults := [];
      }
      isLoading := false;
    }

    /**
     * Invite: on success the search is cleared and, when the reply carries
     * `project.members`, the list is rebuilt from it and handed to the
     * parent. A failure, or a TypeError while rebuilding, reports an error.
     */
    method HandleInvite(email: string, outcome: Result<Json, Json>) returns (notified: Option<seq<Object>>)
      modifies this
      ensures !isLoading
      ensures outcome.Err? ==>
        && error == ErrorMessage(outcome.error, InviteFailed) && notified == None
        && searchEmail == old(searchEmail) && searchResults == old(searchResults) && searchPerformed == old(searchPerformed)
        && members == old(members) && successMessage == old(successMessage)
      ensures outcome.Ok? ==>
        && successMessage == Str("Successfully invited " + email + " to the project!")
        && searchEmail == "" && searchResults == [] && !searchPerformed
      ensures outcome.Ok? && Nullish(outcome.value) ==>
        error == Str(InviteFailed) && notified == None && members == old(members)
      ensures outcome.Ok? && !Nullish(outcome.value) ==>
        var project := Prop(outcome.value, "project");
        var list := Prop(project, "members");
        if !Truthy(project) || !Truthy(list) then
          members == old(members) && notified == None && error == Null
        else if list.Arr? && RebuildMembers(list.items).Some? then
          members == RebuildMembers(list.items).value && notified == Some(members) && error == Null
        else
          members == old(members) && notified == None && error == Str(InviteFailed)
    {
      isLoading := true;
      error := Null;
      notified := None;
      if outcome.Err? {
        error := ErrorMessage(outcome.error, InviteFailed);
      } else {
        successMessage := Str("Successfully invited " + email + " to the project!");
        searchEmail := "";
        searchResults := [];
        searchPerformed := false;
        if Nullish(outcome.value) {
          // reading `project` off a null reply throws; the catch shows the fallback
          error := Str(InviteFailed);
        } else {
          var project := Prop(outcome.value, "project");
          var list := Prop(project, "members");
          if Truthy(project) && Truthy(list) {
            var rebuilt := if list.Arr? then RebuildMembers(list.items) else None;
            if rebuilt.Some? {
              members := rebuilt.value;
              notified := Some(members);
            } else {
              error := Str(InviteFailed);
            }
          }
        }
      }
      isLoading := false;
    }

    /** Removal: on success the members with that id are dropped and the parent is told. */
    method HandleRemoveMember(userId: Json, outcome: Result<Json, Json>) returns (notified: Option<seq<Object>>)
      modifies this
      ensures !isLoading && searchEmail == old(searchEmail) && searchResults == old(searchResults)
      ensures searchPerformed == old(searchPerformed)
      ensures outcome.Ok? ==> members == RemoveMembers(old(members), userId) && notified == Some(members)
      ensures outcome.Ok? ==> successMessage == Str(RemovedMessage) && error == Null
      ensures outcome.Err? ==> members == old(members) && notified == None
      ensures outcome.Err? ==> error == Str(RemoveFailed) && successMessage == old(successMessage)
    {
      isLoading := true;
      error := Null;
      notified := None;
      if outcome.Ok? {
        members := RemoveMembers(members, userId);
        notified := Some(members);
        successMessage := Str(RemovedMessage);
      } else {
        error := Str(RemoveFailed);
      }
      isLoading := false;
    }

    /** The timer that clears the success message. */
    method ClearSuccessMessage()
      modifies this
      ensures successMessage == Null
      ensures searchEmail == old(searchEmail) && searchResults == old(searchResults) && members == old(members)
      ensures isLoading == old(isLoading) && searchPerformed == old(searchPerformed) && error == old(error)
    {
      successMessage := Null;
    }
  }
}
