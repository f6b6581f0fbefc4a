/** Role-based access control: granting and revoking a permission for the member chosen in
    a select box, and listing the chosen member's permissions. */
module RoleBasedAccess {
  import opened Util
  import opened Store

  /** The permissions offered in the select box. */
  const AllPermissions: seq<string> :=
    ["create_project", "assign_tasks", "view_reports", "upload_files", "comment", "commit_code", "create_tasks"]

  /** The select box holds member ids as text; a member is the selected one when the text
      parses (`Number.parseInt`) to its id. */
  predicate Selected(m: TeamMember, selected: string) {
    ParseInt(selected) == Some(m.id)
  }

  /** Choosing a member from the list selects exactly the members that share its id. */
  lemma SelectingFromListTargetsThatId(chosen: TeamMember, m: TeamMember)
    ensures Selected(m, IntToString(chosen.id)) <==> m.id == chosen.id
  {
    ParseIntToString(chosen.id);
  }

  /** Spreading or filtering a missing permission list throws a `TypeError`. */
  const MissingPermissionsError: string := "TypeError: member.permissions is undefined"

  /** Some selected member has no permission list (members added on the team page). */
  predicate SelectedLacksList(members: seq<TeamMember>, selected: string) {
    exists i :: 0 <= i < |members| && Selected(members[i], selected) && members[i].permissions.None?
  }

  /** The members after granting `perm`: every selected member gets `perm` appended to its
      permissions (also when it already has it); the others are untouched. A selected member
      without a permission list makes the update throw. */
  function WithPermissionAdded(members: seq<TeamMember>, selected: string, perm: string): (r: Result<seq<TeamMember>>)
    ensures r.Err? <==> SelectedLacksList(members, selected)
    ensures r.Ok? ==> |r.value| == |members|
    ensures r.Ok? ==> forall i :: 0 <= i < |members| && !Selected(members[i], selected) ==> r.value[i] == members[i]
    ensures r.Ok? ==> forall i :: 0 <= i < |members| && Selected(members[i], selected) ==>
      && r.value[i].(permissions := members[i].permissions) == members[i]
      && r.value[i].permissions == Some(members[i].permissions.value + [perm])
  {
    if SelectedLacksList(members, selected) then Err(MissingPermissionsError)
    else Ok(seq(|members|, i requires 0 <= i < |members| => Granted(members[i], selected, perm)))
  }

  /** One member after the update, when the update does not throw. */
  function Granted(m: TeamMember, selected: string, perm: string): TeamMember {
    if Selected(m, selected) && m.permissions.Some? then m.(permissions := Some(m.permissions.value + [perm])) else m
  }

  /** The members after revoking `perm`: every selected member loses every copy of `perm`;
      the others are untouched. A selected member without a permission list makes the update
      throw. */
  function WithPermissionRemoved(members: seq<TeamMember>, selected: string, perm: string): (r: Result<seq<TeamMember>>)
    ensures r.Err? <==> SelectedLacksList(members, selected)
    ensures r.Ok? ==> |r.value| == |members|
    ensures r.Ok? ==> forall i :: 0 <= i < |members| && !Selected(members[i], selected) ==> r.value[i] == members[i]
    ensures r.Ok? ==> forall i :: 0 <= i < |members| && Selected(members[i], selected) ==>
      && r.value[i].(permissions := members[i].permissions) == members[i]
      && r.value[i].permissions == Some(Without(members[i].permissions.value, perm))
  {
    if SelectedLacksList(members, selected) then Err(MissingPermissionsError)
    else Ok(seq(|members|, i requires 0 <= i < |members| => Revoked(members[i], selected, perm)))
  }

  /** One member after the update, when the update does not throw. */
  function Revoked(m: TeamMember, selected: string, perm: string): TeamMember {
    if Selected(m, selected) && m.permissions.Some? then m.(permissions := Some(Without(m.permissions.value, perm))) else m
  }

  /** Revoking a permission that was just granted restores the members when none of the
      selected ones had it before. */
  lemma GrantThenRevoke(members: seq<TeamMember>, selected: string, perm: string)
    requires !SelectedLacksList(members, selected)
    requires forall i :: 0 <= i < |members| && Selected(members[i], selected) ==> perm !in members[i].permissions.value
    ensures WithPermissionAdded(members, selected, perm).Ok?
    ensures WithPermissionRemoved(WithPermissionAdded(members, selected, perm).value, selected, perm) == Ok(members)
  {
    var added := WithPermissionAdded(members, selected, perm).value;
    assert !SelectedLacksList(added, selected) by {
      forall i | 0 <= i < |added| && Selected(added[i], selected)
        ensures added[i].permissions.Some?
      {
        assert Selected(members[i], selected);
      }
    }
    var back := WithPermissionRemoved(added, selected, perm).value;
    forall i | 0 <= i < |members|
      ensures back[i] == members[i]
    {
      if Selected(members[i], selected) {
        var ps := members[i].permissions.value;
        ToggleTwice(ps, perm);
        assert Without(ps + [perm], perm) == ps;
      }
    }
    assert back == members;
  }

  /** Granting is not idempotent: granting a permission the member already has lists it
      twice. */
  lemma GrantTwiceDuplicates(m: TeamMember, perm: string)
    requires m.permissions == Some([perm])
    ensures var r := WithPermissionAdded([m], IntToString(m.id), perm);
      r.Ok? && r.value[0].permissions == Some([perm, perm])
  {
    ParseIntToString(m.id);
    var r := WithPermissionAdded([m], IntToString(m.id), perm);
    assert !SelectedLacksList([m], IntToString(m.id));
    assert Selected([m][0], IntToString(m.id));
    assert [perm] + [perm] == [perm, perm];
  }

  /** The "Current Permissions" list under the selection: nothing when no member matches,
      the first matching member's permissions otherwise, and a `TypeError` when that member
      has no permission list. */
  function ShownPermissions(members: seq<TeamMember>, selected: string): (r: Result<seq<string>>)
    ensures (forall i :: 0 <= i < |members| ==> !Selected(members[i], selected)) ==> r == Ok([])
    ensures forall i :: (0 <= i < |members| && Selected(members[i], selected)
      && (forall j :: 0 <= j < i ==> !Selected(members[j], selected))) ==>
      r == PermissionsOf(members[i])
  {
    ShownFor(members, ParseInt(selected))
  }

  /** A member's permission list, or the error reading a missing one raises. */
  function PermissionsOf(m: TeamMember): Result<seq<string>> {
    if m.permissions.Some? then Ok(m.permissions.value) else Err(MissingPermissionsError)
  }

  /** The permissions of the first member whose id is `key`. */
  function ShownFor(members: seq<TeamMember>, key: Option<int>): (r: Result<seq<string>>)
    ensures (forall i :: 0 <= i < |members| ==> key != Some(members[i].id)) ==> r == Ok([])
    ensures forall i :: (0 <= i < |members| && key == Some(members[i].id)
      && (forall j :: 0 <= j < i ==> key != Some(members[j].id))) ==>
      r == PermissionsOf(members[i])
    decreases |members|
  {
    if members == [] then Ok([])
    else if key == Some(members[0].id) then PermissionsOf(members[0])
    else
      var rest := members[1..];
      var r := ShownFor(rest, key);
      assert forall i :: (0 <= i < |members| && key == Some(members[i].id)
        && (forall j :: 0 <= j < i ==> key != Some(members[j].id))) ==> r == PermissionsOf(members[i])
      by {
        forall i | 0 <= i < |members| && key == Some(members[i].id)
          && (forall j :: 0 <= j < i ==> key != Some(members[j].id))
          ensures r == PermissionsOf(members[i])
        {
          assert rest[i - 1] == members[i];
          assert forall j :: 0 <= j < i - 1 ==> rest[j] == members[j + 1];
        }
      }
      assert (forall i :: 0 <= i < |members| ==> key != Some(members[i].id)) ==>
        forall i :: 0 <= i < |rest| ==> key != Some(rest[i].id)
      by {
        assert forall i :: 0 <= i < |rest| ==> rest[i] == members[i + 1];
      }
      r
  }

  /** What a click on either button did. */
  datatype Outcome = Ignored | Applied | Crashed(message: string)

  class RoleBasedAccess {
    const store: AppStore
    var selectedMember: Option<string>
    var selectedPermission: Option<string>

    constructor (store: AppStore)
      ensures this.store == store && selectedMember.None? && selectedPermission.None?
    {
      this.store := store;
      selectedMember := None;
      selectedPermission := None;
    }

    method SelectMember(value: string)
      modifies this
      ensures selectedMember == Some(value) && selectedPermission == old(selectedPermission)
    {
      selectedMember := Some(value);
    }

    method SelectPermission(value: string)
      modifies this
      ensures selectedPermission == Some(value) && selectedMember == old(selectedMember)
    {
      selectedPermission := Some(value);
    }

    /** Both selections are made (and non-empty). */
    predicate Ready()
      reads this
    {
      selectedMember.Some? && selectedMember.value != "" && selectedPermission.Some? && selectedPermission.value != ""
    }

    /** `handleAddPermission`: nothing without both selections; otherwise the grant is
        applied, or (a selected member has no permission list) the queued updater throws:
        the handler still completes and shows its toast, and the provider's next render
        throws, leaving the page on the error screen. */
    method HandleAddPermission() returns (outcome: Outcome)
      modifies store
      ensures !Ready() ==> outcome == Ignored && store.State() == old(store.State())
      ensures Ready() ==>
        var r := WithPermissionAdded(old(store.teamMembers), selectedMember.value, selectedPermission.value);
        && (r.Ok? ==> outcome == Applied && store.State() == old(store.State()).(teamMembers := r.value))
        && (r.Err? ==> outcome == Crashed(r.message) && store.State() == old(store.State()).(failure := Some(r.message))
                       && store.Render() == ErrorScreen(r.message))
    {
      if selectedMember.None? || selectedMember.value == "" || selectedPermission.None? || selectedPermission.value == "" {
        return Ignored;
      }
      var r := WithPermissionAdded(store.teamMembers, selectedMember.value, selectedPermission.value);
      if r.Err? {
        store.QueueThrowingUpdate(r.message);
        return Crashed(r.message);
      }
      store.SetTeamMembers(Value(r.value));
      outcome := Applied;
    }

    /** `handleRemovePermission`, likewise: applied, or the queued updater throws and the
        page is left on the error screen. */
    method HandleRemovePermission() returns (outcome: Outcome)
      modifies store
      ensures !Ready() ==> outcome == Ignored && store.State() == old(store.State())
      ensures Ready() ==>
        var r := WithPermissionRemoved(old(store.teamMembers), selectedMember.value, selectedPermission.value);
        && (r.Ok? ==> outcome == Applied && store.State() == old(store.State()).(teamMembers := r.value))
        && (r.Err? ==> outcome == Crashed(r.message) && store.State() == old(store.State()).(failure := Some(r.message))
                       && store.Render() == ErrorScreen(r.message))
    {
      if selectedMember.None? || selectedMember.value == "" || selectedPermission.None? || selectedPermission.value == "" {
        return Ignored;
      }
      var r := WithPermissionRemoved(store.teamMembers, selectedMember.value, selectedPermission.value);
      if r.Err? {
        store.QueueThrowingUpdate(r.message);
        return Crashed(r.message);
      }
      store.SetTeamMembers(Value(r.value));
      outcome := Applied;
    }
  }
}
