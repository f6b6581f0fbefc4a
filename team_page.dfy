/** The team page: adding and removing members, the role distribution chart and the
    per-member project assignment counts. */
module TeamPage {
  import opened Util
  import opened Store

  /** The "new member" form. */
  datatype MemberDraft = MemberDraft(name: string, email: string, role: string)

  const EmptyMemberDraft: MemberDraft := MemberDraft("", "", "")

  /** The form is submitted only when all three fields are non-empty (JavaScript
      truthiness: a string of spaces counts). */
  predicate DraftComplete(d: MemberDraft) {
    d.name != "" && d.email != "" && d.role != ""
  }

  /** The members after submitting the form: unchanged unless the form is complete, otherwise
      the new member, numbered one past the current count and without permissions,
      achievements or points, appended. */
  function WithMemberAdded(members: seq<TeamMember>, d: MemberDraft): (r: seq<TeamMember>)
    ensures !DraftComplete(d) ==> r == members
    ensures DraftComplete(d) ==>
      && |r| == |members| + 1 && r[..|members|] == members
      && r[|members|] == TeamMember(|members| + 1, d.name, d.email, d.role, None, None, None)
  {
    if DraftComplete(d) then
      var m := TeamMember(|members| + 1, d.name, d.email, d.role, None, None, None);
      assert (members + [m])[..|members|] == members;
      members + [m]
    else members
  }

  /** Members numbered 1, 2, ... in list order, as the fixtures are. */
  predicate IdsSequential(members: seq<TeamMember>) {
    forall i :: 0 <= i < |members| ==> members[i].id == i + 1
  }

  /** Adding keeps sequential numbering sequential, and then the new id is fresh. */
  lemma AddKeepsIdsSequential(members: seq<TeamMember>, d: MemberDraft)
    requires IdsSequential(members)
    ensures IdsSequential(WithMemberAdded(members, d))
    ensures DraftComplete(d) ==> forall m :: m in members ==> m.id != |members| + 1
  {
    var r := WithMemberAdded(members, d);
    forall i | 0 <= i < |r|
      ensures r[i].id == i + 1
    {
      if i < |members| {
        assert r[i] == r[..|members|][i];
      }
    }
  }

  /** The first member with the given id (`find`). */
  function FindMember(members: seq<TeamMember>, id: int): (r: Option<TeamMember>)
    ensures r.Some? <==> exists m :: m in members && m.id == id
    ensures r.Some? ==> r.value in members && r.value.id == id
    ensures r.Some? ==> exists i :: 0 <= i < |members| && members[i] == r.value
                          && forall j :: 0 <= j < i ==> members[j].id != id
  {
    var k := FirstWithId(members, id);
    if k < |members| then Some(members[k]) else None
  }

  /** The position of the first member with the given id; the length when there is none. */
  function FirstWithId(members: seq<TeamMember>, id: int): (k: nat)
    ensures k <= |members|
    ensures forall j :: 0 <= j < k ==> members[j].id != id
    ensures k < |members| ==> members[k].id == id
  {
    if members == [] || members[0].id == id then 0 else 1 + FirstWithId(members[1..], id)
  }

  /** The members after removing `id`: every member with that id goes, the rest keep their
      order. */
  function WithoutMember(members: seq<TeamMember>, id: int): (r: seq<TeamMember>)
    ensures forall m :: m in r <==> m in members && m.id != id
    ensures forall m :: multiset(r)[m] == if m.id != id then multiset(members)[m] else 0
    ensures IsSubseq(r, members)
  {
    Filter(members, (m: TeamMember) => m.id != id)
  }

  /** Numbering by count is not stable under removal: after member 1 leaves a team of two,
      the next member gets id 2, which the remaining member already has. */
  lemma RemoveThenAddRepeatsId(a: TeamMember, b: TeamMember, d: MemberDraft)
    requires a.id == 1 && b.id == 2 && DraftComplete(d)
    ensures var r := WithMemberAdded(WithoutMember([a, b], 1), d);
      |r| == 2 && r[0] == b && r[1].id == b.id
  {
    var rest := WithoutMember([a, b], 1);
    assert b in rest && a !in rest;
    assert |rest| == 1 by {
      assert multiset(rest)[b] == 1;
      assert multiset(rest) == multiset{b} by {
        forall m: TeamMember
          ensures multiset(rest)[m] == multiset{b}[m]
        {
        }
      }
    }
  }

  // ---------------------------------------------------------------------------
  // Role distribution
  // ---------------------------------------------------------------------------

  /** One slice of the role pie chart. */
  datatype RoleEntry = RoleEntry(name: string, value: nat)

  function Roles(members: seq<TeamMember>): seq<string> {
    seq(|members|, i requires 0 <= i < |members| => members[i].role)
  }

  /** How many members have the role. */
  function RoleCount(members: seq<TeamMember>, role: string): nat
    decreases |members|
  {
    if members == [] then 0
    else RoleCount(members[..|members| - 1], role) + if members[|members| - 1].role == role then 1 else 0
  }

  function EntryNames(entries: seq<RoleEntry>): seq<string> {
    seq(|entries|, i requires 0 <= i < |entries| => entries[i].name)
  }

  function SumValues(entries: seq<RoleEntry>): nat
    decreases |entries|
  {
    if entries == [] then 0 else SumValues(entries[..|entries| - 1]) + entries[|entries| - 1].value
  }

  /** `entries` is the role tally of `ms`: one entry per role in order of first appearance,
      holding how many of `ms` have it; the values add up to the number of members. */
  ghost predicate TallyOf(entries: seq<RoleEntry>, ms: seq<TeamMember>) {
    && EntryNames(entries) == Distinct(Roles(ms))
    && (forall k :: 0 <= k < |entries| ==> entries[k].value == RoleCount(ms, entries[k].name))
    && (forall k :: 0 <= k < |entries| ==> entries[k].value >= 1)
    && SumValues(entries) == |ms|
  }

  /** One step of the `reduce`: `acc[role] = (acc[role] || 0) + 1`. */
  function Tally(entries: seq<RoleEntry>, role: string): seq<RoleEntry> {
    var names := EntryNames(entries);
    if role in names then
      var k := IndexOf(names, role);
      entries[k := RoleEntry(role, entries[k].value + 1)]
    else entries + [RoleEntry(role, 1)]
  }

  /** The `reduce` that tallies members per role, followed by `Object.entries`: one entry
      per role in order of first appearance, holding how many members have it; the values
      add up to the team size. */
  method RoleDistribution(members: seq<TeamMember>) returns (entries: seq<RoleEntry>)
    ensures EntryNames(entries) == Distinct(Roles(members))
    ensures forall k :: 0 <= k < |entries| ==> entries[k].value == RoleCount(members, entries[k].name)
    ensures forall k :: 0 <= k < |entries| ==> entries[k].value >= 1
    ensures SumValues(entries) == |members|
  {
    entries := [];
    var i := 0;
    while i < |members|
      invariant 0 <= i <= |members|
      invariant TallyOf(entries, members[..i])
    {
      TallyPrefix(entries, members, i);
      entries := Tally(entries, members[i].role);
      i := i + 1;
    }
    assert members[..i] == members;
  }

  lemma TallyPrefix(entries: seq<RoleEntry>, ms: seq<TeamMember>, i: nat)
    requires i < |ms| && TallyOf(entries, ms[..i])
    ensures TallyOf(Tally(entries, ms[i].role), ms[..i + 1])
  {
    assert ms[..i + 1] == ms[..i] + [ms[i]];
    TallyStep(entries, ms[..i], ms[i]);
  }

  lemma TallyStep(entries: seq<RoleEntry>, ms: seq<TeamMember>, m: TeamMember)
    requires TallyOf(entries, ms)
    ensures TallyOf(Tally(entries, m.role), ms + [m])
  {
    RolesSnoc(ms, m);
    DistinctSnoc(Roles(ms), m.role);
    if m.role in EntryNames(entries) {
      TallyExisting(entries, ms, m);
    } else {
      TallyNew(entries, ms, m);
    }
  }

  lemma {:induction false} TallyExisting(entries: seq<RoleEntry>, ms: seq<TeamMember>, m: TeamMember)
    requires TallyOf(entries, ms) && m.role in EntryNames(entries)
    ensures EntryNames(Tally(entries, m.role)) == EntryNames(entries)
    ensures var e := Tally(entries, m.role);
      && (forall k :: 0 <= k < |e| ==> e[k].value == RoleCount(ms + [m], e[k].name))
      && (forall k :: 0 <= k < |e| ==> e[k].value >= 1)
      && SumValues(e) == |ms| + 1
  {
    var role := m.role;
    var names := EntryNames(entries);
    var k := IndexOf(names, role);
    var e := Tally(entries, role);
    assert e == entries[k := RoleEntry(role, entries[k].value + 1)];
    SumValuesUpdate(entries, k, entries[k].value + 1);
    EntryNamesUpdate(entries, k, RoleEntry(role, entries[k].value + 1));
    forall j | 0 <= j < |e|
      ensures e[j].value == RoleCount(ms + [m], e[j].name)
    {
      RoleCountSnoc(ms, m, e[j].name);
      if j != k {
        assert names[j] == entries[j].name;
        DistinctPositions(names, j, k);
      }
    }
  }

  lemma {:induction false} TallyNew(entries: seq<RoleEntry>, ms: seq<TeamMember>, m: TeamMember)
    requires TallyOf(entries, ms) && m.role !in EntryNames(entries)
    ensures EntryNames(Tally(entries, m.role)) == EntryNames(entries) + [m.role]
    ensures var e := Tally(entries, m.role);
      && (forall k :: 0 <= k < |e| ==> e[k].value == RoleCount(ms + [m], e[k].name))
      && (forall k :: 0 <= k < |e| ==> e[k].value >= 1)
      && SumValues(e) == |ms| + 1
  {
    var role := m.role;
    var e := Tally(entries, role);
    assert e == entries + [RoleEntry(role, 1)];
    assert e[..|e| - 1] == entries;
    EntryNamesSnoc(entries, RoleEntry(role, 1));
    RoleCountAbsent(ms, role);
    forall j | 0 <= j < |e|
      ensures e[j].value == RoleCount(ms + [m], e[j].name)
    {
      RoleCountSnoc(ms, m, e[j].name);
      if j < |entries| {
        assert EntryNames(entries)[j] == entries[j].name;
      }
    }
  }

  lemma RolesSnoc(ms: seq<TeamMember>, m: TeamMember)
    ensures Roles(ms + [m]) == Roles(ms) + [m.role]
  {
  }

  lemma RoleCountSnoc(ms: seq<TeamMember>, m: TeamMember, role: string)
    ensures RoleCount(ms + [m], role) == RoleCount(ms, role) + if m.role == role then 1 else 0
  {
    assert (ms + [m])[..|ms|] == ms;
  }

  /** A role nobody has is counted zero times. */
  lemma {:induction false} RoleCountAbsent(ms: seq<TeamMember>, role: string)
    requires role !in Roles(ms)
    ensures RoleCount(ms, role) == 0
    decreases |ms|
  {
    if ms != [] {
      var init := ms[..|ms| - 1];
      assert Roles(ms)[|ms| - 1] == ms[|ms| - 1].role;
      assert forall x :: x in Roles(init) ==> x in Roles(ms) by {
        forall x | x in Roles(init)
          ensures x in Roles(ms)
        {
          var j :| 0 <= j < |init| && Roles(init)[j] == x;
          assert Roles(ms)[j] == x;
        }
      }
      RoleCountAbsent(init, role);
    }
  }

  lemma EntryNamesUpdate(entries: seq<RoleEntry>, k: nat, x: RoleEntry)
    requires k < |entries| && x.name == entries[k].name
    ensures EntryNames(entries[k := x]) == EntryNames(entries)
  {
  }

  lemma EntryNamesSnoc(entries: seq<RoleEntry>, x: RoleEntry)
    ensures EntryNames(entries + [x]) == EntryNames(entries) + [x.name]
  {
  }

  lemma {:induction false} SumValuesUpdate(entries: seq<RoleEntry>, k: nat, v: nat)
    requires k < |entries|
    ensures SumValues(entries[k := entries[k].(value := v)]) == SumValues(entries) - entries[k].value + v
    decreases |entries|
  {
    var e := entries[k := entries[k].(value := v)];
    if k < |entries| - 1 {
      assert e[..|e| - 1] == entries[..|entries| - 1][k := entries[k].(value := v)];
      SumValuesUpdate(entries[..|entries| - 1], k, v);
    } else {
      assert e[..|e| - 1] == entries[..|entries| - 1];
    }
  }

  // ---------------------------------------------------------------------------
  // Project assignments
  // ---------------------------------------------------------------------------

  /** Reading property `key` of a project object by a numeric key: a project has only named
      fields, so there is never such a property. */
  function ProjectIndexProperty(p: Project, key: int): Option<int> {
    None
  }

  /** The number the assignments card shows for a member: the projects whose property `3`
      equals the member's id. */
  function AssignedProjectCount(projects: seq<Project>, member: TeamMember): nat {
    Count(projects, (p: Project) => ProjectIndexProperty(p, 3) == Some(member.id))
  }

  /** Projects carry no member field at all and are indexed like arrays, so every member
      is shown with zero assigned projects. */
  lemma AssignedProjectCountIsZero(projects: seq<Project>, member: TeamMember)
    ensures AssignedProjectCount(projects, member) == 0
  {
  }

  // ---------------------------------------------------------------------------
  // The page
  // ---------------------------------------------------------------------------

  class TeamPage {
    const store: AppStore
    var newMember: MemberDraft

    constructor (store: AppStore)
      ensures this.store == store && newMember == EmptyMemberDraft
    {
      this.store := store;
      newMember := EmptyMemberDraft;
    }

    method EditDraft(d: MemberDraft)
      modifies this
      ensures newMember == d
    {
      newMember := d;
    }

    /** `addMember`: with a complete form the member is appended and the form cleared;
        otherwise nothing happens. */
    method AddMember()
      modifies this, store
      ensures store.State() == old(store.State()).(teamMembers := WithMemberAdded(old(store.teamMembers), old(newMember)))
      ensures newMember == if DraftComplete(old(newMember)) then EmptyMemberDraft else old(newMember)
    {
      if newMember.name != "" && newMember.email != "" && newMember.role != "" {
        var members := store.teamMembers;
        store.SetTeamMembers(Value(members + [TeamMember(|members| + 1, newMember.name, newMember.email,
                                                         newMember.role, None, None, None)]));
        newMember := EmptyMemberDraft;
      }
    }

    /** `removeMember`: the members are filtered in every case; the name shown in the
        confirmation is that of the member found beforehand, and reading it fails when no
        member had the id (after the filter has already been issued). */
    method RemoveMember(id: int) returns (removedName: Result<string>)
      modifies store
      ensures store.State() == old(store.State()).(teamMembers := WithoutMember(old(store.teamMembers), id))
      ensures removedName.Ok? <==> exists m :: m in old(store.teamMembers) && m.id == id
      ensures removedName.Ok? ==> removedName.value == FindMember(old(store.teamMembers), id).value.name
    {
      var memberToRemove := FindMember(store.teamMembers, id);
      store.SetTeamMembers(Value(Filter(store.teamMembers, (m: TeamMember) => m.id != id)));
      if memberToRemove.Some? {
        removedName := Ok(memberToRemove.value.name);
      } else {
        removedName := Err("Cannot read properties of undefined (reading 'name')");
      }
    }
  }
}
