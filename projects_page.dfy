/** The projects page: adding and deleting projects, editing a project's progress and
    description in place, and the page's own pinned notes. */
module ProjectsPage {
  import opened Util
  import opened Store

  /** The "new project" form. The date inputs hold either nothing or a day. */
  datatype ProjectDraft = ProjectDraft(name: string, start: Date, end: Date, description: string, progress: int)

  const EmptyProjectDraft: ProjectDraft := ProjectDraft("", NoDate, NoDate, "", 0)

  /** Name, start and end must all be filled in; description and progress may be left as
      they are. */
  predicate DraftComplete(d: ProjectDraft) {
    d.name != "" && d.start != NoDate && d.end != NoDate
  }

  /** New project ids are the prefix and the creation instant in milliseconds. */
  const ProjectIdPrefix: string := "proj-"

  /** The projects after submitting the form: unchanged unless the form is complete;
      otherwise a project built from the form, with no milestones, appended. */
  function WithProjectAdded(projects: seq<Project>, d: ProjectDraft, now: nat): (r: seq<Project>)
    ensures !DraftComplete(d) ==> r == projects
    ensures DraftComplete(d) ==>
      && |r| == |projects| + 1 && r[..|projects|] == projects
      && r[|projects|] == Project(StampedId(ProjectIdPrefix, now), d.name, d.start, d.end, d.description, d.progress, [])
  {
    if DraftComplete(d) then
      var p := Project(StampedId(ProjectIdPrefix, now), d.name, d.start, d.end, d.description, d.progress, []);
      assert (projects + [p])[..|projects|] == projects;
      projects + [p]
    else projects
  }

  /** The form does not compare the two dates: a project may be added that ends before it
      starts (which none of the fixtures does). */
  lemma AddedProjectMayEndBeforeStart(now: nat)
    ensures var d := ProjectDraft("P", Day(20240201), Day(20240101), "", 0);
      var p := WithProjectAdded([], d, now)[0];
      p.start.key > p.end.key
  {
  }

  function WithoutProject(projects: seq<Project>, id: string): (r: seq<Project>)
    ensures forall p :: p in r <==> p in projects && p.id != id
    ensures forall p :: multiset(r)[p] == if p.id != id then multiset(projects)[p] else 0
    ensures IsSubseq(r, projects)
  {
    Filter(projects, (p: Project) => p.id != id)
  }

  /** The projects after `projects.map(p => p.id === id ? edit(p) : p)`: the projects
      with that id are edited, the others stay as they were, all in their places. */
  function EditWhere(projects: seq<Project>, id: string, edit: Project -> Project): (r: seq<Project>)
    ensures |r| == |projects|
    ensures forall i :: 0 <= i < |r| && projects[i].id != id ==> r[i] == projects[i]
    ensures forall i :: 0 <= i < |r| && projects[i].id == id ==> r[i] == edit(projects[i])
  {
    seq(|projects|, i requires 0 <= i < |projects| =>
      if projects[i].id == id then edit(projects[i]) else projects[i])
  }

  /** The projects after the progress input of project `id` changes: only that project's
      progress changes, and it takes the entered number as is (the input's 0..100 range is
      a hint to the browser, not a check). */
  function WithProgress(projects: seq<Project>, id: string, progress: int): (r: seq<Project>)
    ensures |r| == |projects| && ProjectIds(r) == ProjectIds(projects)
    ensures forall i :: 0 <= i < |r| && projects[i].id != id ==> r[i] == projects[i]
    ensures forall i :: 0 <= i < |r| && projects[i].id == id ==> r[i] == projects[i].(progress := progress)
  {
    EditWhere(projects, id, (p: Project) => p.(progress := progress))
  }

  /** The projects after the description editor of project `id` changes: only that
      project's description changes. */
  function WithDescription(projects: seq<Project>, id: string, description: string): (r: seq<Project>)
    ensures |r| == |projects| && ProjectIds(r) == ProjectIds(projects)
    ensures forall i :: 0 <= i < |r| && projects[i].id != id ==> r[i] == projects[i]
    ensures forall i :: 0 <= i < |r| && projects[i].id == id ==> r[i] == projects[i].(description := description)
  {
    EditWhere(projects, id, (p: Project) => p.(description := description))
  }

  /** The last progress entered wins, and editing progress and description are independent
      of each other's order. */
  lemma {:induction false} EditsCommute(projects: seq<Project>, id: string, a: int, b: int, text: string)
    ensures WithProgress(WithProgress(projects, id, a), id, b) == WithProgress(projects, id, b)
    ensures WithDescription(WithProgress(projects, id, a), id, text)
         == WithProgress(WithDescription(projects, id, text), id, a)
  {
    var p1 := WithProgress(projects, id, a);
    var d1 := WithDescription(projects, id, text);
    forall i | 0 <= i < |projects|
      ensures p1[i].id == projects[i].id && d1[i].id == projects[i].id
    {
      assert ProjectIds(p1)[i] == ProjectIds(projects)[i];
      assert ProjectIds(d1)[i] == ProjectIds(projects)[i];
    }
  }

  class ProjectsPage {
    const store: AppStore
    var newProject: ProjectDraft
    var pinnedNotes: seq<string>
    var newNote: string

    constructor (store: AppStore)
      ensures this.store == store && newProject == EmptyProjectDraft && pinnedNotes == [] && newNote == ""
    {
      this.store := store;
      newProject := EmptyProjectDraft;
      pinnedNotes := [];
      newNote := "";
    }

    method EditDraft(d: ProjectDraft)
      modifies this
      ensures newProject == d && pinnedNotes == old(pinnedNotes) && newNote == old(newNote)
    {
      newProject := d;
    }

    method EditNote(note: string)
      modifies this
      ensures newNote == note && pinnedNotes == old(pinnedNotes) && newProject == old(newProject)
    {
      newNote := note;
    }

    /** `addProject`. */
    method AddProject(now: nat)
      modifies this, store
      ensures store.State() == old(store.State()).(projects := WithProjectAdded(old(store.projects), old(newProject), now))
      ensures newProject == if DraftComplete(old(newProject)) then EmptyProjectDraft else old(newProject)
      ensures pinnedNotes == old(pinnedNotes) && newNote == old(newNote)
    {
      if newProject.name != "" && newProject.start != NoDate && newProject.end != NoDate {
        var p := Project(StampedId(ProjectIdPrefix, now), newProject.name, newProject.start, newProject.end,
                         newProject.description, newProject.progress, []);
        store.SetProjects(Value(store.projects + [p]));
        newProject := EmptyProjectDraft;
      }
    }

    /** `deleteProject`. */
    method DeleteProject(id: string)
      modifies store
      ensures store.State() == old(store.State()).(projects := WithoutProject(old(store.projects), id))
    {
      store.SetProjects(Value(Filter(store.projects, (p: Project) => p.id != id)));
    }

    /** `updateProjectProgress`. */
    method UpdateProjectProgress(id: string, progress: int)
      modifies store
      ensures store.State() == old(store.State()).(projects := WithProgress(old(store.projects), id, progress))
    {
      store.SetProjects(Value(WithProgress(store.projects, id, progress)));
    }

    /** `updateProjectDescription`. */
    method UpdateProjectDescription(id: string, description: string)
      modifies store
      ensures store.State() == old(store.State()).(projects := WithDescription(old(store.projects), id, description))
    {
      store.SetProjects(Value(WithDescription(store.projects, id, description)));
    }

    /** `addPinnedNote`: a non-blank note is pinned and the input cleared. */
    method AddPinnedNote()
      modifies this
      ensures pinnedNotes == AppendUnlessBlank(old(pinnedNotes), old(newNote))
      ensures newNote == if IsBlank(old(newNote)) then old(newNote) else ""
      ensures newProject == old(newProject)
    {
      TrimEmptyIffBlank(newNote);
      if Trim(newNote) != "" {
        pinnedNotes := pinnedNotes + [newNote];
        newNote := "";
      }
    }
  }
}
