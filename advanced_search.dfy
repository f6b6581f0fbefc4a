/** The advanced search widget: a text term, a set of selected tags, and saved searches
    that restore both. */
module AdvancedSearch {
  import opened Util
  import opened Store

  /** A task's tags, a missing list counting as none. */
  function TagsOf(t: Task): seq<string> {
    if t.tags.Some? then t.tags.value else []
  }

  /** `tasks.flatMap(task => task.tags || [])`. */
  function AllTagOccurrences(tasks: seq<Task>): (r: seq<string>)
    ensures forall x :: x in r <==> exists i :: 0 <= i < |tasks| && x in TagsOf(tasks[i])
    decreases |tasks|
  {
    if tasks == [] then []
    else
      var init := tasks[..|tasks| - 1];
      var r0 := AllTagOccurrences(init);
      assert forall i :: 0 <= i < |init| ==> init[i] == tasks[i];
      r0 + TagsOf(tasks[|tasks| - 1])
  }

  /** `allTags`: every tag carried by some task, each listed once. */
  function AllTags(tasks: seq<Task>): (r: seq<string>)
    ensures forall x :: x in r <==> exists i :: 0 <= i < |tasks| && x in TagsOf(tasks[i])
    ensures NoDup(r)
  {
    Distinct(AllTagOccurrences(tasks))
  }

  /** A task carries a tag only when its tag list exists and includes it. */
  predicate HasTag(t: Task, tag: string) {
    t.tags.Some? && tag in t.tags.value
  }

  /** The search keeps a task when its title or description contains the term (ignoring
      case) and it carries every selected tag. */
  predicate Matches(t: Task, term: string, tags: seq<string>) {
    (ContainsIgnoreCase(t.title, term) || ContainsIgnoreCase(t.description, term))
    && (|tags| == 0 || forall tag :: tag in tags ==> HasTag(t, tag))
  }

  /** `filteredTasks`. */
  function FilteredTasks(tasks: seq<Task>, term: string, tags: seq<string>): (r: seq<Task>)
    ensures forall t :: t in r <==> t in tasks && Matches(t, term, tags)
    ensures forall t :: multiset(r)[t] == if Matches(t, term, tags) then multiset(tasks)[t] else 0
    ensures IsSubseq(r, tasks)
  {
    Filter(tasks, (t: Task) => Matches(t, term, tags))
  }

  /** With an empty term and no selected tags every task is kept, in order. */
  lemma EmptySearchKeepsAll(tasks: seq<Task>)
    ensures FilteredTasks(tasks, "", []) == tasks
  {
    forall i | 0 <= i < |tasks|
      ensures Matches(tasks[i], "", [])
    {
      ContainsEmpty(Lower(tasks[i].title));
    }
    FilterKeepsAll(tasks, (t: Task) => Matches(t, "", []));
  }

  /** Selecting more tags never adds a result: with a larger selection the result is the
      smaller selection's result filtered further, hence a subsequence of it. */
  lemma MoreTagsNarrow(tasks: seq<Task>, term: string, tags: seq<string>, more: seq<string>)
    requires forall tag :: tag in tags ==> tag in more
    ensures IsSubseq(FilteredTasks(tasks, term, more), FilteredTasks(tasks, term, tags))
    ensures FilteredTasks(tasks, term, more) == Filter(FilteredTasks(tasks, term, tags), (t: Task) => Matches(t, term, more))
  {
    FilterStronger(tasks, (t: Task) => Matches(t, term, tags), (t: Task) => Matches(t, term, more));
  }

  /** Ticking a tag box adds the tag to the selection, which keeps only results carrying it. */
  lemma SelectingTagRequiresIt(tasks: seq<Task>, term: string, tags: seq<string>, tag: string)
    requires tag !in tags
    ensures forall t :: t in FilteredTasks(tasks, term, Toggle(tags, tag)) ==> HasTag(t, tag)
    ensures IsSubseq(FilteredTasks(tasks, term, Toggle(tags, tag)), FilteredTasks(tasks, term, tags))
  {
    MoreTagsNarrow(tasks, term, tags, Toggle(tags, tag));
  }

  /** A saved search: its name and the term and tags it restores. */
  datatype SavedSearch = SavedSearch(name: string, term: string, tags: seq<string>)

  class AdvancedSearch {
    var searchTerm: string
    var selectedTags: seq<string>
    var savedSearches: seq<SavedSearch>

    /** Neither the selection nor any saved search lists a tag twice. */
    ghost predicate Valid()
      reads this
    {
      NoDup(selectedTags) && forall k :: 0 <= k < |savedSearches| ==> NoDup(savedSearches[k].tags)
    }

    constructor ()
      ensures Valid() && searchTerm == "" && selectedTags == [] && savedSearches == []
    {
      searchTerm := "";
      selectedTags := [];
      savedSearches := [];
    }

    method SetSearchTerm(term: string)
      requires Valid()
      modifies this
      ensures Valid()
      ensures searchTerm == term && selectedTags == old(selectedTags) && savedSearches == old(savedSearches)
    {
      searchTerm := term;
    }

    /** `handleTagToggle`: the tag leaves the selection when it was in it and joins it at the
        end otherwise; ticking the same box twice restores the selection. As no tag is listed
        twice, each toggle changes the number of selected tags by exactly one. */
    method HandleTagToggle(tag: string)
      requires Valid()
      modifies this
      ensures Valid()
      ensures selectedTags == Toggle(old(selectedTags), tag)
      ensures tag in selectedTags <==> tag !in old(selectedTags)
      ensures |selectedTags| == if tag in old(selectedTags) then |old(selectedTags)| - 1 else |old(selectedTags)| + 1
      ensures searchTerm == old(searchTerm) && savedSearches == old(savedSearches)
    {
      if tag in selectedTags {
        var before := selectedTags;
        selectedTags := Without(selectedTags, tag);
        assert multiset(before) == multiset(selectedTags) + multiset{tag};
        assert |before| == |multiset(before)| && |selectedTags| == |multiset(selectedTags)|;
      } else {
        selectedTags := selectedTags + [tag];
      }
    }

    /** `handleSaveSearch`, with the answer to the name prompt as a parameter (`None` when
        the prompt is cancelled): an empty or missing name saves nothing. */
    method HandleSaveSearch(answer: Option<string>)
      requires Valid()
      modifies this
      ensures Valid()
      ensures answer.None? || answer.value == "" ==> savedSearches == old(savedSearches)
      ensures answer.Some? && answer.value != "" ==>
        savedSearches == old(savedSearches) + [SavedSearch(answer.value, searchTerm, selectedTags)]
      ensures searchTerm == old(searchTerm) && selectedTags == old(selectedTags)
    {
      if answer.Some? && answer.value != "" {
        savedSearches := savedSearches + [SavedSearch(answer.value, searchTerm, selectedTags)];
      }
    }

    /** `handleApplySavedSearch`, offered for the saved searches only: the term and the tags
        become exactly the saved ones. */
    method HandleApplySavedSearch(search: SavedSearch)
      requires Valid() && search in savedSearches
      modifies this
      ensures Valid()
      ensures searchTerm == search.term && selectedTags == search.tags
      ensures savedSearches == old(savedSearches)
    {
      searchTerm := search.term;
      selectedTags := search.tags;
    }

    /** The tasks the widget lists for its current term and selection. */
    function Results(tasks: seq<Task>): (r: seq<Task>)
      reads this
      ensures forall t :: t in r <==> t in tasks && Matches(t, searchTerm, selectedTags)
    {
      FilteredTasks(tasks, searchTerm, selectedTags)
    }
  }

  /** Saving a search and applying it later restores the term and the tags it was saved
      with, whatever was typed or ticked in between. */
  method SaveThenApply(w: AdvancedSearch, name: string, laterTerm: string, laterTag: string)
    requires w.Valid()
    requires name != ""
    modifies w
    ensures w.searchTerm == old(w.searchTerm) && w.selectedTags == old(w.selectedTags)
  {
    w.HandleSaveSearch(Some(name));
    var saved := w.savedSearches[|w.savedSearches| - 1];
    w.SetSearchTerm(laterTerm);
    w.HandleTagToggle(laterTag);
    w.HandleApplySavedSearch(saved);
  }
}
