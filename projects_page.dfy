/**
 * The project gallery page (src/pages/Projects.tsx): the demo list with a
 * category filter and loading more items while "All" is shown.
 *
 * The page renumbers each appended batch by the list length captured when the
 * load was requested, but the list the batch is appended to is the one current
 * when the delay ends. A category change during the delay replaces the list in
 * between, and a later load can then reuse ids already shown:
 * `FinishLoadAsWritten` and `DuplicateIdsAsWritten` model and exhibit that.
 * `FinishLoad` renumbers after the largest id of the current list instead, and
 * every step of the page keeps ids distinct.
 */
module ProjectsPage {
  import opened Types
  import opened ProjectData
  import opened Gallery

  /** The filter buttons: "All" followed by the five categories. */
  const FilterOptions: seq<string> := [AllCategories] + Categories

  /** What the list shows for a chosen category. */
  function CategoryView(initial: seq<Project>, category: string): (r: seq<Project>)
    ensures category == AllCategories ==> r == initial
    ensures category != AllCategories ==> forall p :: p in r <==> p in initial && p.category == category
    ensures category != AllCategories ==>
      forall p :: multiset(r)[p] == (if p.category == category then multiset(initial)[p] else 0)
    ensures category != AllCategories ==> IsSubsequence(r, initial)
  {
    if category == AllCategories then initial else FilterCategory(initial, category)
  }

  /** Any category view of a list with distinct ids has distinct ids. */
  lemma CategoryViewKeepsDistinct(initial: seq<Project>, category: string)
    requires DistinctIds(initial)
    ensures DistinctIds(CategoryView(initial, category))
  {
    if category != AllCategories {
      SubsequenceKeepsDistinct(FilterCategory(initial, category), initial);
    }
  }

  class Projects {
    /** The module's `initialProjects`, fixed for the page's lifetime. */
    const initial: seq<Project>
    var projects: seq<Project>
    var loading: bool
    var activeCategory: string
    /** The `projects.length` the scheduled append closes over. */
    var pendingOffset: nat

    /** The initial list is twenty items numbered 1..20. */
    ghost predicate Valid()
      reads this
    {
      |initial| == InitialCount && ContiguousIds(initial)
    }

    /** While a category is chosen, every shown item belongs to it. */
    ghost predicate ShowsActiveCategory()
      reads this
    {
      activeCategory != AllCategories ==> forall p :: p in projects ==> p.category == activeCategory
    }

    /** Before the mount effect the list is empty; the filter starts at "All". */
    constructor(initialDraws: seq<Draw>)
      requires |initialDraws| == InitialCount && ValidDraws(initialDraws)
      ensures Valid()
      ensures initial == InitialProjects(initialDraws)
      ensures projects == [] && !loading && activeCategory == AllCategories
    {
      initial := InitialProjects(initialDraws);
      projects := [];
      loading := false;
      activeCategory := AllCategories;
      pendingOffset := 0;
    }

    /** The mount effect shows `initialProjects`. */
    method Mount()
      requires Valid()
      modifies this
      ensures Valid()
      ensures projects == initial && DistinctIds(projects)
      ensures loading == old(loading) && activeCategory == old(activeCategory) && pendingOffset == old(pendingOffset)
    {
      projects := initial;
      ContiguousIdsAreDistinct(initial);
    }

    /**
     * `handleCategoryChange`: "All" restores `initialProjects`, any other value
     * shows the initial items of that category in order; appended items are dropped.
     */
    method HandleCategoryChange(category: string)
      requires Valid()
      modifies this
      ensures Valid()
      ensures activeCategory == category
      ensures projects == CategoryView(initial, category) && DistinctIds(projects)
      ensures ShowsActiveCategory()
      ensures loading == old(loading) && pendingOffset == old(pendingOffset)
    {
      activeCategory := category;
      if category == AllCategories {
        projects := initial;
      } else {
        projects := FilterCategory(initial, category);
      }
      ContiguousIdsAreDistinct(initial);
      CategoryViewKeepsDistinct(initial, category);
    }

    /** `loadMoreProjects`: ignored while busy or filtered; otherwise marks busy and schedules the append. */
    method LoadMoreProjects()
      requires Valid()
      modifies this
      ensures Valid()
      ensures projects == old(projects) && activeCategory == old(activeCategory)
      ensures old(loading) || old(activeCategory) != AllCategories ==>
        loading == old(loading) && pendingOffset == old(pendingOffset)
      ensures !old(loading) && old(activeCategory) == AllCategories ==>
        loading && pendingOffset == |projects|
    {
      if loading || activeCategory != AllCategories {
        return;
      }
      loading := true;
      pendingOffset := |projects|;
    }

    /** The grid's sentinel observer calls `onLoadMore` only when the entry intersects. */
    method OnSentinel(isIntersecting: bool)
      requires Valid()
      modifies this
      ensures Valid()
      ensures projects == old(projects) && activeCategory == old(activeCategory)
      ensures !isIntersecting ==> loading == old(loading) && pendingOffset == old(pendingOffset)
    {
      if isIntersecting {
        LoadMoreProjects();
      }
    }

    /**
     * The scheduled append as the page writes it: the batch is renumbered by the
     * captured length and appended to whatever list is current.
     */
    method FinishLoadAsWritten(draws: seq<Draw>)
      requires loading
      requires |draws| == BatchSize && ValidDraws(draws)
      requires Valid()
      modifies this
      ensures Valid()
      ensures !loading
      ensures projects == old(projects) + ShiftIds(GenerateProjects(BatchSize, draws), old(pendingOffset))
      ensures activeCategory == old(activeCategory) && pendingOffset == old(pendingOffset)
    {
      projects := projects + ShiftIds(GenerateProjects(BatchSize, draws), pendingOffset);
      loading := false;
    }

    /**
     * The scheduled append as the page intends it: while "All" is shown, ten
     * items follow the current list, numbered after its largest id, so no id
     * repeats; once a category is chosen the batch is not shown, as no load
     * starts under a category either.
     */
    method FinishLoad(draws: seq<Draw>)
      requires loading
      requires |draws| == BatchSize && ValidDraws(draws)
      requires Valid()
      modifies this
      ensures Valid()
      ensures DistinctIds(old(projects)) ==> DistinctIds(projects)
      ensures old(ShowsActiveCategory()) ==> ShowsActiveCategory()
      ensures !loading
      ensures activeCategory == AllCategories ==>
        projects == old(projects) + ShiftIds(GenerateProjects(BatchSize, draws), MaxId(old(projects)))
      ensures activeCategory == AllCategories ==>
        |projects| == |old(projects)| + BatchSize && projects[..|old(projects)|] == old(projects)
      ensures activeCategory != AllCategories ==> projects == old(projects)
      ensures activeCategory == old(activeCategory) && pendingOffset == old(pendingOffset)
    {
      if activeCategory == AllCategories {
        var batch := GenerateProjects(BatchSize, draws);
        if DistinctIds(projects) {
          AppendAfterMaxKeepsDistinct(projects, batch);
        }
        projects := projects + ShiftIds(batch, MaxId(projects));
      }
      loading := false;
    }
  }

  /**
   * With the append as the page writes it, a batch requested under "All"
   * lands in a filtered list: load, choose a category before the timer fires,
   * and the appended items show under it whatever their own category.
   */
  method CategoryLeakAsWritten(d0: seq<Draw>, d1: seq<Draw>, category: string) returns (page: Projects)
    requires |d0| == InitialCount && ValidDraws(d0)
    requires |d1| == BatchSize && ValidDraws(d1)
    requires category != AllCategories && Categories[d1[0].category] != category
    ensures page.activeCategory == category
    ensures |page.projects| == |CategoryView(page.initial, category)| + BatchSize
    ensures !page.ShowsActiveCategory()
  {
    page := new Projects(d0);
    page.Mount();
    page.LoadMoreProjects();
    page.HandleCategoryChange(category);
    var n := |page.projects|;
    page.FinishLoadAsWritten(d1);
    var batch := GenerateProjects(BatchSize, d1);
    assert page.projects[n] == ShiftIds(batch, 20)[0];
    assert batch[0].category == Categories[d1[0].category];
    assert page.projects[n] in page.projects;
  }

  /**
   * With the append as the page writes it, a category change during a load
   * followed by another load repeats ids, for every random outcome: after
   * one load the list has 30 items; a second load captures 30; "All" resets the
   * list to 20; the append gives ids 1..20 and 31..40; a third load captures 30
   * again and appends 31..40 a second time.
   */
  method DuplicateIdsAsWritten(d0: seq<Draw>, d1: seq<Draw>, d2: seq<Draw>, d3: seq<Draw>) returns (page: Projects)
    requires |d0| == InitialCount && ValidDraws(d0)
    requires |d1| == BatchSize && ValidDraws(d1)
    requires |d2| == BatchSize && ValidDraws(d2)
    requires |d3| == BatchSize && ValidDraws(d3)
    ensures |page.projects| == 40
    ensures page.projects[20].id == page.projects[30].id == 31
    ensures !DistinctIds(page.projects)
  {
    page := new Projects(d0);
    page.Mount();
    page.LoadMoreProjects();
    page.FinishLoadAsWritten(d1);
    assert |page.projects| == 30;
    page.LoadMoreProjects();
    assert page.pendingOffset == 30;
    page.HandleCategoryChange(AllCategories);
    page.FinishLoadAsWritten(d2);
    var b2 := GenerateProjects(BatchSize, d2);
    assert page.projects[20] == ShiftIds(b2, 30)[0];
    assert page.projects[20].id == 31;
    page.LoadMoreProjects();
    assert page.pendingOffset == 30;
    page.FinishLoadAsWritten(d3);
    var b3 := GenerateProjects(BatchSize, d3);
    assert page.projects[30] == ShiftIds(b3, 30)[0];
  }
}
