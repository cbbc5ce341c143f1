/**
 * The home page (src/pages/Home.tsx): an ever-growing gallery. A load request
 * sets the busy flag and schedules a delayed append of ten generated items
 * renumbered by the list length seen when the request was made. The delay is
 * modelled as two steps, the request and its completion.
 */
module HomePage {
  import opened Types
  import opened ProjectData
  import opened Gallery

  class Home {
    var projects: seq<Project>
    var loading: bool
    /** The `projects.length` the scheduled append closes over. */
    var pendingOffset: nat

    /** Ids are always 1..n, and a pending append will renumber after the current list. */
    ghost predicate Valid()
      reads this
    {
      ContiguousIds(projects) && (loading ==> pendingOffset == |projects|)
    }

    /** The page starts with `initialProjects` and not loading. */
    constructor(initialDraws: seq<Draw>)
      requires |initialDraws| == InitialCount && ValidDraws(initialDraws)
      ensures Valid()
      ensures projects == InitialProjects(initialDraws) && !loading
    {
      projects := InitialProjects(initialDraws);
      loading := false;
      pendingOffset := 0;
    }

    /** `loadMoreProjects`: ignored while busy; otherwise marks busy and schedules the append. */
    method LoadMoreProjects()
      requires Valid()
      modifies this
      ensures Valid()
      ensures projects == old(projects)
      ensures old(loading) ==> pendingOffset == old(pendingOffset)
      ensures !old(loading) ==> pendingOffset == |projects|
      ensures loading
    {
      if loading {
        return;
      }
      loading := true;
      pendingOffset := |projects|;
    }

    /**
     * The scheduled append fires: ten generated items renumbered by the captured
     * length follow the old list, ids run 1..n+10, and the page is idle again.
     */
    method FinishLoad(draws: seq<Draw>)
      requires Valid() && loading
      requires |draws| == BatchSize && ValidDraws(draws)
      modifies this
      ensures Valid() && !loading
      ensures projects == old(projects) + ShiftIds(GenerateProjects(BatchSize, draws), old(pendingOffset))
      ensures |projects| == |old(projects)| + BatchSize && projects[..|old(projects)|] == old(projects)
      ensures DistinctIds(projects)
    {
      var newProjects := ShiftIds(GenerateProjects(BatchSize, draws), pendingOffset);
      AppendKeepsContiguous(projects, GenerateProjects(BatchSize, draws));
      projects := projects + newProjects;
      loading := false;
    }

    /** The grid's sentinel observer calls `onLoadMore` only when the entry intersects. */
    method OnSentinel(isIntersecting: bool)
      requires Valid()
      modifies this
      ensures Valid()
      ensures projects == old(projects)
      ensures !isIntersecting ==> loading == old(loading) && pendingOffset == old(pendingOffset)
      ensures isIntersecting ==> loading
    {
      if isIntersecting {
        LoadMoreProjects();
      }
    }
  }
}
