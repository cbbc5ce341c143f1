/**
 * The admin project list (src/pages/admin/ProjectManager.tsx): the list
 * fetched on mount, the confirm-then-delete handler that drops the deleted
 * project from the list, and the table's rows.
 */
module ProjectManagerPage {
  import opened Types
  import opened Gallery

  /** `ps.filter(p => p.id !== id)`: every item without that id, in order. */
  function RemoveId(ps: seq<Project>, id: int): (r: seq<Project>)
    ensures forall p :: p in r ==> p in ps && p.id != id
    ensures forall p :: p in ps && p.id != id ==> p in r
    ensures IsSubsequence(r, ps)
    ensures |r| <= |ps|
    decreases |ps|
  {
    if |ps| == 0 then []
    else
      var rest := RemoveId(ps[1..], id);
      assert forall p :: p in ps[1..] ==> p in ps;
      assert forall p :: p in ps ==> p == ps[0] || p in ps[1..];
      if ps[0].id != id then [ps[0]] + rest else rest
  }

  /** The filter keeps every item without the id as often as the list has it, and no other. */
  lemma {:induction false} RemoveIdCounts(ps: seq<Project>, id: int)
    ensures forall p :: multiset(RemoveId(ps, id))[p] == (if p.id != id then multiset(ps)[p] else 0)
    decreases |ps|
  {
    if |ps| > 0 {
      RemoveIdCounts(ps[1..], id);
      assert ps == [ps[0]] + ps[1..];
    }
  }

  /** Removing an id no item carries leaves the list as it is. */
  lemma {:induction false} RemoveAbsentId(ps: seq<Project>, id: int)
    requires forall p :: p in ps ==> p.id != id
    ensures RemoveId(ps, id) == ps
    decreases |ps|
  {
    if |ps| > 0 {
      assert forall p :: p in ps[1..] ==> p in ps;
      RemoveAbsentId(ps[1..], id);
      assert ps == [ps[0]] + ps[1..];
    }
  }

  /** Deleting the same id twice is deleting it once. */
  lemma RemoveIdIdempotent(ps: seq<Project>, id: int)
    ensures RemoveId(RemoveId(ps, id), id) == RemoveId(ps, id)
  {
    RemoveAbsentId(RemoveId(ps, id), id);
  }

  /** On a list with distinct ids, removing a present id removes exactly one item. */
  lemma {:induction false} RemovePresentId(ps: seq<Project>, id: int)
    requires DistinctIds(ps)
    requires exists p :: p in ps && p.id == id
    ensures |RemoveId(ps, id)| == |ps| - 1
    ensures DistinctIds(RemoveId(ps, id))
    decreases |ps|
  {
    assert DistinctIds(ps[1..]);
    if ps[0].id == id {
      assert forall p :: p in ps[1..] ==> p.id != id by {
        forall p | p in ps[1..] ensures p.id != id {
          var k :| 0 <= k < |ps[1..]| && ps[1..][k] == p;
          assert p == ps[k + 1];
        }
      }
      RemoveAbsentId(ps[1..], id);
    } else {
      var p :| p in ps && p.id == id;
      assert p in ps[1..];
      RemovePresentId(ps[1..], id);
    }
    SubsequenceKeepsDistinct(RemoveId(ps, id), ps);
  }

  /** A row of the table body. */
  datatype Row = NoProjectsRow | ProjectRow(project: Project)

  /** The table body: the "No projects found" row alone for an empty list, one row per project otherwise. */
  function TableRows(ps: seq<Project>): (rows: seq<Row>)
    ensures |ps| == 0 ==> rows == [NoProjectsRow]
    ensures |ps| > 0 ==> |rows| == |ps| && forall i :: 0 <= i < |ps| ==> rows[i] == ProjectRow(ps[i])
    ensures NoProjectsRow in rows <==> |ps| == 0
  {
    if |ps| == 0 then [NoProjectsRow]
    else seq(|ps|, i requires 0 <= i < |ps| => ProjectRow(ps[i]))
  }

  class ProjectManager {
    var projects: seq<Project>

    constructor()
      ensures projects == []
    {
      projects := [];
    }

    /** The fetch effect: the list becomes what `getProjects` returned ([] when it failed). */
    method Mount(data: seq<Project>)
      modifies this
      ensures projects == data
    {
      projects := data;
    }

    /**
     * `handleDelete`, given the confirm answer and how the delete settles: a
     * delete is requested only when confirmed, and the list loses that id only
     * when the delete succeeded.
     */
    method HandleDelete(id: int, confirmed: bool, deleteSucceeds: bool) returns (deleteRequested: bool)
      modifies this
      ensures deleteRequested <==> confirmed
      ensures confirmed && deleteSucceeds ==> projects == RemoveId(old(projects), id)
      ensures !(confirmed && deleteSucceeds) ==> projects == old(projects)
      ensures forall p :: p in projects ==> p in old(projects)
    {
      deleteRequested := false;
      if confirmed {
        deleteRequested := true;
        if deleteSucceeds {
          projects := RemoveId(projects, id);
        }
      }
    }
  }
}
