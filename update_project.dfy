/** The project-update mutation's write-back into the React Query cache. */
module UpdateProject {
  import opened Wrappers

  /** The parts of a project the cache update looks at. */
  datatype Project = Project(id: string, name: string)

  /** `oldData.map(project => project.id === projectId ? updatedProject : project)`. */
  function ReplaceById(projects: seq<Project>, projectId: string, updated: Project): (r: seq<Project>)
    ensures |r| == |projects|
    ensures forall i :: 0 <= i < |r| ==> r[i] == if projects[i].id == projectId then updated else projects[i]
  {
    if projects == [] then []
    else [if projects[0].id == projectId then updated else projects[0]] + ReplaceById(projects[1..], projectId, updated)
  }

  /** The `projects` list entry: an absent list becomes `[updatedProject]`. */
  function UpdatedList(list: Option<seq<Project>>, projectId: string, updated: Project): (r: Option<seq<Project>>)
    ensures r.Some?
    ensures list.None? ==> r.value == [updated]
    ensures list.Some? ==> |r.value| == |list.value|
    ensures list.Some? ==> forall i :: 0 <= i < |r.value| ==>
      r.value[i] == if list.value[i].id == projectId then updated else list.value[i]
  {
    if list.None? then Some([updated]) else Some(ReplaceById(list.value, projectId, updated))
  }

  /** The two cache entries: `['project', id]` by id, and `['projects']`. */
  class QueryCache {
    var project: map<string, Project>
    var projects: Option<seq<Project>>

    constructor ()
      ensures project == map[] && projects == None
    {
      project := map[];
      projects := None;
    }

    /** `onSuccess(updatedProject, { projectId })`. */
    method OnSuccess(updated: Project, projectId: string)
      modifies this
      ensures project == old(project)[projectId := updated]
      ensures projects == UpdatedList(old(projects), projectId, updated)
    {
      project := project[projectId := updated];
      if projects.None? {
        projects := Some([updated]);
      } else {
        projects := Some(ReplaceById(projects.value, projectId, updated));
      }
    }
  }

  // ---------------------------------------------------------------- properties

  predicate UniqueIds(projects: seq<Project>)
  {
    forall i, j :: 0 <= i < j < |projects| ==> projects[i].id != projects[j].id
  }

  /** A list with no entry for the project is left exactly as it was. */
  lemma {:induction false} AbsentUnchanged(projects: seq<Project>, projectId: string, updated: Project)
    requires forall i :: 0 <= i < |projects| ==> projects[i].id != projectId
    ensures ReplaceById(projects, projectId, updated) == projects
  {
    if projects != [] {
      AbsentUnchanged(projects[1..], projectId, updated);
    }
  }

  /** When the server echoes the id, ids stay unique and the list then holds the updated project. */
  lemma EchoedIdKeepsUnique(projects: seq<Project>, projectId: string, updated: Project)
    requires UniqueIds(projects) && updated.id == projectId
    ensures UniqueIds(ReplaceById(projects, projectId, updated))
    ensures (exists i :: 0 <= i < |projects| && projects[i].id == projectId) ==> updated in ReplaceById(projects, projectId, updated)
  {
    var r := ReplaceById(projects, projectId, updated);
    assert forall i :: 0 <= i < |r| ==> r[i].id == projects[i].id;
    if exists i :: 0 <= i < |projects| && projects[i].id == projectId {
      var i :| 0 <= i < |projects| && projects[i].id == projectId;
      assert r[i] == updated;
    }
  }
}
