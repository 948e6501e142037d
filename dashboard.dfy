/** The dashboard's list of projects: rename, delete and clone by id, and navigation to a
    project's chat. */
module Dashboard {
  import opened JsValues

  datatype Project = Project(id: string, name: string)

  /** The three projects the dashboard starts with. */
  const InitialProjects: seq<Project> :=
    [Project("1", "Project A"), Project("2", "Project B"), Project("3", "Project C")]

  /** The route prefix a project card navigates to. */
  const ChatRoutePrefix := "/chat-interface?projectId="

  /** No two projects share an id. */
  predicate UniqueIds(ps: seq<Project>) {
    forall i, j :: 0 <= i < j < |ps| ==> ps[i].id != ps[j].id
  }

  /** The ids of the projects. */
  function Ids(ps: seq<Project>): (r: set<string>)
    ensures forall p :: p in ps ==> p.id in r
    ensures forall id :: id in r ==> exists p :: p in ps && p.id == id
  {
    set p | p in ps :: p.id
  }

  /** `projects.map(p => p.id === id ? { ...p, name: newName } : p)`. */
  function Renamed(ps: seq<Project>, id: string, newName: string): (r: seq<Project>)
    ensures |r| == |ps|
    ensures forall i :: 0 <= i < |ps| ==> r[i].id == ps[i].id
    ensures forall i :: 0 <= i < |ps| ==> r[i].name == if ps[i].id == id then newName else ps[i].name
  {
    seq(|ps|, i requires 0 <= i < |ps| => if ps[i].id == id then Project(ps[i].id, newName) else ps[i])
  }

  /** `projects.filter(p => p.id !== id)`: the projects whose id differs from `id`, in order. */
  function WithoutId(ps: seq<Project>, id: string): (r: seq<Project>)
    ensures |r| <= |ps|
    ensures forall p :: p in r <==> p in ps && p.id != id
  {
    if ps == [] then []
    else (if ps[0].id != id then [ps[0]] else []) + WithoutId(ps[1..], id)
  }

  /** `[...projects, { ...project, id: Date.now().toString(), name: project.name + " (Copy)" }]`,
      with the clock reading in milliseconds given as `now`. */
  function Cloned(ps: seq<Project>, p: Project, now: nat): (r: seq<Project>)
    ensures |r| == |ps| + 1 && r[..|ps|] == ps
    ensures r[|ps|] == Project(DecimalString(now), p.name + " (Copy)")
  {
    ps + [Project(DecimalString(now), p.name + " (Copy)")]
  }

  /** The route a click on the card of project `id` pushes; the id can be read back off its end. */
  function ProjectRoute(id: string): (r: string)
    ensures StartsWith(r, ChatRoutePrefix) && r[|ChatRoutePrefix|..] == id
  {
    ChatRoutePrefix + id
  }

  /** Filtering distributes over concatenation, so the kept projects keep their order. */
  lemma {:induction false} WithoutIdAppend(a: seq<Project>, b: seq<Project>, id: string)
    ensures WithoutId(a + b, id) == WithoutId(a, id) + WithoutId(b, id)
  {
    if a == [] {
      assert a + b == b;
    } else {
      assert (a + b)[1..] == a[1..] + b;
      WithoutIdAppend(a[1..], b, id);
    }
  }

  /** Deleting an id that no project has changes nothing. */
  lemma {:induction false} WithoutAbsentId(ps: seq<Project>, id: string)
    requires forall p :: p in ps ==> p.id != id
    ensures WithoutId(ps, id) == ps
  {
    if ps != [] {
      assert forall p :: p in ps[1..] ==> p in ps;
      WithoutAbsentId(ps[1..], id);
    }
  }

  /** Deleting twice is deleting once. */
  lemma DeleteIdempotent(ps: seq<Project>, id: string)
    ensures WithoutId(WithoutId(ps, id), id) == WithoutId(ps, id)
  {
    WithoutAbsentId(WithoutId(ps, id), id);
  }

  /** Renaming keeps ids, hence keeps them unique; renaming twice keeps the later name. */
  lemma RenamePreservesIds(ps: seq<Project>, id: string, n1: string, n2: string)
    ensures Ids(Renamed(ps, id, n1)) == Ids(ps)
    ensures UniqueIds(ps) ==> UniqueIds(Renamed(ps, id, n1))
    ensures Renamed(Renamed(ps, id, n1), id, n2) == Renamed(ps, id, n2)
  {
    var r := Renamed(ps, id, n1);
    forall x | x in Ids(r) ensures x in Ids(ps) {
      var p :| p in r && p.id == x;
      var i :| 0 <= i < |r| && r[i] == p;
      assert ps[i] in ps;
    }
    forall x | x in Ids(ps) ensures x in Ids(r) {
      var p :| p in ps && p.id == x;
      var i :| 0 <= i < |ps| && ps[i] == p;
      assert r[i] in r;
    }
  }

  /** Keeping only some projects, in order, keeps their ids unique. */
  lemma {:induction false} WithoutIdPreservesUnique(ps: seq<Project>, id: string)
    requires UniqueIds(ps)
    ensures UniqueIds(WithoutId(ps, id))
  {
    if ps != [] {
      var rest := ps[1..];
      assert UniqueIds(rest) by {
        forall i, j | 0 <= i < j < |rest| ensures rest[i].id != rest[j].id {
          assert rest[i] == ps[i + 1] && rest[j] == ps[j + 1];
        }
      }
      WithoutIdPreservesUnique(rest, id);
      var tail := WithoutId(rest, id);
      forall p | p in tail ensures p.id != ps[0].id {
        assert p in rest;
        var j :| 0 <= j < |rest| && rest[j] == p;
        assert ps[j + 1] == p;
      }
    }
  }

  /** A clone whose clock reading gives an id no project has keeps ids unique. */
  lemma ClonePreservesUnique(ps: seq<Project>, p: Project, now: nat)
    requires UniqueIds(ps) && DecimalString(now) !in Ids(ps)
    ensures UniqueIds(Cloned(ps, p, now))
  {
    var r := Cloned(ps, p, now);
    forall i | 0 <= i < |ps| ensures r[i].id != r[|ps|].id {
      assert ps[i] in ps;
    }
  }

  /** The starting projects have unique ids, and a clone made at any clock reading past 3 ms
      cannot clash with them. */
  lemma InitialCloneFresh(p: Project, now: nat)
    requires now > 3
    ensures UniqueIds(InitialProjects)
    ensures UniqueIds(Cloned(InitialProjects, p, now))
  {
    DecimalStringInjective(now, 1);
    DecimalStringInjective(now, 2);
    DecimalStringInjective(now, 3);
    assert Ids(InitialProjects) == {"1", "2", "3"};
    assert DecimalString(1) == "1" && DecimalString(2) == "2" && DecimalString(3) == "3";
    ClonePreservesUnique(InitialProjects, p, now);
  }

  /** The dashboard's state: the project list and the routes pushed so far. */
  class DashboardPage {
    var projects: seq<Project>
    var navigations: seq<string>

    constructor ()
      ensures projects == InitialProjects && navigations == []
    {
      projects := InitialProjects;
      navigations := [];
    }

    /** `handleRename`: every project with the id gets the new name; nothing else changes. */
    method HandleRename(id: string, newName: string)
      modifies this
      ensures projects == Renamed(old(projects), id, newName)
      ensures navigations == old(navigations)
    {
      projects := Renamed(projects, id, newName);
    }

    /** The Rename menu item: the prompt's answer (absent when cancelled) is applied only when
        it is a non-empty string. */
    method RenameFromPrompt(project: Project, answer: Option<string>)
      modifies this
      ensures projects == if TruthyOpt(answer) then Renamed(old(projects), project.id, answer.value) else old(projects)
      ensures navigations == old(navigations)
    {
      if TruthyOpt(answer) {
        HandleRename(project.id, answer.value);
      }
    }

    /** `handleDelete`: every project with the id goes, the rest stay in order. */
    method HandleDelete(id: string)
      modifies this
      ensures projects == WithoutId(old(projects), id)
      ensures navigations == old(navigations)
    {
      projects := WithoutId(projects, id);
    }

    /** `handleClone`: one copy appended at the end, with the clock reading as its id. */
    method HandleClone(project: Project, now: nat)
      modifies this
      ensures projects == Cloned(old(projects), project, now)
      ensures navigations == old(navigations)
    {
      projects := Cloned(projects, project, now);
    }

    /** `handleProjectClick`: navigates to the project's chat. */
    method HandleProjectClick(projectId: string)
      modifies this
      ensures navigations == old(navigations) + [ProjectRoute(projectId)]
      ensures projects == old(projects)
    {
      navigations := navigations + [ProjectRoute(projectId)];
    }
  }
}
