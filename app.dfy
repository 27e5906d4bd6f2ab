// App.tsx: the application state (catalogue, saved projects, current screen)
// and the handlers the views call to change it.

module App {
  import opened Types
  import opened Collections
  import opened Budget
  import opened Constants

  /** The saved projects without any project carrying `id`. */
  function ProjectsWithout(projects: seq<Project>, id: string): (r: seq<Project>)
    ensures forall p :: p in r <==> p in projects && p.id != id
  {
    Filter(projects, (p: Project) => p.id != id)
  }

  class AppState {
    var activeView: View
    var parts: seq<Part>
    var projects: seq<Project>

    /** The state on start-up. Local storage is outside the model: what it held
        (if anything) is passed in, and the fixture catalogue and an empty
        project list stand in for what it did not hold. */
    constructor (savedParts: Option<seq<Part>>, savedProjects: Option<seq<Project>>)
      ensures activeView == Dashboard
      ensures parts == (if savedParts.Some? then savedParts.value else InitialParts)
      ensures projects == (if savedProjects.Some? then savedProjects.value else [])
    {
      activeView := Dashboard;
      parts := savedParts.GetOr(InitialParts);
      projects := savedProjects.GetOr([]);
    }

    /** Navigation: switch screen, touch nothing else. */
    method SetView(v: View)
      modifies this
      ensures activeView == v
      ensures parts == old(parts) && projects == old(projects)
    {
      activeView := v;
    }

    /** A new part goes at the end of the catalogue. */
    method HandleAddPart(newPart: Part)
      modifies this
      ensures parts == old(parts) + [newPart]
      ensures projects == old(projects) && activeView == old(activeView)
    {
      parts := parts + [newPart];
    }

    /** Every part with that id leaves the catalogue; projects are not touched,
        so their lines for that part dangle (see DeletedPartDropsItsLines). */
    method HandleDeletePart(id: string)
      modifies this
      ensures parts == PartsWithout(old(parts), id)
      ensures forall p :: p in parts <==> p in old(parts) && p.id != id
      ensures projects == old(projects) && activeView == old(activeView)
    {
      parts := PartsWithout(parts, id);
    }

    /** A saved project goes at the end of the list and the dashboard opens. */
    method HandleSaveProject(newProject: Project)
      modifies this
      ensures projects == old(projects) + [newProject]
      ensures activeView == Dashboard
      ensures parts == old(parts)
    {
      projects := projects + [newProject];
      activeView := Dashboard;
    }

    /** Deleting a project needs the user's confirmation, passed in as
        `confirmed`; without it nothing changes. */
    method HandleDeleteProject(id: string, confirmed: bool)
      modifies this
      ensures projects == if confirmed then ProjectsWithout(old(projects), id) else old(projects)
      ensures parts == old(parts) && activeView == old(activeView)
    {
      if confirmed {
        projects := ProjectsWithout(projects, id);
      }
    }
  }

  /** Deleting an id that no saved project carries leaves the list as it was. */
  lemma {:induction false} ProjectsWithoutAbsent(projects: seq<Project>, id: string)
    requires forall i :: 0 <= i < |projects| ==> projects[i].id != id
    ensures ProjectsWithout(projects, id) == projects
  {
    FilterKeepsAll(projects, (p: Project) => p.id != id);
  }
}
