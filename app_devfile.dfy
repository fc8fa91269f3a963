/** The application devfile updater: attaching one component to the shared
    application-level devfile, either as a git project or as a
    `containerImage/<name>` workspace attribute, refusing duplicate names. */
module AppDevfile {
  import opened Types

  /** The part of the application devfile the updater reads and writes: its
      project list and its workspace attributes (None when the devfile has
      no attribute map yet). */
  datatype Workspace = Workspace(projects: seq<Project>, attributes: Option<map<string, AttrValue>>)

  const OriginRemote: string := "origin"
  const ImageAttributePrefix: string := "containerImage/"

  function ImageAttributeKey(componentName: string): string { ImageAttributePrefix + componentName }

  predicate HasProjectNamed(projects: seq<Project>, name: string) {
    exists i :: 0 <= i < |projects| && projects[i].name == name
  }

  predicate UniqueProjectNames(projects: seq<Project>) {
    forall i, j :: 0 <= i < j < |projects| ==> projects[i].name != projects[j].name
  }

  /** The project a git-sourced component becomes: named after the
      component, with one remote, origin, at the component's git URL. */
  function NewProject(c: Component): Project
    requires c.spec.gitSource.Some?
  {
    Project(c.spec.componentName, map[OriginRemote := c.spec.gitSource.value.url])
  }

  /** The attribute map the image branch works on: the existing one, or a
      fresh empty one. */
  function AttributesOrEmpty(w: Workspace): map<string, AttrValue> {
    if w.attributes.Some? then w.attributes.value else map[]
  }

  /** What updateApplicationDevfileModel does to the workspace: the new
      workspace, or the error it returns. */
  function Attach(w: Workspace, c: Component): Result<Workspace> {
    if c.spec.gitSource.Some? then
      if HasProjectNamed(w.projects, c.spec.componentName) then Err(DuplicateComponent(c.spec.componentName))
      else Ok(w.(projects := w.projects + [NewProject(c)]))
    else if c.spec.containerImage != "" then
      var attrs := AttributesOrEmpty(w);
      var key := ImageAttributeKey(c.spec.componentName);
      var existing := GetString(attrs, key);
      if existing.Failed? then Err(WorkspaceAttributeUnreadable(key))
      else if existing.Found? && existing.value != "" then Err(DuplicateComponent(c.name))
      else Ok(w.(attributes := Some(attrs[key := Str(c.spec.containerImage)])))
    else Err(SourceIsNil)
  }

  /** A git source wins over a container image. The attach fails exactly when
      a project already has the component's name, and otherwise appends one
      project, named after the component with origin at its URL, touching
      nothing else. */
  lemma AttachGitSourced(w: Workspace, c: Component)
    requires c.spec.gitSource.Some?
    ensures Attach(w, c).Err? <==> exists p :: p in w.projects && p.name == c.spec.componentName
    ensures Attach(w, c).Err? ==> Attach(w, c).error == DuplicateComponent(c.spec.componentName)
    ensures Attach(w, c).Ok? ==>
      && Attach(w, c).value.projects == w.projects + [Project(c.spec.componentName, map["origin" := c.spec.gitSource.value.url])]
      && Attach(w, c).value.attributes == w.attributes
  {
    if exists p :: p in w.projects && p.name == c.spec.componentName {
      var p :| p in w.projects && p.name == c.spec.componentName;
      var i :| 0 <= i < |w.projects| && w.projects[i] == p;
      assert HasProjectNamed(w.projects, c.spec.componentName);
    }
  }

  /** With no git source and a non-empty image: a non-empty string already at
      containerImage/<name> is a duplicate (reported under the component's
      metadata name), any other unreadable value is passed on, and otherwise
      the key is set to the image and nothing else changes. */
  lemma AttachImageSourced(w: Workspace, c: Component)
    requires c.spec.gitSource.None? && c.spec.containerImage != ""
    ensures var key := "containerImage/" + c.spec.componentName;
      var before := AttributesOrEmpty(w);
      && (Attach(w, c) == Err(DuplicateComponent(c.name)) <==> key in before && before[key].Str? && before[key].s != "")
      && (Attach(w, c) == Err(WorkspaceAttributeUnreadable(key)) <==> key in before && !before[key].Str?)
      && (Attach(w, c).Ok? <==> key !in before || before[key] == Str(""))
      && (Attach(w, c).Ok? ==>
            && Attach(w, c).value.projects == w.projects
            && Attach(w, c).value.attributes.Some?
            && Attach(w, c).value.attributes.value == before[key := Str(c.spec.containerImage)])
  {
  }

  /** Neither a git source nor an image: "component source is nil". */
  lemma AttachWithoutSource(w: Workspace, c: Component)
    requires c.spec.gitSource.None? && c.spec.containerImage == ""
    ensures Attach(w, c) == Err(SourceIsNil)
  {
  }

  /** Project names stay unique across an attach. */
  lemma AttachKeepsProjectNamesUnique(w: Workspace, c: Component)
    requires UniqueProjectNames(w.projects)
    ensures Attach(w, c).Ok? ==> UniqueProjectNames(Attach(w, c).value.projects)
  {
    if Attach(w, c).Ok? && c.spec.gitSource.Some? {
      var ps := Attach(w, c).value.projects;
      forall i, j | 0 <= i < j < |ps| ensures ps[i].name != ps[j].name {
        if j == |w.projects| {
          assert ps[i] == w.projects[i];
          assert !HasProjectNamed(w.projects, c.spec.componentName);
        }
      }
    }
  }

  /** A second component of the same name and the same kind of source is
      refused once the first is attached. */
  lemma AttachSameNameTwiceFails(w: Workspace, c1: Component, c2: Component)
    requires Attach(w, c1).Ok?
    requires c2.spec.componentName == c1.spec.componentName
    requires c1.spec.gitSource.Some? == c2.spec.gitSource.Some?
    requires c2.spec.gitSource.None? ==> c2.spec.containerImage != ""
    ensures Attach(Attach(w, c1).value, c2).Err?
    ensures Attach(Attach(w, c1).value, c2).error.DuplicateComponent?
  {
    var w1 := Attach(w, c1).value;
    if c1.spec.gitSource.Some? {
      assert w1.projects[|w.projects|].name == c2.spec.componentName;
    }
  }

  /** The application devfile object the updater mutates. */
  class AppDevfileData {
    var projects: seq<Project>
    var attributes: Option<map<string, AttrValue>>

    function State(): Workspace
      reads this
    {
      Workspace(projects, attributes)
    }

    constructor (w: Workspace)
      ensures State() == w
    {
      projects := w.projects;
      attributes := w.attributes;
    }
  }

  /** The scan over the existing projects for one with the new name. */
  method FindProjectNamed(projects: seq<Project>, name: string) returns (found: bool)
    ensures found <==> exists p :: p in projects && p.name == name
  {
    var i := 0;
    while i < |projects|
      invariant 0 <= i <= |projects|
      invariant forall k :: 0 <= k < i ==> projects[k].name != name
    {
      if projects[i].name == name {
        return true;
      }
      i := i + 1;
    }
    return false;
  }

  /** updateApplicationDevfileModel: either applies exactly the change Attach
      describes, or returns its error and leaves the devfile as it was. */
  method UpdateApplicationDevfileModel(app: AppDevfileData, c: Component) returns (err: Option<Error>)
    modifies app
    ensures var r := Attach(old(app.State()), c);
      && (r.Ok? ==> err == None && app.State() == r.value)
      && (r.Err? ==> err == Some(r.error) && app.State() == old(app.State()))
  {
    if c.spec.gitSource.Some? {
      var newProject := NewProject(c);
      var duplicate := FindProjectNamed(app.projects, newProject.name);
      if duplicate {
        AttachGitSourced(app.State(), c);
        return Some(DuplicateComponent(newProject.name));
      }
      AttachGitSourced(app.State(), c);
      app.projects := app.projects + [newProject];
    } else if c.spec.containerImage != "" {
      var attrs: map<string, AttrValue>;
      if app.attributes.None? {
        attrs := map[];
        app.attributes := Some(attrs);
      } else {
        attrs := app.attributes.value;
      }
      var key := ImageAttributeKey(c.spec.componentName);
      var existing := GetString(attrs, key);
      if existing.Failed? {
        return Some(WorkspaceAttributeUnreadable(key));
      }
      var componentImage := if existing.Found? then existing.value else "";
      if componentImage != "" {
        return Some(DuplicateComponent(c.name));
      }
      app.attributes := Some(attrs[key := Str(c.spec.containerImage)]);
    } else {
      return Some(SourceIsNil);
    }
    return None;
  }
}
