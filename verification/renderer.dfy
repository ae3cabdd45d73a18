/** The renderer process: the project catalog kept in the module-level `projects`
    list, its load-time defaults, the add / delete / timer-update handlers that change
    it, and the trailing two-week total computed from a project's day buckets. */
module Renderer {
  import opened Wrappers
  import opened JsText
  import opened DailyTimes

  /** A project record as `JSON.parse` hands it back from local storage; the numeric
      and map fields may be absent (`undefined`/`null`). */
  datatype StoredProject = StoredProject(
    name: string,
    path: string,
    totalTime: Option<int>,
    dailyTimes: Option<Buckets>,
    twoWeeksTimes: Option<int>)

  /** A catalog entry once loaded. `twoWeeksTimes` is not defaulted on load, so it may
      still be absent. */
  datatype Project = Project(
    name: string,
    path: string,
    totalTime: int,
    dailyTimes: Buckets,
    twoWeeksTimes: Option<int>)

  /** The outcome of `loadProjects`: the list, or the exception raised on stored text
      that is not a JSON array (`JSON.parse` throws on text that is not JSON, and
      `projects.map` throws on JSON that is not an array). */
  datatype LoadResult = Loaded(projects: seq<Project>) | Corrupt

  /** The record `{...project, totalTime: project.totalTime || 0, dailyTimes: project.dailyTimes || {}}`. */
  function WithDefaults(sp: StoredProject): (p: Project)
    ensures p.name == sp.name && p.path == sp.path && p.twoWeeksTimes == sp.twoWeeksTimes
    ensures sp.totalTime.None? ==> p.totalTime == 0
    ensures sp.dailyTimes.None? ==> p.dailyTimes == map[]
    ensures sp.totalTime.Some? ==> p.totalTime == sp.totalTime.value
    ensures sp.dailyTimes.Some? ==> p.dailyTimes == sp.dailyTimes.value
  {
    Project(sp.name, sp.path, sp.totalTime.GetOr(0), sp.dailyTimes.GetOr(map[]), sp.twoWeeksTimes)
  }

  /** The record a project is written as by `saveProjects`. */
  function ToStored(p: Project): StoredProject {
    StoredProject(p.name, p.path, Some(p.totalTime), Some(p.dailyTimes), p.twoWeeksTimes)
  }

  /** Filling in defaults leaves a fully stored record as it was written, and is
      idempotent: a record with both fields present gains nothing. */
  lemma WithDefaultsOfStored(p: Project, sp: StoredProject)
    ensures WithDefaults(ToStored(p)) == p
    ensures WithDefaults(ToStored(WithDefaults(sp))) == WithDefaults(sp)
  {
  }

  /** `loadProjects`: nothing stored (no item, or the empty string) gives the empty
      list; otherwise every parsed record is kept, in order, with a missing
      `totalTime` read as 0, a missing `dailyTimes` read as `{}` and every other field
      as stored; text that does not parse is an error. */
  function LoadProjects(saved: Option<string>, parse: string -> Option<seq<StoredProject>>): (r: LoadResult)
    ensures saved == None || saved == Some("") ==> r == Loaded([])
    ensures saved.Some? && saved.value != "" && parse(saved.value).None? ==> r == Corrupt
    ensures saved.Some? && saved.value != "" && parse(saved.value).Some? ==>
              var stored := parse(saved.value).value;
              && r.Loaded? && |r.projects| == |stored|
              && forall i :: 0 <= i < |stored| ==>
                   && r.projects[i].name == stored[i].name
                   && r.projects[i].path == stored[i].path
                   && r.projects[i].totalTime == (if stored[i].totalTime.Some? then stored[i].totalTime.value else 0)
                   && r.projects[i].dailyTimes == (if stored[i].dailyTimes.Some? then stored[i].dailyTimes.value else map[])
                   && r.projects[i].twoWeeksTimes == stored[i].twoWeeksTimes
  {
    if saved == None || saved == Some("") then Loaded([])
    else match parse(saved.value)
      case None => Corrupt
      case Some(stored) => Loaded(seq(|stored|, i requires 0 <= i < |stored| => WithDefaults(stored[i])))
  }

  /** Loading what was saved gives back the same list. */
  lemma LoadAfterSave(ps: seq<Project>, text: string, parse: string -> Option<seq<StoredProject>>)
    requires text != ""
    requires parse(text) == Some(seq(|ps|, i requires 0 <= i < |ps| => ToStored(ps[i])))
    ensures LoadProjects(Some(text), parse) == Loaded(ps)
  {
    var r := LoadProjects(Some(text), parse);
    assert |r.projects| == |ps|;
    forall i | 0 <= i < |ps| ensures r.projects[i] == ps[i] {
      assert parse(text).value[i] == ToStored(ps[i]);
    }
  }

  /** Whether the user's add request is accepted, and with what entry. */
  datatype AddOutcome =
    | Accepted(project: Project)
    | BlankField      // an empty or white-space-only name or path: alert, nothing added
    | MissingInputs   // the input elements are not in the page: logged, nothing added

  /** The check of the add handler: both input elements present, and the name and the
      path not blank once trimmed. The new entry carries the trimmed name and path
      and zero times. */
  function PrepareProject(nameInput: Option<string>, pathInput: Option<string>): (r: AddOutcome)
    ensures r == MissingInputs <==> nameInput.None? || pathInput.None?
    ensures r == BlankField <==>
              nameInput.Some? && pathInput.Some? && (AllWhitespace(nameInput.value) || AllWhitespace(pathInput.value))
    ensures r.Accepted? ==>
              && r.project == Project(Trim(nameInput.value), Trim(pathInput.value), 0, map[], Some(0))
              && r.project.name != [] && !IsWhitespace(r.project.name[0]) && !IsWhitespace(r.project.name[|r.project.name| - 1])
              && r.project.path != [] && !IsWhitespace(r.project.path[0]) && !IsWhitespace(r.project.path[|r.project.path| - 1])
  {
    if nameInput.None? || pathInput.None? then MissingInputs
    else
      var projectName := Trim(nameInput.value);
      var projectPath := Trim(pathInput.value);
      if projectName != [] && projectPath != [] then
        Accepted(Project(projectName, projectPath, 0, map[], Some(0)))
      else
        BlankField
  }

  /** Some project has the path. */
  predicate HasPath(ps: seq<Project>, path: string) {
    exists i :: 0 <= i < |ps| && ps[i].path == path
  }

  /** `i` is the position of the first project with the path. */
  predicate IsFirstWithPath(ps: seq<Project>, i: int, path: string) {
    0 <= i < |ps| && ps[i].path == path && forall j :: 0 <= j < i ==> ps[j].path != path
  }

  /** `projects.find(p => p.path === path)`, as a position. */
  function FirstWithPath(ps: seq<Project>, path: string): (r: Option<nat>)
    ensures r.Some? ==> IsFirstWithPath(ps, r.value, path)
    ensures r.None? <==> !HasPath(ps, path)
  {
    if ps == [] then None
    else if ps[0].path == path then Some(0)
    else match FirstWithPath(ps[1..], path)
      case None => None
      case Some(i) => Some(i + 1)
  }

  /** `projects.filter(p => p.path !== path)`: no project with the path is left, every
      other project is kept. */
  function RemovePath(ps: seq<Project>, path: string): (r: seq<Project>)
    ensures forall i :: 0 <= i < |r| ==> r[i].path != path
    ensures forall p :: p in r <==> p in ps && p.path != path
    ensures |r| <= |ps|
  {
    if ps == [] then []
    else if ps[0].path == path then RemovePath(ps[1..], path)
    else [ps[0]] + RemovePath(ps[1..], path)
  }

  /** Filtering keeps the original order: it distributes over concatenation. */
  lemma {:induction false} RemovePathConcat(a: seq<Project>, b: seq<Project>, path: string)
    ensures RemovePath(a + b, path) == RemovePath(a, path) + RemovePath(b, path)
  {
    if a != [] {
      assert (a + b)[1..] == a[1..] + b;
      RemovePathConcat(a[1..], b, path);
    } else {
      assert a + b == b;
    }
  }

  /** With no project on the path, filtering changes nothing. */
  lemma {:induction false} RemovePathNoMatch(ps: seq<Project>, path: string)
    requires !HasPath(ps, path)
    ensures RemovePath(ps, path) == ps
  {
    if ps != [] {
      RemovePathNoMatch(ps[1..], path);
      assert ps == [ps[0]] + ps[1..];
    }
  }

  /** The timer-update payload sent to the renderer. */
  datatype TimerUpdate = TimerUpdate(projectPath: string, seconds: int, dailyTimes: Buckets, twoWeeksTimes: int)

  /** The project after the three field assignments of the update handler. */
  function Merged(p: Project, u: TimerUpdate): (q: Project)
    ensures q.name == p.name && q.path == p.path
    ensures q.totalTime == u.seconds && q.dailyTimes == u.dailyTimes && q.twoWeeksTimes == Some(u.twoWeeksTimes)
  {
    p.(totalTime := u.seconds, dailyTimes := u.dailyTimes, twoWeeksTimes := Some(u.twoWeeksTimes))
  }

  /** The update handler's effect on the list: only the first project on the update's
      path takes the new times; every other entry, and the length, stay as they were. */
  function MergeUpdate(ps: seq<Project>, u: TimerUpdate): (r: seq<Project>)
    ensures |r| == |ps|
    ensures forall i :: 0 <= i < |ps| ==>
              r[i] == if IsFirstWithPath(ps, i, u.projectPath) then Merged(ps[i], u) else ps[i]
  {
    match FirstWithPath(ps, u.projectPath)
    case None => ps
    case Some(i) => ps[i := Merged(ps[i], u)]
  }

  /** An update for a path no project has leaves the list as it is. */
  lemma MergeUpdateNoMatch(ps: seq<Project>, u: TimerUpdate)
    requires !HasPath(ps, u.projectPath)
    ensures MergeUpdate(ps, u) == ps
  {
    var r := MergeUpdate(ps, u);
    forall i | 0 <= i < |ps| ensures r[i] == ps[i] {
      assert ps[i].path != u.projectPath;
    }
  }

  /** Delivering the same update twice has the effect of delivering it once. */
  lemma MergeUpdateIdempotent(ps: seq<Project>, u: TimerUpdate)
    ensures MergeUpdate(MergeUpdate(ps, u), u) == MergeUpdate(ps, u)
  {
    var r := MergeUpdate(ps, u);
    var r2 := MergeUpdate(r, u);
    forall i | 0 <= i < |ps| ensures r2[i] == r[i] {
      assert IsFirstWithPath(r, i, u.projectPath) <==> IsFirstWithPath(ps, i, u.projectPath) by {
        assert forall j :: 0 <= j < |ps| ==> r[j].path == ps[j].path;
      }
    }
  }

  /** `getRecentTwoWeeksPlayTime`: the sum of the project's buckets for today and the
      13 days before it. Reads the project only. */
  method RecentTwoWeeksPlayTime(project: Project, today: int, dateKey: int -> string) returns (total: int)
    ensures total == WindowSum(project.dailyTimes, dateKey, today, 14)
  {
    total := 0;
    for i := 0 to 14
      invariant total == WindowSum(project.dailyTimes, dateKey, today, i)
    {
      var dateString := dateKey(today - i);
      total := total + if dateString in project.dailyTimes then project.dailyTimes[dateString] else 0;
    }
  }

  /** The two-week window counts a day exactly when it is today or one of the 13
      days before, and never a bucket dated outside that range. */
  lemma TwoWeekWindowBounds(dateKey: int -> string, day: int, v: int, today: int)
    requires InjectiveKeys(dateKey)
    ensures WindowSum(map[dateKey(day) := v], dateKey, today, 14) == if today - 13 <= day <= today then v else 0
  {
    WindowSingleBucket(dateKey, day, v, today, 14);
  }

  /** The module-level `projects` list and what `saveProjects` last wrote to local
      storage during this run (`None` before the first save). */
  class Catalog {
    var projects: seq<Project>
    var saved: Option<seq<Project>>

    /** `let projects = loadProjects()`, from the stored item; the script stops with the
        exception when the item is corrupt, so a catalog exists only when loading
        succeeded. */
    constructor (item: Option<string>, parse: string -> Option<seq<StoredProject>>)
      requires LoadProjects(item, parse).Loaded?
      ensures projects == LoadProjects(item, parse).projects && saved == None
    {
      projects := LoadProjects(item, parse).projects;
      saved := None;
    }

    /** `saveProjects(projects)`. */
    method SaveProjects()
      modifies this`saved
      ensures saved == Some(projects)
    {
      saved := Some(projects);
    }

    /** The "addProject" click handler: appends exactly the prepared entry and saves,
        or changes nothing. */
    method AddProject(nameInput: Option<string>, pathInput: Option<string>) returns (outcome: AddOutcome)
      modifies this
      ensures outcome == PrepareProject(nameInput, pathInput)
      ensures outcome.Accepted? ==> projects == old(projects) + [outcome.project] && saved == Some(projects)
      ensures !outcome.Accepted? ==> projects == old(projects) && saved == old(saved)
    {
      outcome := PrepareProject(nameInput, pathInput);
      if outcome.Accepted? {
        projects := projects + [outcome.project];
        SaveProjects();
      }
    }

    /** The "deleteProject" click handler. `selected` is the context menu's
        `data-path`; `confirmed` is the user's answer to the confirmation dialog. */
    method DeleteProject(selected: Option<string>, confirmed: bool) returns (outcome: DeleteOutcome)
      modifies this
      ensures outcome == NoSelection <==> selected.None? || selected.value == ""
      ensures outcome == NotFound <==>
                selected.Some? && selected.value != "" && !HasPath(old(projects), selected.value)
      ensures outcome == Cancelled <==>
                selected.Some? && selected.value != "" && HasPath(old(projects), selected.value) && !confirmed
      ensures outcome == Deleted ==> projects == RemovePath(old(projects), selected.value) && saved == Some(projects)
      ensures outcome != Deleted ==> projects == old(projects) && saved == old(saved)
    {
      if selected.None? || selected.value == "" {
        return NoSelection;
      }
      var selectedPath := selected.value;
      var projectToDelete := FirstWithPath(projects, selectedPath);
      if projectToDelete.None? {
        return NotFound;
      }
      if confirmed {
        projects := RemovePath(projects, selectedPath);
        SaveProjects();
        outcome := Deleted;
      } else {
        outcome := Cancelled;
      }
    }

    /** The "update-project-timer" listener: the first project on the payload's path
        takes its `totalTime`, `dailyTimes` and `twoWeeksTimes`, and the list is saved;
        with no such project nothing happens. */
    method OnTimerUpdate(u: TimerUpdate)
      modifies this
      ensures projects == MergeUpdate(old(projects), u)
      ensures saved == if HasPath(old(projects), u.projectPath) then Some(projects) else old(saved)
    {
      var found := FirstWithPath(projects, u.projectPath);
      if found.Some? {
        var i := found.value;
        projects := projects[i := projects[i].(totalTime := u.seconds)];
        projects := projects[i := projects[i].(dailyTimes := u.dailyTimes)];
        projects := projects[i := projects[i].(twoWeeksTimes := Some(u.twoWeeksTimes))];
        SaveProjects();
      }
    }
  }

  /** How the delete handler ended. */
  datatype DeleteOutcome =
    | NoSelection  // no path on the context menu: alert
    | NotFound     // no project has the path: alert
    | Cancelled    // the user declined the confirmation
    | Deleted      // every project with the path removed and the list saved
}
