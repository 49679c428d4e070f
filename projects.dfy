/**
 * Project operations of the migration: listing the projects of a group through the
 * project filter, archiving, unarchiving and transferring one project, and the
 * per-project migration decision.
 */
module Projects {
  import opened Wrappers
  import opened Strings
  import opened Platform

  /** What the migration keeps of a listed project. */
  datatype ProjectInfo = ProjectInfo(
    id: int, name: string, path: string, containerRegistryEnabled: bool, archived: bool,
    registryRepositoryIds: seq<int>)

  /** The copy ListProjects makes of a listed project; no repository ids are filled in. */
  function Info(p: ApiProject): ProjectInfo {
    ProjectInfo(p.id, p.name, p.path, p.containerRegistryEnabled, p.archived, [])
  }

  /** The project filter: an empty filter keeps everything, otherwise it names paths. */
  predicate Selected(path: string, filter: seq<string>) {
    |filter| == 0 || path in filter
  }

  /** The projects ListProjects returns for the listing `ps`, in listing order. */
  function Listed(ps: seq<ApiProject>, filter: seq<string>): seq<ProjectInfo> {
    if |ps| == 0 then []
    else
      var last := ps[|ps| - 1];
      Listed(ps[..|ps| - 1], filter) + (if Selected(last.path, filter) then [Info(last)] else [])
  }

  /** The result of ListProjects given the platform's reply to the listing request. */
  function ListProjectsResult(reply: Result<seq<ApiProject>>, filter: seq<string>): Result<seq<ProjectInfo>> {
    match reply
    case Err(e) => Err("failed to list projects: " + e)
    case Ok(ps) => Ok(Listed(ps, filter))
  }

  /** Without a filter, every listed project is returned, as a faithful copy. */
  lemma {:induction false} ListedWithoutFilter(ps: seq<ApiProject>)
    ensures |Listed(ps, [])| == |ps|
    ensures forall i :: 0 <= i < |ps| ==> Listed(ps, [])[i] == Info(ps[i])
  {
    if |ps| > 0 {
      ListedWithoutFilter(ps[..|ps| - 1]);
    }
  }

  /** A project is returned exactly when some listed project passes the filter and is copied to it. */
  lemma {:induction false} ListedMembers(ps: seq<ApiProject>, filter: seq<string>, x: ProjectInfo)
    ensures x in Listed(ps, filter) <==>
      exists i :: 0 <= i < |ps| && Selected(ps[i].path, filter) && x == Info(ps[i])
  {
    if |ps| > 0 {
      var init := ps[..|ps| - 1];
      ListedMembers(init, filter, x);
      if x in Listed(init, filter) {
        var i :| 0 <= i < |init| && Selected(init[i].path, filter) && x == Info(init[i]);
        assert ps[i] == init[i];
      }
      if exists i :: 0 <= i < |ps| && Selected(ps[i].path, filter) && x == Info(ps[i]) {
        var i :| 0 <= i < |ps| && Selected(ps[i].path, filter) && x == Info(ps[i]);
        if i < |init| {
          assert init[i] == ps[i];
        }
      }
    }
  }

  /** Listing preserves order: the result for a concatenation is the concatenation of results. */
  lemma {:induction false} ListedAppend(a: seq<ApiProject>, b: seq<ApiProject>, filter: seq<string>)
    ensures Listed(a + b, filter) == Listed(a, filter) + Listed(b, filter)
  {
    if |b| == 0 {
      assert a + b == a;
    } else {
      var bInit := b[..|b| - 1];
      assert (a + b)[..|a + b| - 1] == a + bInit;
      assert (a + b)[|a + b| - 1] == b[|b| - 1];
      ListedAppend(a, bInit, filter);
    }
  }

  /**
   * The filter scan of ShouldMigrateProject: true as soon as a filter entry equals the
   * path; once the filter is exhausted, true only for a registry-less project when the
   * parent is kept.
   */
  function ScanFilter(p: ProjectInfo, filter: seq<string>, keepParent: bool): (r: bool)
    ensures r <==> p.path in filter || (!p.containerRegistryEnabled && keepParent)
  {
    if |filter| == 0 then !p.containerRegistryEnabled && keepParent
    else if p.path == filter[0] then true
    else ScanFilter(p, filter[1..], keepParent)
  }

  /**
   * ShouldMigrateProject: everything migrates without a filter; otherwise a project
   * migrates when it is named, or when it has no registry and the parent is kept.
   */
  function ShouldMigrateProject(p: ProjectInfo, filter: seq<string>, keepParent: bool): (r: bool)
    ensures |filter| == 0 ==> r
    ensures |filter| > 0 ==> (r <==> p.path in filter || (!p.containerRegistryEnabled && keepParent))
  {
    if |filter| == 0 then true else ScanFilter(p, filter, keepParent)
  }

  /**
   * Every project ListProjects returns passes ShouldMigrateProject whatever `keepParent`
   * is: the "migrate anyway" rule for registry-less projects never gets to decide,
   * because the listing has already dropped every project the filter does not name.
   */
  lemma {:induction false} ListedAreMigrated(ps: seq<ApiProject>, filter: seq<string>, keepParent: bool)
    ensures forall x :: x in Listed(ps, filter) ==>
      ShouldMigrateProject(x, filter, keepParent) && ShouldMigrateProject(x, filter, false)
  {
    forall x | x in Listed(ps, filter)
      ensures ShouldMigrateProject(x, filter, keepParent) && ShouldMigrateProject(x, filter, false)
    {
      ListedMembers(ps, filter, x);
    }
  }

  /** The error an archive or unarchive request ends in, `verb` naming the request. */
  function ArchiveOutcome(reply: Result<int>, verb: string): (r: Outcome)
    ensures r.Pass? <==> reply.Ok? && (reply.value == 200 || reply.value == 201)
    ensures reply.Err? ==> r == Fail("failed to " + verb + " project: " + reply.error)
  {
    match reply
    case Err(e) => Fail("failed to " + verb + " project: " + e)
    case Ok(code) =>
      if code != 201 && code != 200 then Fail("unexpected status code: " + IntToString(code)) else Pass
  }

  /** The error a project transfer ends in: any status code is accepted. */
  function TransferOutcome(reply: Result<int>): (r: Outcome)
    ensures r.Pass? <==> reply.Ok?
  {
    match reply
    case Err(e) => Fail("failed to transfer project: " + e)
    case Ok(_) => Pass
  }

  /** ProjectMigrator: project requests, suppressed in dry-run mode. */
  class ProjectMigrator {
    const platform: Platform
    const dryRun: bool

    constructor (platform: Platform, dryRun: bool)
      ensures this.platform == platform && this.dryRun == dryRun
    {
      this.platform := platform;
      this.dryRun := dryRun;
    }

    /** ListProjects: the group's projects, filtered by path (listing happens in dry-run too). */
    method ListProjects(groupId: int, filter: seq<string>) returns (r: Result<seq<ProjectInfo>>)
      modifies platform
      ensures platform.log == old(platform.log) + [Call.ListProjects(groupId)]
      ensures platform.ticks == old(platform.ticks)
      ensures r == ListProjectsResult(platform.env.listProjects(groupId), filter)
    {
      var reply := platform.ListProjects(groupId);
      if reply.Err? {
        return Err("failed to list projects: " + reply.error);
      }
      var projects := reply.value;
      var result: seq<ProjectInfo> := [];
      for i := 0 to |projects|
        invariant result == Listed(projects[..i], filter)
      {
        assert projects[..i + 1][..i] == projects[..i];
        var project := projects[i];
        if |filter| > 0 {
          var found := false;
          var j := 0;
          while j < |filter|
            invariant 0 <= j <= |filter|
            invariant !found && forall k :: 0 <= k < j ==> filter[k] != project.path
          {
            if project.path == filter[j] {
              found := true;
              break;
            }
            j := j + 1;
          }
          if !found {
            continue;
          }
        }
        result := result + [Info(project)];
      }
      assert projects[..|projects|] == projects;
      return Ok(result);
    }

    /** UnarchiveProject: nothing is requested in dry-run mode. */
    method UnarchiveProject(name: string, id: int) returns (err: Outcome)
      modifies platform
      ensures platform.ticks == old(platform.ticks)
      ensures dryRun ==> platform.log == old(platform.log) && err == Pass
      ensures !dryRun ==> platform.log == old(platform.log) + [Call.UnarchiveProject(id)]
      ensures !dryRun ==> err == ArchiveOutcome(platform.env.unarchive(id), "unarchive")
    {
      if dryRun {
        return Pass;
      }
      var reply := platform.UnarchiveProject(id);
      if reply.Err? {
        return Fail("failed to unarchive project: " + reply.error);
      }
      if reply.value != 201 && reply.value != 200 {
        return Fail("unexpected status code: " + IntToString(reply.value));
      }
      return Pass;
    }

    /** ArchiveProject: nothing is requested in dry-run mode. */
    method ArchiveProject(name: string, id: int) returns (err: Outcome)
      modifies platform
      ensures platform.ticks == old(platform.ticks)
      ensures dryRun ==> platform.log == old(platform.log) && err == Pass
      ensures !dryRun ==> platform.log == old(platform.log) + [Call.ArchiveProject(id)]
      ensures !dryRun ==> err == ArchiveOutcome(platform.env.archive(id), "archive")
    {
      if dryRun {
        return Pass;
      }
      var reply := platform.ArchiveProject(id);
      if reply.Err? {
        return Fail("failed to archive project: " + reply.error);
      }
      if reply.value != 201 && reply.value != 200 {
        return Fail("unexpected status code: " + IntToString(reply.value));
      }
      return Pass;
    }

    /** TransferProject: move the project under `targetId`; nothing is requested in dry-run mode. */
    method TransferProject(name: string, id: int, targetId: int) returns (err: Outcome)
      modifies platform
      ensures platform.ticks == old(platform.ticks)
      ensures dryRun ==> platform.log == old(platform.log) && err == Pass
      ensures !dryRun ==> platform.log == old(platform.log) + [Call.TransferProject(id, targetId)]
      ensures !dryRun ==> err == TransferOutcome(platform.env.transferProject(id, targetId))
    {
      if dryRun {
        return Pass;
      }
      var reply := platform.TransferProject(id, targetId);
      if reply.Err? {
        return Fail("failed to transfer project: " + reply.error);
      }
      return Pass;
    }
  }
}
