/**
 * The migration pipeline of the `migrate` command: configuration preparation, the
 * connection checks with their exit codes, the lookup of the source and destination
 * groups, the backup of every migrated project, the eviction of the backed-up
 * registries and the wait for it, the transfer (whole group, into a subgroup, or
 * project by project) and the restore of images and archival state.
 *
 * Each phase is a specification function giving the calls issued, the clock reading
 * reached and how the run ends; `Runner` carries out the phases against a `Platform`
 * and each of its methods is proved to issue exactly the calls of its phase.
 */
module Migrate {
  import opened Wrappers
  import opened Strings
  import opened Platform
  import opened Projects
  import opened Groups
  import opened Images
  import opened Config

  /** How a run ends: `os.Exit` with a code, normal completion, or a nil-pointer panic. */
  datatype Ending = Exited(code: int) | Completed | Crashed

  /** The calls a run issued, the clock reading it ended at and how it ended. */
  datatype Run = Run(calls: seq<Call>, ticks: nat, ending: Ending)

  /** `r` preceded by the calls `done`. */
  function Prefix(done: seq<Call>, r: Run): Run {
    Run(done + r.calls, r.ticks, r.ending)
  }

  // ---------------------------------------------------------------------------------
  // Configuration preparation

  /** The keep-parent flag turns keeping the parent off; without it the loaded value stands. */
  function KeepParentAfterFlag(loaded: bool, flag: bool): (r: bool)
    ensures flag ==> !r
    ensures !flag ==> r == loaded
  {
    if flag then false else loaded
  }

  /** A list given on the command line replaces the loaded list, split on "," and trimmed. */
  function FlagList(current: seq<string>, s: string): seq<string> {
    if s != "" then TrimAll(Split(s, ',')) else current
  }

  /**
   * An empty command-line list keeps the loaded list; a non-empty one gives at least one
   * entry, none holding a comma or starting or ending with white space, and joining the
   * untrimmed pieces back with "," gives the string.
   */
  lemma FlagListSpec(current: seq<string>, s: string)
    ensures s == "" ==> FlagList(current, s) == current
    ensures s != "" ==> var r := FlagList(current, s);
      && |r| >= 1 && |r| == |Split(s, ',')|
      && (forall i :: 0 <= i < |r| ==> r[i] == TrimSpace(Split(s, ',')[i]))
      && forall i :: 0 <= i < |r| ==> ',' !in r[i] && (|r[i]| > 0 ==> !IsSpace(r[i][0]) && !IsSpace(r[i][|r[i]| - 1]))
  {
    if s != "" {
      SplitTrimPieces(s);
    }
  }

  /** The settings a run works with: the loaded ones after the flags and the defaults. */
  function Prepared(loaded: Config, keepParentFlag: bool, projectsStr: string, tagsStr: string): Config {
    WithDefaults(loaded.(
      keepParent := KeepParentAfterFlag(loaded.keepParent, keepParentFlag),
      projectsList := FlagList(loaded.projectsList, projectsStr),
      tagsList := FlagList(loaded.tagsList, tagsStr)))
  }

  /** The configuration steps of runMigration, before validation. */
  method PrepareConfig(loaded: Config, keepParentFlag: bool, projectsStr: string, tagsStr: string)
    returns (cfg: Config)
    ensures cfg == Prepared(loaded, keepParentFlag, projectsStr, tagsStr)
  {
    var keepParent := loaded.keepParent;
    if keepParentFlag {
      keepParent := false;
    }
    var projectsList := ReadFlagList(loaded.projectsList, projectsStr);
    var tagsList := ReadFlagList(loaded.tagsList, tagsStr);
    cfg := ApplyDefaults(loaded.(keepParent := keepParent, projectsList := projectsList, tagsList := tagsList));
  }

  /** One list setting of runMigration: replaced by the command-line list when one is given. */
  method ReadFlagList(current: seq<string>, s: string) returns (list: seq<string>)
    ensures list == FlagList(current, s)
  {
    list := current;
    if s != "" {
      list := SplitAndTrim(s);
    }
  }

  // ---------------------------------------------------------------------------------
  // Connection checks

  /**
   * The client set-up and checks: a GitLab client, its connection, a Docker client,
   * the Docker engine, the current user and the registry login, in that order. The
   * first failure ends the run, with code 1 for the first three and 99 for the rest,
   * except that a refused first login attempt ends the process with 1 inside the client.
   */
  function Connection(env: Env, cfg: Config): (t: Trace<Option<int>>)
    ensures t.result.None? <==>
      && env.gitLabClient(cfg.gitLabToken, cfg.gitLabInstance).Pass?
      && env.connection.Pass? && env.dockerClient.Pass? && env.dockerRunning.Pass?
      && env.currentUser.Ok?
      && env.login(cfg.gitLabRegistry, env.currentUser.value, cfg.dockerToken).LoggedIn?
    ensures t.result == Some(1) <==>
      || env.gitLabClient(cfg.gitLabToken, cfg.gitLabInstance).Fail? || env.connection.Fail? || env.dockerClient.Fail?
      || (env.dockerRunning.Pass? && env.currentUser.Ok?
          && env.login(cfg.gitLabRegistry, env.currentUser.value, cfg.dockerToken).LoginFatal?)
    ensures t.result.Some? ==> t.result.value == 1 || t.result.value == 99
    ensures ReadOnly(t.calls)
  {
    var c1 := [Call.NewGitLabClient(cfg.gitLabToken, cfg.gitLabInstance)];
    if env.gitLabClient(cfg.gitLabToken, cfg.gitLabInstance).Fail? then Trace(c1, Some(1))
    else
      var c2 := c1 + [Call.CheckConnection];
      if env.connection.Fail? then Trace(c2, Some(1))
      else
        var c3 := c2 + [Call.NewDockerClient];
        if env.dockerClient.Fail? then Trace(c3, Some(1))
        else
          var c4 := c3 + [Call.CheckDocker];
          if env.dockerRunning.Fail? then Trace(c4, Some(99))
          else
            var c5 := c4 + [Call.CurrentUser];
            if env.currentUser.Err? then Trace(c5, Some(99))
            else
              var c6 := c5 + [Call.Login(cfg.gitLabRegistry, env.currentUser.value, cfg.dockerToken)];
              match env.login(cfg.gitLabRegistry, env.currentUser.value, cfg.dockerToken)
              case LoggedIn => Trace(c6, None)
              case LoginFatal(_) => Trace(c6, Some(1))
              case LoginFailed(_) => Trace(c6, Some(99))
  }

  /** The connection checks of runMigration; the exit code when one fails. */
  method Connect(platform: Platform, cfg: Config) returns (code: Option<int>)
    modifies platform
    ensures var t := Connection(platform.env, cfg);
      platform.log == old(platform.log) + t.calls && code == t.result
    ensures platform.ticks == old(platform.ticks)
  {
    var c := platform.NewGitLabClient(cfg.gitLabToken, cfg.gitLabInstance);
    if c.Fail? {
      return Some(1);
    }
    c := platform.CheckConnection();
    if c.Fail? {
      return Some(1);
    }
    c := platform.NewDockerClient();
    if c.Fail? {
      return Some(1);
    }
    c := platform.CheckDocker();
    if c.Fail? {
      return Some(99);
    }
    var user := platform.CurrentUser();
    if user.Err? {
      return Some(99);
    }
    var login := platform.Login(cfg.gitLabRegistry, user.value, cfg.dockerToken);
    match login
    case LoggedIn => return None;
    case LoginFatal(_) => return Some(1);
    case LoginFailed(_) => return Some(99);
  }

  // ---------------------------------------------------------------------------------
  // Paths and the transfer decision

  /** The destination path: the new group name with one leading "/" removed. */
  function DestinationPath(newGroupName: string): (r: string)
    ensures |newGroupName| > 0 && newGroupName[0] == '/' ==> "/" + r == newGroupName
    ensures (|newGroupName| == 0 || newGroupName[0] != '/') ==> r == newGroupName
  {
    TrimPrefix(newGroupName, "/")
  }

  /** The name of the group created under the destination: the last "/" segment of the old path. */
  function SubgroupName(oldGroupPath: string): string {
    LastSegment(oldGroupPath, '/')
  }

  /** The path at which that group is looked up: the destination path, "/", the name. */
  function SubgroupPath(newGroupPath: string, oldGroupPath: string): string {
    newGroupPath + "/" + SubgroupName(oldGroupPath)
  }

  /**
   * The subgroup's name is the part of the old path after its last "/" (all of it when
   * there is none), and it is looked up directly below the destination path.
   */
  lemma SubgroupPathSpec(newGroupPath: string, oldGroupPath: string)
    ensures var name := SubgroupName(oldGroupPath);
      && '/' !in name
      && |name| <= |oldGroupPath| && name == oldGroupPath[|oldGroupPath| - |name|..]
      && (|name| < |oldGroupPath| ==> oldGroupPath[|oldGroupPath| - |name| - 1] == '/')
      && ('/' !in oldGroupPath ==> name == oldGroupPath)
    ensures var path := SubgroupPath(newGroupPath, oldGroupPath);
      && |path| > |newGroupPath| && path[..|newGroupPath| + 1] == newGroupPath + "/"
      && path[|newGroupPath| + 1..] == SubgroupName(oldGroupPath)
  {
    LastSegmentSpec(oldGroupPath, '/');
    var path := SubgroupPath(newGroupPath, oldGroupPath);
    assert path[..|newGroupPath| + 1] == newGroupPath + "/";
  }

  /** The path under which images are restored: the old path is kept below the destination with the parent. */
  function RestoreRoot(keepParent: bool, newGroupPath: string, oldGroupPath: string): string {
    if keepParent then newGroupPath + "/" + oldGroupPath else newGroupPath
  }

  /**
   * An image below the old group's full path is restored below the restore root: with
   * the parent kept, the old path reappears below the destination path.
   */
  lemma RestoreReroots(keepParent: bool, newGroupPath: string, oldGroupPath: string, oldFullPath: string,
    img: string, rest: string)
    requires TrimQuotes(img) == TrimQuotes(oldFullPath) + rest
    ensures keepParent ==>
      Target(img, oldFullPath, RestoreRoot(keepParent, newGroupPath, oldGroupPath)) == newGroupPath + "/" + oldGroupPath + rest
    ensures !keepParent ==>
      Target(img, oldFullPath, RestoreRoot(keepParent, newGroupPath, oldGroupPath)) == newGroupPath + rest
  {
    TargetReroots(img, oldFullPath, RestoreRoot(keepParent, newGroupPath, oldGroupPath), rest);
  }

  /** The three ways the projects reach the destination. */
  datatype TransferMode = WholeGroup | IntoSubgroup | Flatten

  /**
   * With the parent kept and no project list the whole group moves; with the parent kept
   * and a project list the listed projects move into a subgroup; otherwise each project
   * moves into the destination itself.
   */
  function Mode(keepParent: bool, projectsList: seq<string>): (m: TransferMode)
    ensures m.WholeGroup? <==> keepParent && |projectsList| == 0
    ensures m.IntoSubgroup? <==> keepParent && |projectsList| > 0
    ensures m.Flatten? <==> !keepParent
  {
    if !keepParent then Flatten else if |projectsList| == 0 then WholeGroup else IntoSubgroup
  }

  /** The restore loop transfers each project itself, unless the whole group moved. */
  predicate PerProjectTransfer(keepParent: bool, projectsList: seq<string>) {
    !keepParent || |projectsList| > 0
  }

  /** Exactly one of the group transfer and the per-project transfers applies. */
  lemma TransferModesExclusive(keepParent: bool, projectsList: seq<string>)
    ensures PerProjectTransfer(keepParent, projectsList) <==> !Mode(keepParent, projectsList).WholeGroup?
  {
  }

  // ---------------------------------------------------------------------------------
  // Finding the groups and the projects

  /** The groups the run works with: the source, the destination path and the destination (maybe none). */
  datatype Located = Located(source: Group, newGroupPath: string, dest: Option<Group>)

  /** The source group cannot be found: the lookup errs or finds no group. */
  predicate SourceMissing(env: Env, cfg: Config) {
    var reply := env.searchGroup(cfg.oldGroupName);
    !(reply.Ok? && reply.value.Some?)
  }

  /** Both lookups succeed, but the source's projects cannot be listed or none is left. */
  predicate ProjectsMissing(env: Env, cfg: Config) {
    var source := env.searchGroup(cfg.oldGroupName);
    var dest := env.searchGroup(DestinationPath(cfg.newGroupName));
    && source.Ok? && source.value.Some? && dest.Ok?
    && var listed := ListProjectsResult(env.listProjects(source.value.value.id), cfg.projectsList);
      listed.Err? || |listed.value| == 0
  }

  /**
   * The lookups: the source group (an error or no group ends the run with 321), the
   * destination group (an error ends it with 99, no group is let through), the
   * source's projects (an error or no project ends it with 1), then the projects' run.
   */
  function FoundGroups(env: Env, cfg: Config, ticks: nat): (r: Run)
    ensures r.ending == Exited(321) <==> SourceMissing(env, cfg)
    ensures r.ending == Exited(1) <==> ProjectsMissing(env, cfg)
    ensures r.ending.Exited? ==> r.ending.code in {1, 99, 321}
    ensures |r.calls| >= 1 && r.calls[0] == Call.SearchGroup(cfg.oldGroupName)
    ensures !SourceMissing(env, cfg) && env.searchGroup(DestinationPath(cfg.newGroupName)).Err? ==> r.ending == Exited(99)
  {
    var found := SearchOutcome(cfg.oldGroupName, env.searchGroup(cfg.oldGroupName));
    var c1 := [Call.SearchGroup(cfg.oldGroupName)];
    if found.Err? || found.value.None? then Run(c1, ticks, Exited(321))
    else Prefix(c1, Lookups(env, cfg, found.value.value, ticks))
  }

  /** Once the source is found: the destination lookup (an error ends the run with 99), then the listing. */
  function Lookups(env: Env, cfg: Config, source: Group, ticks: nat): (r: Run)
    ensures r.ending == Exited(1) <==>
      && env.searchGroup(DestinationPath(cfg.newGroupName)).Ok?
      && var listed := ListProjectsResult(env.listProjects(source.id), cfg.projectsList);
        listed.Err? || |listed.value| == 0
    ensures r.ending.Exited? ==> r.ending.code in {1, 99}
    ensures env.searchGroup(DestinationPath(cfg.newGroupName)).Err? ==> r == Run([Call.SearchGroup(DestinationPath(cfg.newGroupName))], ticks, Exited(99))
  {
    var newGroupPath := DestinationPath(cfg.newGroupName);
    var dest := SearchOutcome(newGroupPath, env.searchGroup(newGroupPath));
    var c := [Call.SearchGroup(newGroupPath)];
    if dest.Err? then Run(c, ticks, Exited(99))
    else Prefix(c, Listing(env, cfg, source, newGroupPath, dest.value, ticks))
  }

  /** The listing of the source's projects: an error or no project ends the run with 1. */
  function Listing(env: Env, cfg: Config, source: Group, newGroupPath: string, dest: Option<Group>, ticks: nat)
    : (r: Run)
    ensures r.ending == Exited(1) <==>
      var listed := ListProjectsResult(env.listProjects(source.id), cfg.projectsList);
      listed.Err? || |listed.value| == 0
    ensures r.ending.Exited? ==> r.ending.code in {1, 99}
  {
    var listed := ListProjectsResult(env.listProjects(source.id), cfg.projectsList);
    var c := [Call.ListProjects(source.id)];
    if listed.Err? || |listed.value| == 0 then Run(c, ticks, Exited(1))
    else Prefix(c, ProjectsRun(env, cfg, Located(source, newGroupPath, dest), listed.value, ticks))
  }

  /**
   * The whole run for the loaded settings: an invalid configuration ends it with 1
   * before any call, a failed check with that check's code, otherwise the lookups follow.
   */
  function Migration(env: Env, cfg: Config, ticks: nat): (r: Run)
    ensures r.ending.Exited? ==> r.ending.code in {1, 99, 321}
    ensures Validate(cfg).Some? ==> r == Run([], ticks, Exited(1))
    ensures r.ending == Exited(321) <==>
      Validate(cfg).None? && Connection(env, cfg).result.None? && SourceMissing(env, cfg)
    ensures r.ending == Exited(1) <==>
      || Validate(cfg).Some? || Connection(env, cfg).result == Some(1)
      || (Connection(env, cfg).result.None? && ProjectsMissing(env, cfg))
  {
    if Validate(cfg).Some? then Run([], ticks, Exited(1))
    else
      var pre := Connection(env, cfg);
      match pre.result
      case Some(code) => Run(pre.calls, ticks, Exited(code))
      case None => Prefix(pre.calls, FoundGroups(env, cfg, ticks))
  }

  // ---------------------------------------------------------------------------------
  // Backup

  /** What the backup phase keeps: each backed-up project's images, and what to evict, in order. */
  datatype Saved = Saved(images: map<int, seq<string>>, evictions: seq<(ProjectInfo, seq<Repository>)>)

  /**
   * The backup of one project: nothing when it is not migrated; an archived project is
   * unarchived first (not in dry-run mode) and skipped when that fails; a project with a
   * registry is then backed up, and a failed backup is fatal.
   */
  function ProjectBackup(env: Env, cfg: Config, p: ProjectInfo, ticks: nat): Trace<Result<Option<Backup>>> {
    var unarchive := p.archived && !cfg.dryRun;
    var un := if unarchive then [Call.UnarchiveProject(p.id)] else [];
    if !ShouldMigrateProject(p, cfg.projectsList, cfg.keepParent) then Trace([], Ok(None))
    else if unarchive && ArchiveOutcome(env.unarchive(p.id), "unarchive").Fail? then Trace(un, Ok(None))
    else if !p.containerRegistryEnabled then Trace(un, Ok(None))
    else
      var b := BackupTrace(env, p.id, ticks, cfg.tagsList, cfg.dryRun);
      Trace(un + b.calls, match b.result case Err(e) => Err(e) case Ok(x) => Ok(Some(x)))
  }

  /** `s` with the backup of `p` recorded, when there is one. */
  function Record(s: Saved, p: ProjectInfo, b: Option<Backup>): Saved {
    match b
    case None => s
    case Some(x) => Saved(s.images[p.id := x.images], s.evictions + [(p, x.repositories)])
  }

  /** The backup loop of runMigration over `projects`, stopping at the first failed backup. */
  function Backups(env: Env, cfg: Config, projects: seq<ProjectInfo>, ticks: nat): Trace<Result<Saved>>
    decreases |projects|
  {
    if |projects| == 0 then Trace([], Ok(Saved(map[], [])))
    else
      var prev := Backups(env, cfg, projects[..|projects| - 1], ticks);
      if prev.result.Err? then prev
      else
        var p := projects[|projects| - 1];
        var step := ProjectBackup(env, cfg, p, ticks);
        Trace(prev.calls + step.calls,
          match step.result case Err(e) => Err(e) case Ok(b) => Ok(Record(prev.result.value, p, b)))
  }

  lemma BackupsNext(env: Env, cfg: Config, projects: seq<ProjectInfo>, i: nat, ticks: nat)
    requires i < |projects|
    requires Backups(env, cfg, projects[..i], ticks).result.Ok?
    ensures var prev := Backups(env, cfg, projects[..i], ticks);
      var step := ProjectBackup(env, cfg, projects[i], ticks);
      Backups(env, cfg, projects[..i + 1], ticks) == Trace(prev.calls + step.calls,
        match step.result case Err(e) => Err(e) case Ok(b) => Ok(Record(prev.result.value, projects[i], b)))
  {
    assert projects[..i + 1][..i] == projects[..i];
  }

  /** Once the backup of a prefix failed, the remaining projects add nothing. */
  lemma {:induction false} BackupsFailStable(env: Env, cfg: Config, projects: seq<ProjectInfo>, k: nat, ticks: nat)
    requires k <= |projects|
    requires Backups(env, cfg, projects[..k], ticks).result.Err?
    ensures Backups(env, cfg, projects, ticks) == Backups(env, cfg, projects[..k], ticks)
    decreases |projects| - k
  {
    if k < |projects| {
      assert projects[..k + 1][..k] == projects[..k];
      BackupsFailStable(env, cfg, projects, k + 1, ticks);
    } else {
      assert projects[..k] == projects;
    }
  }

  // ---------------------------------------------------------------------------------
  // Eviction and wait

  /** The eviction of the backed-up registries, project by project; nothing in dry-run mode. */
  function Evict(evictions: seq<(ProjectInfo, seq<Repository>)>, ticks: nat, dryRun: bool): Wait
    decreases |evictions|
  {
    if dryRun || |evictions| == 0 then Wait([], ticks, Pass)
    else
      var prev := Evict(evictions[..|evictions| - 1], ticks, dryRun);
      var e := evictions[|evictions| - 1];
      Wait(prev.calls + Evictions(e.0.id, e.1), prev.ticks + |e.1|, Pass)
  }

  /**
   * After the backups: the backed-up registries are evicted, the wait runs when any
   * project was backed up (a timeout ends the run with 99), and the projects move.
   */
  function AfterBackup(env: Env, cfg: Config, loc: Located, projects: seq<ProjectInfo>, saved: Saved, ticks: nat)
    : (r: Run)
    ensures r.ending in {Exited(99), Completed, Crashed}
  {
    var ev := Evict(saved.evictions, ticks, cfg.dryRun);
    var w := if |saved.images| > 0 then WaitAll(env, projects, ev.ticks, cfg.dryRun) else Wait([], ev.ticks, Pass);
    var done := ev.calls + w.calls;
    if w.result.Fail? then Run(done, w.ticks, Exited(99))
    else Prefix(done, Relocated(env, cfg, loc, projects, saved.images, w.ticks))
  }

  /** The listed projects' run: the backups (a failure ends the run with 99), then the rest. */
  function ProjectsRun(env: Env, cfg: Config, loc: Located, projects: seq<ProjectInfo>, ticks: nat): (r: Run)
    ensures r.ending in {Exited(99), Completed, Crashed}
  {
    var b := Backups(env, cfg, projects, ticks);
    match b.result
    case Err(_) => Run(b.calls, ticks, Exited(99))
    case Ok(saved) => Prefix(b.calls, AfterBackup(env, cfg, loc, projects, saved, ticks))
  }

  // ---------------------------------------------------------------------------------
  // Transfer

  /** The calls of the transfer step, the clock after it, the ending it forces if any, and the target group. */
  datatype Moved = Moved(calls: seq<Call>, ticks: nat, stop: Option<Ending>, target: Option<Group>)

  /**
   * The subgroup step AS WRITTEN in runMigration: look the subgroup up and, when the
   * lookup errs, create it under the destination. The creation goes straight to the
   * client, so it is issued in dry-run mode too.
   */
  function SubgroupMoveAsWritten(env: Env, loc: Located, ticks: nat): Moved {
    var name := SubgroupName(loc.source.path);
    var path := SubgroupPath(loc.newGroupPath, loc.source.path);
    var existing := env.searchGroup(path);
    var head := [Call.SearchGroup(path)];
    if existing.Ok? then Moved(head, ticks, None, existing.value)
    else if loc.dest.None? then Moved(head, ticks, Some(Crashed), None)
    else
      var created := env.createGroup(name, loc.dest.value.id);
      var calls := head + [Call.CreateGroup(name, loc.dest.value.id)];
      if created.Err? then Moved(calls, ticks, Some(Exited(99)), loc.dest)
      else Moved(calls, ticks, None, Some(created.value))
  }

  /**
   * The subgroup step as intended: the same, except that in dry-run mode the group is
   * not created and the destination stands in for it.
   */
  function SubgroupMove(env: Env, dryRun: bool, loc: Located, ticks: nat): (m: Moved)
    ensures !dryRun ==> m == SubgroupMoveAsWritten(env, loc, ticks)
    ensures m.ticks == ticks
  {
    var path := SubgroupPath(loc.newGroupPath, loc.source.path);
    if dryRun && env.searchGroup(path).Err? && loc.dest.Some? then Moved([Call.SearchGroup(path)], ticks, None, loc.dest)
    else SubgroupMoveAsWritten(env, loc, ticks)
  }

  /** In dry-run mode the intended subgroup step only looks the subgroup up. */
  lemma SubgroupMoveDryRun(env: Env, loc: Located, ticks: nat)
    ensures SubgroupMove(env, true, loc, ticks).calls
      == [Call.SearchGroup(SubgroupPath(loc.newGroupPath, loc.source.path))]
    ensures ReadOnly(SubgroupMove(env, true, loc, ticks).calls)
  {
  }

  /**
   * The as-written step issues a group creation in dry-run mode: whenever the subgroup
   * lookup errs and a destination exists, a mutating call is made.
   */
  lemma SubgroupDryRunCreates(env: Env, loc: Located, ticks: nat)
    requires env.searchGroup(SubgroupPath(loc.newGroupPath, loc.source.path)).Err?
    requires loc.dest.Some?
    ensures !ReadOnly(SubgroupMoveAsWritten(env, loc, ticks).calls)
    ensures Call.CreateGroup(SubgroupName(loc.source.path), loc.dest.value.id)
      in SubgroupMoveAsWritten(env, loc, ticks).calls
  {
    var m := SubgroupMoveAsWritten(env, loc, ticks);
    assert m.calls[1] == Call.CreateGroup(SubgroupName(loc.source.path), loc.dest.value.id);
    assert Mutating(m.calls[1]);
  }

  /**
   * The transfer step fails outside dry-run mode: the whole-group transfer is refused,
   * or the subgroup cannot be found and its creation under the destination errs.
   */
  predicate TransferStepFails(env: Env, cfg: Config, loc: Located) {
    && !cfg.dryRun && loc.dest.Some?
    && match Mode(cfg.keepParent, cfg.projectsList)
       case WholeGroup => TransferGroupOutcome(env.transferGroup(loc.source.id, loc.dest.value.id)).Fail?
       case IntoSubgroup =>
         && env.searchGroup(SubgroupPath(loc.newGroupPath, loc.source.path)).Err?
         && env.createGroup(SubgroupName(loc.source.path), loc.dest.value.id).Err?
       case Flatten => false
  }

  /**
   * The transfer step: the whole group moves under the destination (a failure ends the
   * run with 99, a pause follows outside dry-run mode), or the projects are headed for
   * a subgroup, or for the destination itself. A missing destination is dereferenced.
   */
  function Destination(env: Env, cfg: Config, loc: Located, ticks: nat): (m: Moved)
    ensures m.stop.Some? ==> m.stop.value in {Exited(99), Crashed}
    ensures m.stop.None? && PerProjectTransfer(cfg.keepParent, cfg.projectsList) ==> m.ticks == ticks
    ensures forall c :: c in m.calls && c.TransferGroup? ==> Mode(cfg.keepParent, cfg.projectsList).WholeGroup?
    ensures Mode(cfg.keepParent, cfg.projectsList).WholeGroup? && loc.dest.Some? && !cfg.dryRun ==>
      (m.stop == Some(Exited(99)) <==> TransferGroupOutcome(env.transferGroup(loc.source.id, loc.dest.value.id)).Fail?)
    ensures Mode(cfg.keepParent, cfg.projectsList).IntoSubgroup? && !cfg.dryRun ==>
      (m.stop == Some(Exited(99)) <==>
        && loc.dest.Some? && env.searchGroup(SubgroupPath(loc.newGroupPath, loc.source.path)).Err?
        && env.createGroup(SubgroupName(loc.source.path), loc.dest.value.id).Err?)
    ensures m.stop == Some(Exited(99)) <==> TransferStepFails(env, cfg, loc)
  {
    match Mode(cfg.keepParent, cfg.projectsList)
    case Flatten => Moved([], ticks, None, loc.dest)
    case IntoSubgroup => SubgroupMove(env, cfg.dryRun, loc, ticks)
    case WholeGroup =>
      if loc.dest.None? then Moved([], ticks, Some(Crashed), None)
      else if cfg.dryRun then Moved([], ticks, None, loc.dest)
      else
        var calls := [Call.TransferGroup(loc.source.id, loc.dest.value.id)];
        if TransferGroupOutcome(env.transferGroup(loc.source.id, loc.dest.value.id)).Fail? then
          Moved(calls, ticks, Some(Exited(99)), loc.dest)
        else Moved(calls + [Call.Sleep], ticks + 1, None, loc.dest)
  }

  // ---------------------------------------------------------------------------------
  // Restore

  /** The calls of one or more restore steps, the clock after them, and whether a panic ended them. */
  datatype Progress = Progress(calls: seq<Call>, ticks: nat, crashed: bool)

  /**
   * The restore of a project's images below the restore root, when it has any, then its
   * re-archival when it was archived; nothing in dry-run mode.
   */
  function RestoreCalls(env: Env, cfg: Config, loc: Located, images: map<int, seq<string>>, p: ProjectInfo)
    : seq<Call>
  {
    if cfg.dryRun then []
    else
      var root := RestoreRoot(cfg.keepParent, loc.newGroupPath, loc.source.path);
      (if p.id in images && |images[p.id]| > 0 then Restores(env, Rewrites(images[p.id], loc.source.fullPath, root)) else [])
      + (if p.archived then [Call.ArchiveProject(p.id)] else [])
  }

  /**
   * The restore step of one project: nothing when it is not migrated; a transfer to the
   * target when the projects move one by one (a missing target is dereferenced; a
   * failure skips the rest of this project; a pause follows outside dry-run mode); then
   * the restore of its images and its re-archival.
   */
  function ProjectRestore(env: Env, cfg: Config, loc: Located, target: Option<Group>,
    images: map<int, seq<string>>, p: ProjectInfo, ticks: nat): Progress
  {
    if !ShouldMigrateProject(p, cfg.projectsList, cfg.keepParent) then Progress([], ticks, false)
    else if !PerProjectTransfer(cfg.keepParent, cfg.projectsList) then
      Progress(RestoreCalls(env, cfg, loc, images, p), ticks, false)
    else if target.None? then Progress([], ticks, true)
    else if cfg.dryRun then Progress([], ticks, false)
    else
      var moved := [Call.TransferProject(p.id, target.value.id)];
      if TransferOutcome(env.transferProject(p.id, target.value.id)).Fail? then Progress(moved, ticks, false)
      else Progress(moved + [Call.Sleep] + RestoreCalls(env, cfg, loc, images, p), ticks + 1, false)
  }

  /** The restore loop of runMigration over `projects`; a panic ends it. */
  function Restored(env: Env, cfg: Config, loc: Located, target: Option<Group>,
    images: map<int, seq<string>>, projects: seq<ProjectInfo>, ticks: nat): Progress
    decreases |projects|
  {
    if |projects| == 0 then Progress([], ticks, false)
    else
      var prev := Restored(env, cfg, loc, target, images, projects[..|projects| - 1], ticks);
      if prev.crashed then prev
      else
        var step := ProjectRestore(env, cfg, loc, target, images, projects[|projects| - 1], prev.ticks);
        Progress(prev.calls + step.calls, step.ticks, step.crashed)
  }

  lemma RestoredNext(env: Env, cfg: Config, loc: Located, target: Option<Group>,
    images: map<int, seq<string>>, projects: seq<ProjectInfo>, i: nat, ticks: nat)
    requires i < |projects|
    requires !Restored(env, cfg, loc, target, images, projects[..i], ticks).crashed
    ensures var prev := Restored(env, cfg, loc, target, images, projects[..i], ticks);
      var step := ProjectRestore(env, cfg, loc, target, images, projects[i], prev.ticks);
      Restored(env, cfg, loc, target, images, projects[..i + 1], ticks)
        == Progress(prev.calls + step.calls, step.ticks, step.crashed)
  {
    assert projects[..i + 1][..i] == projects[..i];
  }

  /** Once a prefix of the restore loop panicked, the remaining projects add nothing. */
  lemma {:induction false} RestoredCrashStable(env: Env, cfg: Config, loc: Located, target: Option<Group>,
    images: map<int, seq<string>>, projects: seq<ProjectInfo>, k: nat, ticks: nat)
    requires k <= |projects|
    requires Restored(env, cfg, loc, target, images, projects[..k], ticks).crashed
    ensures Restored(env, cfg, loc, target, images, projects, ticks)
      == Restored(env, cfg, loc, target, images, projects[..k], ticks)
    decreases |projects| - k
  {
    if k < |projects| {
      assert projects[..k + 1][..k] == projects[..k];
      RestoredCrashStable(env, cfg, loc, target, images, projects, k + 1, ticks);
    } else {
      assert projects[..k] == projects;
    }
  }

  /** The transfer step, then the restore loop; the run completes unless something panicked. */
  function Relocated(env: Env, cfg: Config, loc: Located, projects: seq<ProjectInfo>,
    images: map<int, seq<string>>, ticks: nat): (r: Run)
    ensures r.ending in {Exited(99), Completed, Crashed}
  {
    var m := Destination(env, cfg, loc, ticks);
    match m.stop
    case Some(e) => Run(m.calls, m.ticks, e)
    case None =>
      var rs := Restored(env, cfg, loc, m.target, images, projects, m.ticks);
      Run(m.calls + rs.calls, rs.ticks, if rs.crashed then Crashed else Completed)
  }

  // ---------------------------------------------------------------------------------
  // Safety of the run

  /** The backup loop moves no group and no project. */
  lemma {:induction false} BackupsStationary(env: Env, cfg: Config, projects: seq<ProjectInfo>, ticks: nat)
    ensures Stationary(Backups(env, cfg, projects, ticks).calls)
    decreases |projects|
  {
    if |projects| > 0 {
      var prev := Backups(env, cfg, projects[..|projects| - 1], ticks);
      BackupsStationary(env, cfg, projects[..|projects| - 1], ticks);
      if prev.result.Ok? {
        var p := projects[|projects| - 1];
        var un := if p.archived && !cfg.dryRun then [Call.UnarchiveProject(p.id)] else [];
        BackupTraceStationary(env, p.id, ticks, cfg.tagsList, cfg.dryRun);
        StationaryAppend(un, BackupTrace(env, p.id, ticks, cfg.tagsList, cfg.dryRun).calls);
        StationaryAppend(prev.calls, ProjectBackup(env, cfg, p, ticks).calls);
      }
    }
  }

  lemma {:induction false} EvictStationary(evictions: seq<(ProjectInfo, seq<Repository>)>, ticks: nat, dryRun: bool)
    ensures Stationary(Evict(evictions, ticks, dryRun).calls)
    decreases |evictions|
  {
    if !dryRun && |evictions| > 0 {
      var e := evictions[|evictions| - 1];
      EvictStationary(evictions[..|evictions| - 1], ticks, dryRun);
      EvictionsStationary(e.0.id, e.1);
      StationaryAppend(Evict(evictions[..|evictions| - 1], ticks, dryRun).calls, Evictions(e.0.id, e.1));
    }
  }

  /** A failed backup ends the run with 99 before any group or project has moved. */
  lemma BackupFailureMovesNothing(env: Env, cfg: Config, loc: Located, projects: seq<ProjectInfo>, ticks: nat)
    requires Backups(env, cfg, projects, ticks).result.Err?
    ensures ProjectsRun(env, cfg, loc, projects, ticks).ending == Exited(99)
    ensures Stationary(ProjectsRun(env, cfg, loc, projects, ticks).calls)
  {
    BackupsStationary(env, cfg, projects, ticks);
  }

  /**
   * The transfer step ends the run with 99 exactly when it fails: the failed request is
   * its last call, and no project is transferred, restored or re-archived after it.
   */
  lemma TransferFailureExits(env: Env, cfg: Config, loc: Located, projects: seq<ProjectInfo>,
    images: map<int, seq<string>>, ticks: nat)
    ensures Relocated(env, cfg, loc, projects, images, ticks).ending == Exited(99) <==> TransferStepFails(env, cfg, loc)
    ensures TransferStepFails(env, cfg, loc) ==>
      Relocated(env, cfg, loc, projects, images, ticks).calls == Destination(env, cfg, loc, ticks).calls
  {
    var m := Destination(env, cfg, loc, ticks);
    if m.stop.None? {
      var rs := Restored(env, cfg, loc, m.target, images, projects, m.ticks);
      assert Relocated(env, cfg, loc, projects, images, ticks).ending == (if rs.crashed then Crashed else Completed);
    }
  }

  /** A wait that runs out of retries ends the run with 99 before any group or project has moved. */
  lemma WaitFailureMovesNothing(env: Env, cfg: Config, loc: Located, projects: seq<ProjectInfo>,
    saved: Saved, ticks: nat)
    requires |saved.images| > 0
    requires WaitAll(env, projects, Evict(saved.evictions, ticks, cfg.dryRun).ticks, cfg.dryRun).result.Fail?
    ensures AfterBackup(env, cfg, loc, projects, saved, ticks).ending == Exited(99)
    ensures Stationary(AfterBackup(env, cfg, loc, projects, saved, ticks).calls)
  {
    var ev := Evict(saved.evictions, ticks, cfg.dryRun);
    EvictStationary(saved.evictions, ticks, cfg.dryRun);
    WaitAllStationary(env, projects, ev.ticks, cfg.dryRun);
    StationaryAppend(ev.calls, WaitAll(env, projects, ev.ticks, cfg.dryRun).calls);
  }

  /**
   * The phases of one project's backup step: a skipped project issues nothing; an
   * archived project is unarchived first (outside dry-run mode); its registry is backed
   * up exactly when it has one and the unarchive did not fail.
   */
  lemma ProjectBackupOrder(env: Env, cfg: Config, p: ProjectInfo, ticks: nat)
    ensures var t := ProjectBackup(env, cfg, p, ticks);
      t.calls != [] ==> ShouldMigrateProject(p, cfg.projectsList, cfg.keepParent)
    ensures var t := ProjectBackup(env, cfg, p, ticks);
      ShouldMigrateProject(p, cfg.projectsList, cfg.keepParent) && p.archived && !cfg.dryRun ==>
        |t.calls| > 0 && t.calls[0] == Call.UnarchiveProject(p.id)
    ensures var t := ProjectBackup(env, cfg, p, ticks);
      Call.ListRepositories(p.id) in t.calls <==>
        && ShouldMigrateProject(p, cfg.projectsList, cfg.keepParent) && p.containerRegistryEnabled
        && !(p.archived && !cfg.dryRun && ArchiveOutcome(env.unarchive(p.id), "unarchive").Fail?)
    ensures var t := ProjectBackup(env, cfg, p, ticks);
      t.result.Err? ==> Call.ListRepositories(p.id) in t.calls
  {
    var unarchive := p.archived && !cfg.dryRun;
    var un := if unarchive then [Call.UnarchiveProject(p.id)] else [];
    if ShouldMigrateProject(p, cfg.projectsList, cfg.keepParent) && p.containerRegistryEnabled
      && !(unarchive && ArchiveOutcome(env.unarchive(p.id), "unarchive").Fail?)
    {
      var b := BackupTrace(env, p.id, ticks, cfg.tagsList, cfg.dryRun);
      assert b.calls[0] == Call.ListRepositories(p.id);
      assert (un + b.calls)[|un|] == Call.ListRepositories(p.id);
    }
  }

  /**
   * The phases of one project's restore step: a skipped project issues nothing and a
   * dry run issues nothing; moving projects one by one, the transfer comes first and a
   * missing target panics; the project is re-archived exactly when it was archived and
   * its own transfer, if any, succeeded.
   */
  lemma ProjectRestoreOrder(env: Env, cfg: Config, loc: Located, target: Option<Group>,
    images: map<int, seq<string>>, p: ProjectInfo, ticks: nat)
    ensures var s := ProjectRestore(env, cfg, loc, target, images, p, ticks);
      s.calls != [] ==> ShouldMigrateProject(p, cfg.projectsList, cfg.keepParent) && !cfg.dryRun
    ensures var s := ProjectRestore(env, cfg, loc, target, images, p, ticks);
      s.crashed <==>
        ShouldMigrateProject(p, cfg.projectsList, cfg.keepParent)
        && PerProjectTransfer(cfg.keepParent, cfg.projectsList) && target.None?
    ensures var s := ProjectRestore(env, cfg, loc, target, images, p, ticks);
      PerProjectTransfer(cfg.keepParent, cfg.projectsList) && s.calls != [] ==>
        target.Some? && s.calls[0] == Call.TransferProject(p.id, target.value.id)
    ensures var s := ProjectRestore(env, cfg, loc, target, images, p, ticks);
      Call.ArchiveProject(p.id) in s.calls <==>
        && ShouldMigrateProject(p, cfg.projectsList, cfg.keepParent) && p.archived && !cfg.dryRun
        && (PerProjectTransfer(cfg.keepParent, cfg.projectsList) ==>
              target.Some? && TransferOutcome(env.transferProject(p.id, target.value.id)).Pass?)
  {
    var s := ProjectRestore(env, cfg, loc, target, images, p, ticks);
    if !cfg.dryRun {
      var root := RestoreRoot(cfg.keepParent, loc.newGroupPath, loc.source.path);
      var restores := if p.id in images && |images[p.id]| > 0 then Restores(env, Rewrites(images[p.id], loc.source.fullPath, root)) else [];
      if p.id in images && |images[p.id]| > 0 {
        RestoresOnlyImages(env, Rewrites(images[p.id], loc.source.fullPath, root));
      }
      assert Call.ArchiveProject(p.id) !in restores;
      var arch := if p.archived then [Call.ArchiveProject(p.id)] else [];
      assert RestoreCalls(env, cfg, loc, images, p) == restores + arch;
      assert Call.ArchiveProject(p.id) in RestoreCalls(env, cfg, loc, images, p) <==> p.archived;
    }
  }

  /** In dry-run mode the backup loop only reads. */
  lemma {:induction false} BackupsDryRun(env: Env, cfg: Config, projects: seq<ProjectInfo>, ticks: nat)
    requires cfg.dryRun
    ensures ReadOnly(Backups(env, cfg, projects, ticks).calls)
    decreases |projects|
  {
    if |projects| > 0 {
      var prev := Backups(env, cfg, projects[..|projects| - 1], ticks);
      BackupsDryRun(env, cfg, projects[..|projects| - 1], ticks);
      if prev.result.Ok? {
        var p := projects[|projects| - 1];
        BackupDryRun(env, p.id, ticks, cfg.tagsList);
        ReadOnlyAppend(prev.calls, ProjectBackup(env, cfg, p, ticks).calls);
      }
    }
  }

  /** In dry-run mode the restore loop issues nothing and never pauses. */
  lemma {:induction false} RestoredDryRun(env: Env, cfg: Config, loc: Located, target: Option<Group>,
    images: map<int, seq<string>>, projects: seq<ProjectInfo>, ticks: nat)
    requires cfg.dryRun
    ensures Restored(env, cfg, loc, target, images, projects, ticks).calls == []
    ensures Restored(env, cfg, loc, target, images, projects, ticks).ticks == ticks
    decreases |projects|
  {
    if |projects| > 0 {
      RestoredDryRun(env, cfg, loc, target, images, projects[..|projects| - 1], ticks);
    }
  }

  /** In dry-run mode the transfer step only looks groups up. */
  lemma DestinationDryRun(env: Env, cfg: Config, loc: Located, ticks: nat)
    requires cfg.dryRun
    ensures ReadOnly(Destination(env, cfg, loc, ticks).calls)
    ensures Destination(env, cfg, loc, ticks).ticks == ticks
  {
    if Mode(cfg.keepParent, cfg.projectsList).IntoSubgroup? {
      SubgroupMoveDryRun(env, loc, ticks);
    }
  }

  /** In dry-run mode the listed projects' run only reads and never pauses. */
  lemma ProjectsRunDryRun(env: Env, cfg: Config, loc: Located, projects: seq<ProjectInfo>, ticks: nat)
    requires cfg.dryRun
    ensures ReadOnly(ProjectsRun(env, cfg, loc, projects, ticks).calls)
    ensures ProjectsRun(env, cfg, loc, projects, ticks).ticks == ticks
  {
    var b := Backups(env, cfg, projects, ticks);
    BackupsDryRun(env, cfg, projects, ticks);
    if b.result.Ok? {
      var saved := b.result.value;
      WaitAllDryRun(env, projects, ticks);
      var m := Destination(env, cfg, loc, ticks);
      DestinationDryRun(env, cfg, loc, ticks);
      RestoredDryRun(env, cfg, loc, m.target, saved.images, projects, ticks);
      assert m.calls + [] == m.calls;
      var r := AfterBackup(env, cfg, loc, projects, saved, ticks);
      assert r.calls == m.calls;
      ReadOnlyAppend(b.calls, r.calls);
    }
  }

  /** In dry-run mode the lookups and everything after them only read. */
  lemma ListingDryRun(env: Env, cfg: Config, source: Group, newGroupPath: string, dest: Option<Group>, ticks: nat)
    requires cfg.dryRun
    ensures ReadOnly(Listing(env, cfg, source, newGroupPath, dest, ticks).calls)
    ensures Listing(env, cfg, source, newGroupPath, dest, ticks).ticks == ticks
  {
    var listed := ListProjectsResult(env.listProjects(source.id), cfg.projectsList);
    if listed.Ok? && |listed.value| > 0 {
      var loc := Located(source, newGroupPath, dest);
      ProjectsRunDryRun(env, cfg, loc, listed.value, ticks);
      ReadOnlyAppend([Call.ListProjects(source.id)], ProjectsRun(env, cfg, loc, listed.value, ticks).calls);
    }
  }

  lemma LookupsDryRun(env: Env, cfg: Config, source: Group, ticks: nat)
    requires cfg.dryRun
    ensures ReadOnly(Lookups(env, cfg, source, ticks).calls)
    ensures Lookups(env, cfg, source, ticks).ticks == ticks
  {
    var newGroupPath := DestinationPath(cfg.newGroupName);
    var dest := SearchOutcome(newGroupPath, env.searchGroup(newGroupPath));
    if dest.Ok? {
      ListingDryRun(env, cfg, source, newGroupPath, dest.value, ticks);
      ReadOnlyAppend([Call.SearchGroup(newGroupPath)], Listing(env, cfg, source, newGroupPath, dest.value, ticks).calls);
    }
  }

  lemma FoundGroupsDryRun(env: Env, cfg: Config, ticks: nat)
    requires cfg.dryRun
    ensures ReadOnly(FoundGroups(env, cfg, ticks).calls)
    ensures FoundGroups(env, cfg, ticks).ticks == ticks
  {
    var found := SearchOutcome(cfg.oldGroupName, env.searchGroup(cfg.oldGroupName));
    if found.Ok? && found.value.Some? {
      var source := found.value.value;
      LookupsDryRun(env, cfg, source, ticks);
      ReadOnlyAppend([Call.SearchGroup(cfg.oldGroupName)], Lookups(env, cfg, source, ticks).calls);
    }
  }

  /**
   * A dry run is read-only: whatever the platform replies, the whole run issues no
   * call that changes anything and never pauses.
   */
  lemma DryRunReadOnly(env: Env, cfg: Config, ticks: nat)
    requires cfg.dryRun
    ensures ReadOnly(Migration(env, cfg, ticks).calls)
    ensures Migration(env, cfg, ticks).ticks == ticks
  {
    if Validate(cfg).None? {
      var pre := Connection(env, cfg);
      if pre.result.None? {
        FoundGroupsDryRun(env, cfg, ticks);
        ReadOnlyAppend(pre.calls, FoundGroups(env, cfg, ticks).calls);
      }
    }
  }

  /** A dry run requested in the loaded settings stays one after the flags and defaults. */
  lemma PreparedDryRunReadOnly(env: Env, loaded: Config, keepParentFlag: bool,
    projectsStr: string, tagsStr: string, ticks: nat)
    requires loaded.dryRun
    ensures ReadOnly(Migration(env, Prepared(loaded, keepParentFlag, projectsStr, tagsStr), ticks).calls)
    ensures Migration(env, Prepared(loaded, keepParentFlag, projectsStr, tagsStr), ticks).ticks == ticks
  {
    DryRunReadOnly(env, Prepared(loaded, keepParentFlag, projectsStr, tagsStr), ticks);
  }

  // ---------------------------------------------------------------------------------
  // The pipeline

  /**
   * runMigration: a configuration that cannot be loaded ends the run with 1; otherwise
   * the run issues exactly the calls of `Migration` for the prepared settings.
   */
  method RunMigration(platform: Platform, loaded: Result<Config>, keepParentFlag: bool,
    projectsStr: string, tagsStr: string) returns (ending: Ending)
    modifies platform
    ensures loaded.Err? ==>
      ending == Exited(1) && platform.log == old(platform.log) && platform.ticks == old(platform.ticks)
    ensures loaded.Ok? ==>
      var r := Migration(platform.env, Prepared(loaded.value, keepParentFlag, projectsStr, tagsStr), old(platform.ticks));
      platform.log == old(platform.log) + r.calls && platform.ticks == r.ticks && ending == r.ending
  {
    if loaded.Err? {
      return Exited(1);
    }
    var cfg := PrepareConfig(loaded.value, keepParentFlag, projectsStr, tagsStr);
    if Validate(cfg).Some? {
      return Exited(1);
    }
    var code := Connect(platform, cfg);
    if code.Some? {
      return Exited(code.value);
    }
    ghost var pre := Connection(platform.env, cfg);
    ghost var rest := FoundGroups(platform.env, cfg, platform.ticks);
    var runner := new Runner(platform, cfg);
    ending := runner.FindGroups();
    ConcatAssoc(old(platform.log), pre.calls, rest.calls);
  }

  /** The state of runMigration once the clients are up: the settings and the three migrators. */
  class Runner {
    const platform: Platform
    const cfg: Config
    const groupMigrator: GroupMigrator
    const projectMigrator: ProjectMigrator
    const imageMigrator: ImageMigrator

    /** The migrators work against the run's platform, in the run's dry-run mode. */
    predicate Wired() {
      && groupMigrator.platform == platform && groupMigrator.dryRun == cfg.dryRun
      && projectMigrator.platform == platform && projectMigrator.dryRun == cfg.dryRun
      && imageMigrator.platform == platform && imageMigrator.dryRun == cfg.dryRun
    }

    constructor (platform: Platform, cfg: Config)
      ensures this.platform == platform && this.cfg == cfg && Wired()
    {
      this.platform := platform;
      this.cfg := cfg;
      groupMigrator := new GroupMigrator(platform, cfg.dryRun);
      projectMigrator := new ProjectMigrator(platform, cfg.dryRun);
      imageMigrator := new ImageMigrator(platform, cfg.dryRun);
    }

    /** The group lookups and the project listing, then the projects' run. */
    method FindGroups() returns (ending: Ending)
      requires Wired()
      modifies platform
      ensures var r := FoundGroups(platform.env, cfg, old(platform.ticks));
        platform.log == old(platform.log) + r.calls && platform.ticks == r.ticks && ending == r.ending
    {
      var found := groupMigrator.SearchGroup(cfg.oldGroupName);
      if found.Err? || found.value.None? {
        return Exited(321);
      }
      ghost var rest := Lookups(platform.env, cfg, found.value.value, platform.ticks);
      ending := FindDestination(found.value.value);
      ConcatAssoc(old(platform.log), [Call.SearchGroup(cfg.oldGroupName)], rest.calls);
    }

    /** The destination lookup and the project listing, then the projects' run. */
    method FindDestination(source: Group) returns (ending: Ending)
      requires Wired()
      modifies platform
      ensures var r := Lookups(platform.env, cfg, source, old(platform.ticks));
        platform.log == old(platform.log) + r.calls && platform.ticks == r.ticks && ending == r.ending
    {
      var newGroupPath := DestinationPath(cfg.newGroupName);
      var dest := groupMigrator.SearchGroup(newGroupPath);
      if dest.Err? {
        return Exited(99);
      }
      ghost var rest := Listing(platform.env, cfg, source, newGroupPath, dest.value, platform.ticks);
      ending := ListAndMigrate(source, newGroupPath, dest.value);
      ConcatAssoc(old(platform.log), [Call.SearchGroup(newGroupPath)], rest.calls);
    }

    /** The listing of the source's projects, then the projects' run. */
    method ListAndMigrate(source: Group, newGroupPath: string, dest: Option<Group>) returns (ending: Ending)
      requires Wired()
      modifies platform
      ensures var r := Listing(platform.env, cfg, source, newGroupPath, dest, old(platform.ticks));
        platform.log == old(platform.log) + r.calls && platform.ticks == r.ticks && ending == r.ending
    {
      var listed := projectMigrator.ListProjects(source.id, cfg.projectsList);
      if listed.Err? || |listed.value| == 0 {
        return Exited(1);
      }
      var loc := Located(source, newGroupPath, dest);
      ghost var rest := ProjectsRun(platform.env, cfg, loc, listed.value, platform.ticks);
      ending := MigrateProjects(loc, listed.value);
      ConcatAssoc(old(platform.log), [Call.ListProjects(source.id)], rest.calls);
    }

    /** The backup loop, then eviction, wait, transfer and restore. */
    method MigrateProjects(loc: Located, projects: seq<ProjectInfo>) returns (ending: Ending)
      requires Wired()
      modifies platform
      ensures var r := ProjectsRun(platform.env, cfg, loc, projects, old(platform.ticks));
        platform.log == old(platform.log) + r.calls && platform.ticks == r.ticks && ending == r.ending
    {
      ghost var b := Backups(platform.env, cfg, projects, platform.ticks);
      var saved := BackupProjects(projects);
      if saved.Err? {
        return Exited(99);
      }
      ghost var rest := AfterBackup(platform.env, cfg, loc, projects, saved.value, platform.ticks);
      ending := EvictAndWait(loc, projects, saved.value);
      ConcatAssoc(old(platform.log), b.calls, rest.calls);
    }

    /** The backup loop of runMigration: a failed backup ends it. */
    method BackupProjects(projects: seq<ProjectInfo>) returns (r: Result<Saved>)
      requires Wired()
      modifies platform
      ensures var b := Backups(platform.env, cfg, projects, old(platform.ticks));
        platform.log == old(platform.log) + b.calls && r == b.result
      ensures platform.ticks == old(platform.ticks)
    {
      var env := platform.env;
      ghost var t0 := platform.ticks;
      var projectImages: map<int, seq<string>> := map[];
      var evictions: seq<(ProjectInfo, seq<Repository>)> := [];
      for i := 0 to |projects|
        invariant platform.ticks == t0
        invariant Backups(env, cfg, projects[..i], t0).result == Ok(Saved(projectImages, evictions))
        invariant platform.log == old(platform.log) + Backups(env, cfg, projects[..i], t0).calls
      {
        ghost var prev := Backups(env, cfg, projects[..i], t0);
        ghost var step := ProjectBackup(env, cfg, projects[i], t0);
        BackupsNext(env, cfg, projects, i, t0);
        var b := BackupProject(projects[i]);
        ConcatAssoc(old(platform.log), prev.calls, step.calls);
        if b.Err? {
          BackupsFailStable(env, cfg, projects, i + 1, t0);
          return Err(b.error);
        }
        if b.value.Some? {
          projectImages := projectImages[projects[i].id := b.value.value.images];
          evictions := evictions + [(projects[i], b.value.value.repositories)];
        }
      }
      assert projects[..|projects|] == projects;
      return Ok(Saved(projectImages, evictions));
    }

    /** The body of the backup loop for one project. */
    method BackupProject(p: ProjectInfo) returns (r: Result<Option<Backup>>)
      requires Wired()
      modifies platform
      ensures var t := ProjectBackup(platform.env, cfg, p, old(platform.ticks));
        platform.log == old(platform.log) + t.calls && r == t.result
      ensures platform.ticks == old(platform.ticks)
    {
      if !ShouldMigrateProject(p, cfg.projectsList, cfg.keepParent) {
        return Ok(None);
      }
      if p.archived {
        var err := projectMigrator.UnarchiveProject(p.path, p.id);
        if err.Fail? {
          return Ok(None);
        }
      }
      if p.containerRegistryEnabled {
        ghost var before := platform.log;
        var b := imageMigrator.BackupImages(p, cfg.tagsList);
        ghost var t := BackupTrace(platform.env, p.id, platform.ticks, cfg.tagsList, cfg.dryRun);
        assert before == old(platform.log) + (if p.archived && !cfg.dryRun then [Call.UnarchiveProject(p.id)] else []);
        ConcatAssoc(old(platform.log), if p.archived && !cfg.dryRun then [Call.UnarchiveProject(p.id)] else [], t.calls);
        if b.Err? {
          return Err(b.error);
        }
        return Ok(Some(b.value));
      }
      return Ok(None);
    }

    /** The eviction of the backed-up registries, the wait when anything was backed up, then the moves. */
    method EvictAndWait(loc: Located, projects: seq<ProjectInfo>, saved: Saved) returns (ending: Ending)
      requires Wired()
      modifies platform
      ensures var r := AfterBackup(platform.env, cfg, loc, projects, saved, old(platform.ticks));
        platform.log == old(platform.log) + r.calls && platform.ticks == r.ticks && ending == r.ending
    {
      var env := platform.env;
      ghost var ev := Evict(saved.evictions, platform.ticks, cfg.dryRun);
      EvictAll(saved.evictions);
      ghost var w := if |saved.images| > 0 then WaitAll(env, projects, ev.ticks, cfg.dryRun) else Wait([], ev.ticks, Pass);
      if |saved.images| > 0 {
        var waited := imageMigrator.CheckIfRemainingImages(projects, cfg.tagsList);
        ConcatAssoc(old(platform.log), ev.calls, w.calls);
        if waited.Fail? {
          return Exited(99);
        }
      } else {
        assert ev.calls + w.calls == ev.calls;
      }
      ghost var rest := Relocated(env, cfg, loc, projects, saved.images, w.ticks);
      ending := Relocate(loc, projects, saved.images);
      ConcatAssoc(old(platform.log), ev.calls + w.calls, rest.calls);
    }

    /** DeleteRegistries for each backed-up project, in backup order. */
    method EvictAll(evictions: seq<(ProjectInfo, seq<Repository>)>)
      requires Wired()
      modifies platform
      ensures var ev := Evict(evictions, old(platform.ticks), cfg.dryRun);
        platform.log == old(platform.log) + ev.calls && platform.ticks == ev.ticks
    {
      ghost var t0 := platform.ticks;
      for i := 0 to |evictions|
        invariant var ev := Evict(evictions[..i], t0, cfg.dryRun);
          platform.log == old(platform.log) + ev.calls && platform.ticks == ev.ticks
      {
        assert evictions[..i + 1][..i] == evictions[..i];
        ghost var prev := Evict(evictions[..i], t0, cfg.dryRun);
        var e := evictions[i];
        var deleted := imageMigrator.DeleteRegistries(e.0, e.1);
        ConcatAssoc(old(platform.log), prev.calls, Evictions(e.0.id, e.1));
      }
      assert evictions[..|evictions|] == evictions;
    }

    /** The transfer step, then the restore loop. */
    method Relocate(loc: Located, projects: seq<ProjectInfo>, images: map<int, seq<string>>) returns (ending: Ending)
      requires Wired()
      modifies platform
      ensures var r := Relocated(platform.env, cfg, loc, projects, images, old(platform.ticks));
        platform.log == old(platform.log) + r.calls && platform.ticks == r.ticks && ending == r.ending
    {
      ghost var m := Destination(platform.env, cfg, loc, platform.ticks);
      var stop, target := TransferToDestination(loc);
      if stop.Some? {
        return stop.value;
      }
      ghost var rs := Restored(platform.env, cfg, loc, target, images, projects, platform.ticks);
      var crashed := RestoreProjects(loc, target, projects, images);
      ConcatAssoc(old(platform.log), m.calls, rs.calls);
      ending := if crashed then Crashed else Completed;
    }

    /**
     * The transfer step of runMigration: with the parent kept, the whole group or, with a
     * project list, the projects' subgroup; the target group of the project transfers.
     */
    method TransferToDestination(loc: Located) returns (stop: Option<Ending>, target: Option<Group>)
      requires Wired()
      modifies platform
      ensures var m := Destination(platform.env, cfg, loc, old(platform.ticks));
        platform.log == old(platform.log) + m.calls && platform.ticks == m.ticks
        && stop == m.stop && target == m.target
    {
      if cfg.keepParent {
        if |cfg.projectsList| == 0 {
          if loc.dest.None? {
            return Some(Crashed), None;
          }
          var err := groupMigrator.TransferGroup(loc.source.id, loc.dest.value.id);
          if err.Fail? {
            return Some(Exited(99)), loc.dest;
          }
          if !cfg.dryRun {
            platform.Sleep();
          }
          return None, loc.dest;
        }
        stop, target := MoveIntoSubgroup(loc);
        return;
      }
      return None, loc.dest;
    }

    /**
     * The subgroup step: the last segment of the old path is looked up below the
     * destination and created there when the lookup errs (not in dry-run mode).
     */
    method MoveIntoSubgroup(loc: Located) returns (stop: Option<Ending>, target: Option<Group>)
      requires Wired()
      modifies platform
      ensures var m := SubgroupMove(platform.env, cfg.dryRun, loc, old(platform.ticks));
        platform.log == old(platform.log) + m.calls && platform.ticks == m.ticks
        && stop == m.stop && target == m.target
    {
      var oldPathParts := Split(loc.source.path, '/');
      var simplePath := oldPathParts[|oldPathParts| - 1];
      SplitLast(loc.source.path, '/');
      var newGroupFullPath := loc.newGroupPath + "/" + simplePath;
      assert newGroupFullPath == SubgroupPath(loc.newGroupPath, loc.source.path);
      ghost var reply := platform.env.searchGroup(newGroupFullPath);
      var existing := groupMigrator.SearchGroup(newGroupFullPath);
      assert existing.Ok? <==> reply.Ok?;
      if existing.Ok? {
        return None, existing.value;
      }
      if loc.dest.None? {
        return Some(Crashed), None;
      }
      if cfg.dryRun {
        return None, loc.dest;
      }
      var created := platform.CreateGroup(simplePath, loc.dest.value.id);
      if created.Err? {
        return Some(Exited(99)), loc.dest;
      }
      return None, Some(created.value);
    }

    /** The restore loop of runMigration: a panic ends it. */
    method RestoreProjects(loc: Located, target: Option<Group>, projects: seq<ProjectInfo>,
      images: map<int, seq<string>>) returns (crashed: bool)
      requires Wired()
      modifies platform
      ensures var rs := Restored(platform.env, cfg, loc, target, images, projects, old(platform.ticks));
        platform.log == old(platform.log) + rs.calls && platform.ticks == rs.ticks && crashed == rs.crashed
    {
      var env := platform.env;
      ghost var t0 := platform.ticks;
      for i := 0 to |projects|
        invariant var rs := Restored(env, cfg, loc, target, images, projects[..i], t0);
          platform.log == old(platform.log) + rs.calls && platform.ticks == rs.ticks && !rs.crashed
      {
        ghost var prev := Restored(env, cfg, loc, target, images, projects[..i], t0);
        ghost var step := ProjectRestore(env, cfg, loc, target, images, projects[i], prev.ticks);
        RestoredNext(env, cfg, loc, target, images, projects, i, t0);
        var c := RestoreProject(loc, target, images, projects[i]);
        ConcatAssoc(old(platform.log), prev.calls, step.calls);
        if c {
          RestoredCrashStable(env, cfg, loc, target, images, projects, i + 1, t0);
          return true;
        }
      }
      assert projects[..|projects|] == projects;
      return false;
    }

    /** The body of the restore loop for one project. */
    method RestoreProject(loc: Located, target: Option<Group>, images: map<int, seq<string>>, p: ProjectInfo)
      returns (crashed: bool)
      requires Wired()
      modifies platform
      ensures var s := ProjectRestore(platform.env, cfg, loc, target, images, p, old(platform.ticks));
        platform.log == old(platform.log) + s.calls && platform.ticks == s.ticks && crashed == s.crashed
    {
      if !ShouldMigrateProject(p, cfg.projectsList, cfg.keepParent) {
        return false;
      }
      if !cfg.keepParent || |cfg.projectsList| > 0 {
        if target.None? {
          return true;
        }
        var err := projectMigrator.TransferProject(p.path, p.id, target.value.id);
        if err.Fail? {
          return false;
        }
        if !cfg.dryRun {
          platform.Sleep();
          ghost var moved := [Call.TransferProject(p.id, target.value.id)] + [Call.Sleep];
          assert platform.log == old(platform.log) + moved;
          RestoreAndArchive(loc, images, p);
          ConcatAssoc(old(platform.log), moved, RestoreCalls(platform.env, cfg, loc, images, p));
          return false;
        }
      }
      RestoreAndArchive(loc, images, p);
      return false;
    }

    /**
     * The image restore and the re-archival of one project. RestoreImages never reports
     * an error, so the early exit after it is never taken and is not modelled.
     */
    method RestoreAndArchive(loc: Located, images: map<int, seq<string>>, p: ProjectInfo)
      requires Wired()
      modifies platform
      ensures platform.log == old(platform.log) + RestoreCalls(platform.env, cfg, loc, images, p)
      ensures platform.ticks == old(platform.ticks)
    {
      ghost var restored := platform.log;
      if p.id in images && |images[p.id]| > 0 {
        var newPath := if cfg.keepParent then loc.newGroupPath + "/" + loc.source.path else loc.newGroupPath;
        var err := imageMigrator.RestoreImages(images[p.id], loc.source.fullPath, newPath, cfg.keepParent);
        restored := platform.log;
      }
      if p.archived {
        var err := projectMigrator.ArchiveProject(p.path, p.id);
      }
      ghost var r := restored[|old(platform.log)|..];
      ghost var a := platform.log[|restored|..];
      ConcatAssoc(old(platform.log), r, a);
    }
  }
}
