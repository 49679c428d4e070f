/**
 * Image operations of the migration: listing a repository's tags through the tag
 * filter, backing the images up (pull), deleting the source registry repositories,
 * waiting for the deletion to become visible, restoring the images under the new
 * path (tag and push), and collecting every image for the interactive cleaner.
 *
 * Each operation is a method of `ImageMigrator` whose contract ties the calls it
 * issues and its result to a function of the environment; the lemmas below are about
 * those functions.
 */
module Images {
  import opened Wrappers
  import opened Strings
  import opened Platform
  import opened Projects
  import UI = ImageSelector

  /** A tag kept by the tag filter. */
  datatype ImageInfo = ImageInfo(name: string, path: string, location: string)

  /** A sequence of calls together with the result it ends in. */
  datatype Trace<T> = Trace(calls: seq<Call>, result: T)

  /** What BackupImages returns: the image references it backed up, and the repositories listed. */
  datatype Backup = Backup(images: seq<string>, repositories: seq<Repository>)

  /** The tag filter: an empty filter keeps every tag, otherwise it names tags. */
  predicate TagSelected(name: string, filter: seq<string>) {
    |filter| == 0 || name in filter
  }

  /** The copy GetImages makes of a tag. */
  function Image(t: Tag): ImageInfo {
    ImageInfo(t.name, t.path, t.location)
  }

  /** The images GetImages returns for the tag listing `tags`, in listing order. */
  function Retained(tags: seq<Tag>, filter: seq<string>): seq<ImageInfo> {
    if |tags| == 0 then []
    else
      var last := tags[|tags| - 1];
      Retained(tags[..|tags| - 1], filter) + (if TagSelected(last.name, filter) then [Image(last)] else [])
  }

  /**
   * The result of GetImages given the platform's reply to the tag listing: a listing
   * error is returned wrapped, with no images.
   */
  function GetImagesResult(reply: Result<seq<Tag>>, filter: seq<string>): (r: Result<seq<ImageInfo>>)
    ensures r.Ok? <==> reply.Ok?
    ensures r.Ok? ==> r.value == Retained(reply.value, filter)
    ensures r.Err? ==> EndsWith(r.error, reply.error)
  {
    match reply
    case Err(e) =>
      var msg := "failed to list repository tags: " + e;
      assert msg[|msg| - |e|..] == e;
      Err(msg)
    case Ok(tags) => Ok(Retained(tags, filter))
  }

  /** Without a tag filter, every tag is kept, as a faithful copy. */
  lemma {:induction false} RetainedWithoutFilter(tags: seq<Tag>)
    ensures |Retained(tags, [])| == |tags|
    ensures forall i :: 0 <= i < |tags| ==> Retained(tags, [])[i] == Image(tags[i])
  {
    if |tags| > 0 {
      RetainedWithoutFilter(tags[..|tags| - 1]);
    }
  }

  /** An image is returned exactly when some tag passes the filter and is copied to it. */
  lemma {:induction false} RetainedMembers(tags: seq<Tag>, filter: seq<string>, x: ImageInfo)
    ensures x in Retained(tags, filter) <==>
      exists i :: 0 <= i < |tags| && TagSelected(tags[i].name, filter) && x == Image(tags[i])
  {
    if |tags| > 0 {
      var init := tags[..|tags| - 1];
      RetainedMembers(init, filter, x);
      if x in Retained(init, filter) {
        var i :| 0 <= i < |init| && TagSelected(init[i].name, filter) && x == Image(init[i]);
        assert tags[i] == init[i];
      }
      if exists i :: 0 <= i < |tags| && TagSelected(tags[i].name, filter) && x == Image(tags[i]) {
        var i :| 0 <= i < |tags| && TagSelected(tags[i].name, filter) && x == Image(tags[i]);
        if i < |init| {
          assert init[i] == tags[i];
        }
      }
    }
  }

  /** Filtering preserves order: the result for a concatenation is the concatenation of results. */
  lemma {:induction false} RetainedAppend(a: seq<Tag>, b: seq<Tag>, filter: seq<string>)
    ensures Retained(a + b, filter) == Retained(a, filter) + Retained(b, filter)
  {
    if |b| == 0 {
      assert a + b == a;
    } else {
      var bInit := b[..|b| - 1];
      assert (a + b)[..|a + b| - 1] == a + bInit;
      assert (a + b)[|a + b| - 1] == b[|b| - 1];
      RetainedAppend(a, bInit, filter);
    }
  }

  /** The pull references of `images`, in order. */
  function Locations(images: seq<ImageInfo>): (refs: seq<string>)
    ensures |refs| == |images|
    ensures forall i :: 0 <= i < |images| ==> refs[i] == images[i].location
  {
    if |images| == 0 then [] else Locations(images[..|images| - 1]) + [images[|images| - 1].location]
  }

  /** The images BackupImages works on for one repository; nothing when its tags cannot be listed. */
  function RepoImages(env: Env, projectId: int, repo: Repository, filter: seq<string>): seq<ImageInfo> {
    var reply := env.tags(projectId, repo.id);
    if reply.Ok? then Retained(reply.value, filter) else []
  }

  function PullMessage(ref: string, e: string): string {
    "failed to pull image " + ref + ": " + e
  }

  /** Pulling `images` in order, stopping at the first failure. */
  function Pulls(env: Env, images: seq<ImageInfo>): Trace<Outcome> {
    if |images| == 0 then Trace([], Pass)
    else
      var prev := Pulls(env, images[..|images| - 1]);
      if prev.result.Fail? then prev
      else
        var ref := images[|images| - 1].location;
        Trace(prev.calls + [Call.Pull(ref)],
          match env.pull(ref) case Pass => Pass case Fail(e) => Fail(PullMessage(ref, e)))
  }

  /**
   * One repository of BackupImages: list its tags, then pull the retained images
   * (nothing in dry-run mode), stopping at the first failure.
   */
  function RepoStep(env: Env, projectId: int, repo: Repository, filter: seq<string>, dryRun: bool)
    : Trace<Result<seq<string>>>
  {
    var images := RepoImages(env, projectId, repo, filter);
    var pulls := if dryRun then Trace([], Pass) else Pulls(env, images);
    Trace([Call.ListTags(projectId, repo.id)] + pulls.calls,
      if pulls.result.Fail? then Err(pulls.result.error) else Ok(Locations(images)))
  }

  /** The repository loop of BackupImages: the calls it issues and the references it collects. */
  function BackupRepos(env: Env, projectId: int, repos: seq<Repository>, filter: seq<string>, dryRun: bool)
    : Trace<Result<seq<string>>>
  {
    if |repos| == 0 then Trace([], Ok([]))
    else
      var prev := BackupRepos(env, projectId, repos[..|repos| - 1], filter, dryRun);
      if prev.result.Err? then prev
      else
        var step := RepoStep(env, projectId, repos[|repos| - 1], filter, dryRun);
        Trace(prev.calls + step.calls,
          match step.result case Err(e) => Err(e) case Ok(refs) => Ok(prev.result.value + refs))
  }

  /** BackupImages: the calls issued and the result, for the clock reading `ticks`. */
  function BackupTrace(env: Env, projectId: int, ticks: nat, filter: seq<string>, dryRun: bool)
    : Trace<Result<Backup>>
  {
    var head := [Call.ListRepositories(projectId)];
    match env.repositories(projectId, ticks)
    case Err(e) => Trace(head, Err("failed to list registry repositories: " + e))
    case Ok(repos) =>
      if |repos| == 0 then Trace(head, Ok(Backup([], [])))
      else
        var t := BackupRepos(env, projectId, repos, filter, dryRun);
        Trace(head + t.calls, match t.result case Err(e) => Err(e) case Ok(refs) => Ok(Backup(refs, repos)))
  }

  /** Once a prefix of the images fails to pull, nothing more is pulled. */
  lemma {:induction false} PullsFailStable(env: Env, images: seq<ImageInfo>, k: nat)
    requires k <= |images|
    requires Pulls(env, images[..k]).result.Fail?
    ensures Pulls(env, images) == Pulls(env, images[..k])
    decreases |images|
  {
    if k < |images| {
      var init := images[..|images| - 1];
      assert init[..k] == images[..k];
      PullsFailStable(env, init, k);
    } else {
      assert images[..k] == images;
    }
  }

  /** BackupRepos on one more repository, after a successful prefix. */
  lemma BackupReposNext(
    env: Env, projectId: int, repos: seq<Repository>, filter: seq<string>, dryRun: bool, k: nat)
    requires k < |repos|
    requires BackupRepos(env, projectId, repos[..k], filter, dryRun).result.Ok?
    ensures var prev := BackupRepos(env, projectId, repos[..k], filter, dryRun);
      var step := RepoStep(env, projectId, repos[k], filter, dryRun);
      BackupRepos(env, projectId, repos[..k + 1], filter, dryRun) == Trace(prev.calls + step.calls,
        match step.result case Err(e) => Err(e) case Ok(refs) => Ok(prev.result.value + refs))
  {
    assert repos[..k + 1][..k] == repos[..k];
  }

  /** Once a prefix of the repositories fails, nothing more is done. */
  lemma {:induction false} BackupReposFailStable(
    env: Env, projectId: int, repos: seq<Repository>, filter: seq<string>, dryRun: bool, k: nat)
    requires k <= |repos|
    requires BackupRepos(env, projectId, repos[..k], filter, dryRun).result.Err?
    ensures BackupRepos(env, projectId, repos, filter, dryRun) == BackupRepos(env, projectId, repos[..k], filter, dryRun)
    decreases |repos|
  {
    if k < |repos| {
      var init := repos[..|repos| - 1];
      assert init[..k] == repos[..k];
      BackupReposFailStable(env, projectId, init, filter, dryRun, k);
    } else {
      assert repos[..k] == repos;
    }
  }

  /** The backup only reads the registry and pulls: nothing on the platform moves. */
  lemma {:induction false} PullsStationary(env: Env, images: seq<ImageInfo>)
    ensures Stationary(Pulls(env, images).calls)
  {
    if |images| > 0 {
      var prev := Pulls(env, images[..|images| - 1]);
      PullsStationary(env, images[..|images| - 1]);
      if prev.result.Pass? {
        StationaryAppend(prev.calls, [Call.Pull(images[|images| - 1].location)]);
      }
    }
  }

  lemma {:induction false} BackupReposStationary(
    env: Env, projectId: int, repos: seq<Repository>, filter: seq<string>, dryRun: bool)
    ensures Stationary(BackupRepos(env, projectId, repos, filter, dryRun).calls)
  {
    if |repos| > 0 {
      var repo := repos[|repos| - 1];
      var prev := BackupRepos(env, projectId, repos[..|repos| - 1], filter, dryRun);
      BackupReposStationary(env, projectId, repos[..|repos| - 1], filter, dryRun);
      if prev.result.Ok? {
        var images := RepoImages(env, projectId, repo, filter);
        var pulls := if dryRun then Trace([], Pass) else Pulls(env, images);
        PullsStationary(env, images);
        StationaryAppend([Call.ListTags(projectId, repo.id)], pulls.calls);
        StationaryAppend(prev.calls, RepoStep(env, projectId, repo, filter, dryRun).calls);
      }
    }
  }

  lemma BackupTraceStationary(env: Env, projectId: int, ticks: nat, filter: seq<string>, dryRun: bool)
    ensures Stationary(BackupTrace(env, projectId, ticks, filter, dryRun).calls)
  {
    var repos := env.repositories(projectId, ticks);
    if repos.Ok? && |repos.value| > 0 {
      BackupReposStationary(env, projectId, repos.value, filter, dryRun);
      StationaryAppend([Call.ListRepositories(projectId)], BackupRepos(env, projectId, repos.value, filter, dryRun).calls);
    }
  }

  /** The references every repository contributes, in repository then tag order. */
  function AllLocations(env: Env, projectId: int, repos: seq<Repository>, filter: seq<string>): seq<string> {
    if |repos| == 0 then []
    else
      AllLocations(env, projectId, repos[..|repos| - 1], filter)
      + Locations(RepoImages(env, projectId, repos[|repos| - 1], filter))
  }

  lemma {:induction false} BackupReposLocations(
    env: Env, projectId: int, repos: seq<Repository>, filter: seq<string>, dryRun: bool)
    requires BackupRepos(env, projectId, repos, filter, dryRun).result.Ok?
    ensures BackupRepos(env, projectId, repos, filter, dryRun).result.value == AllLocations(env, projectId, repos, filter)
  {
    if |repos| > 0 {
      BackupReposLocations(env, projectId, repos[..|repos| - 1], filter, dryRun);
    }
  }

  /**
   * A successful backup returns every listed repository and, in repository then tag
   * order, the location of every image the tag filter retains; a repository whose tags
   * cannot be listed, or whose filtered set is empty, contributes nothing.
   */
  lemma BackupReturnsRetained(env: Env, projectId: int, ticks: nat, filter: seq<string>, dryRun: bool)
    requires BackupTrace(env, projectId, ticks, filter, dryRun).result.Ok?
    ensures var repos := env.repositories(projectId, ticks).value;
      var b := BackupTrace(env, projectId, ticks, filter, dryRun).result.value;
      b.repositories == repos && b.images == AllLocations(env, projectId, repos, filter)
  {
    var repos := env.repositories(projectId, ticks).value;
    if |repos| > 0 {
      BackupReposLocations(env, projectId, repos, filter, dryRun);
    }
  }

  /** Without a registry repository, the backup is empty and succeeds. */
  lemma BackupWithoutRepositories(env: Env, projectId: int, ticks: nat, filter: seq<string>, dryRun: bool)
    requires env.repositories(projectId, ticks) == Ok([])
    ensures BackupTrace(env, projectId, ticks, filter, dryRun) ==
      Trace([Call.ListRepositories(projectId)], Ok(Backup([], [])))
  {
  }

  lemma {:induction false} PullsSucceeded(env: Env, images: seq<ImageInfo>)
    requires Pulls(env, images).result.Pass?
    ensures forall i :: 0 <= i < |images| ==>
      Call.Pull(images[i].location) in Pulls(env, images).calls && env.pull(images[i].location).Pass?
  {
    if |images| > 0 {
      var init := images[..|images| - 1];
      PullsSucceeded(env, init);
      assert forall i :: 0 <= i < |init| ==> images[i] == init[i];
    }
  }

  lemma {:induction false} BackupReposPulled(
    env: Env, projectId: int, repos: seq<Repository>, filter: seq<string>)
    requires BackupRepos(env, projectId, repos, filter, false).result.Ok?
    ensures var t := BackupRepos(env, projectId, repos, filter, false);
      forall ref :: ref in t.result.value ==> Call.Pull(ref) in t.calls && env.pull(ref).Pass?
  {
    if |repos| > 0 {
      var init := repos[..|repos| - 1];
      BackupReposPulled(env, projectId, init, filter);
      var images := RepoImages(env, projectId, repos[|repos| - 1], filter);
      PullsSucceeded(env, images);
      var t := BackupRepos(env, projectId, repos, filter, false);
      var prev := BackupRepos(env, projectId, init, filter, false);
      forall ref | ref in t.result.value ensures Call.Pull(ref) in t.calls && env.pull(ref).Pass? {
        if ref !in prev.result.value {
          var i :| 0 <= i < |images| && Locations(images)[i] == ref;
        }
      }
    }
  }

  /**
   * Outside dry-run mode, a returned backup means every image in it was pulled, and
   * pulled successfully: the first failed pull aborts the backup.
   */
  lemma BackupPullsEverything(env: Env, projectId: int, ticks: nat, filter: seq<string>)
    requires BackupTrace(env, projectId, ticks, filter, false).result.Ok?
    ensures var t := BackupTrace(env, projectId, ticks, filter, false);
      forall ref :: ref in t.result.value.images ==> Call.Pull(ref) in t.calls && env.pull(ref).Pass?
  {
    var repos := env.repositories(projectId, ticks).value;
    if |repos| > 0 {
      BackupReposPulled(env, projectId, repos, filter);
    }
  }

  /** The last of `calls` is a pull that failed, and `error` is the message it produced. */
  predicate EndsInFailedPull(env: Env, calls: seq<Call>, error: string) {
    && |calls| > 0 && calls[|calls| - 1].Pull? && env.pull(calls[|calls| - 1].ref).Fail?
    && error == PullMessage(calls[|calls| - 1].ref, env.pull(calls[|calls| - 1].ref).error)
  }

  lemma EndsInFailedPullAppend(env: Env, a: seq<Call>, b: seq<Call>, error: string)
    requires EndsInFailedPull(env, b, error)
    ensures EndsInFailedPull(env, a + b, error)
  {
    assert (a + b)[|a + b| - 1] == b[|b| - 1];
  }

  lemma {:induction false} PullsFailLast(env: Env, images: seq<ImageInfo>)
    requires Pulls(env, images).result.Fail?
    ensures EndsInFailedPull(env, Pulls(env, images).calls, Pulls(env, images).result.error)
  {
    if |images| > 0 {
      var prev := Pulls(env, images[..|images| - 1]);
      if prev.result.Fail? {
        PullsFailLast(env, images[..|images| - 1]);
      }
    }
  }

  /** One repository fails only on a pull, outside dry-run mode, and that pull is its last call. */
  lemma RepoStepFailLast(env: Env, projectId: int, repo: Repository, filter: seq<string>, dryRun: bool)
    requires RepoStep(env, projectId, repo, filter, dryRun).result.Err?
    ensures var t := RepoStep(env, projectId, repo, filter, dryRun);
      !dryRun && EndsInFailedPull(env, t.calls, t.result.error)
  {
    var images := RepoImages(env, projectId, repo, filter);
    PullsFailLast(env, images);
    EndsInFailedPullAppend(env, [Call.ListTags(projectId, repo.id)], Pulls(env, images).calls, Pulls(env, images).result.error);
  }

  lemma {:induction false} BackupReposFailLast(
    env: Env, projectId: int, repos: seq<Repository>, filter: seq<string>, dryRun: bool)
    requires BackupRepos(env, projectId, repos, filter, dryRun).result.Err?
    ensures var t := BackupRepos(env, projectId, repos, filter, dryRun);
      !dryRun && EndsInFailedPull(env, t.calls, t.result.error)
  {
    var prev := BackupRepos(env, projectId, repos[..|repos| - 1], filter, dryRun);
    if prev.result.Err? {
      BackupReposFailLast(env, projectId, repos[..|repos| - 1], filter, dryRun);
    } else {
      var step := RepoStep(env, projectId, repos[|repos| - 1], filter, dryRun);
      RepoStepFailLast(env, projectId, repos[|repos| - 1], filter, dryRun);
      EndsInFailedPullAppend(env, prev.calls, step.calls, step.result.error);
    }
  }

  /**
   * Once the repositories are listed, a backup fails only on a pull, outside dry-run
   * mode, and that failed pull is the last call: the backup fails fast.
   */
  lemma BackupFailsFast(env: Env, projectId: int, ticks: nat, filter: seq<string>, dryRun: bool)
    requires env.repositories(projectId, ticks).Ok?
    requires BackupTrace(env, projectId, ticks, filter, dryRun).result.Err?
    ensures var t := BackupTrace(env, projectId, ticks, filter, dryRun);
      !dryRun && EndsInFailedPull(env, t.calls, t.result.error)
  {
    var repos := env.repositories(projectId, ticks).value;
    var t := BackupRepos(env, projectId, repos, filter, dryRun);
    BackupReposFailLast(env, projectId, repos, filter, dryRun);
    EndsInFailedPullAppend(env, [Call.ListRepositories(projectId)], t.calls, t.result.error);
  }

  lemma {:induction false} BackupReposDryRun(env: Env, projectId: int, repos: seq<Repository>, filter: seq<string>)
    ensures var t := BackupRepos(env, projectId, repos, filter, true);
      t.result.Ok? && ReadOnly(t.calls)
  {
    if |repos| > 0 {
      var init := repos[..|repos| - 1];
      BackupReposDryRun(env, projectId, init, filter);
      ReadOnlyAppend(BackupRepos(env, projectId, init, filter, true).calls, [Call.ListTags(projectId, repos[|repos| - 1].id)]);
    }
  }

  /** In dry-run mode the backup pulls nothing and fails only when the repositories cannot be listed. */
  lemma BackupDryRun(env: Env, projectId: int, ticks: nat, filter: seq<string>)
    ensures var t := BackupTrace(env, projectId, ticks, filter, true);
      ReadOnly(t.calls) && (t.result.Ok? <==> env.repositories(projectId, ticks).Ok?)
  {
    var repos := env.repositories(projectId, ticks);
    if repos.Ok? && |repos.value| > 0 {
      BackupReposDryRun(env, projectId, repos.value, filter);
      ReadOnlyAppend([Call.ListRepositories(projectId)], BackupRepos(env, projectId, repos.value, filter, true).calls);
    }
  }

  /** A repository contributing no image is skipped: only its tag listing is issued. */
  lemma BackupSkipsRepository(
    env: Env, projectId: int, repos: seq<Repository>, repo: Repository, filter: seq<string>, dryRun: bool)
    requires RepoImages(env, projectId, repo, filter) == []
    requires BackupRepos(env, projectId, repos, filter, dryRun).result.Ok?
    ensures var before := BackupRepos(env, projectId, repos, filter, dryRun);
      BackupRepos(env, projectId, repos + [repo], filter, dryRun)
        == Trace(before.calls + [Call.ListTags(projectId, repo.id)], before.result)
  {
    var step := RepoStep(env, projectId, repo, filter, dryRun);
    assert step.calls == [Call.ListTags(projectId, repo.id)] && step.result == Ok([]);
    assert (repos + [repo])[..|repos|] == repos;
    var before := BackupRepos(env, projectId, repos, filter, dryRun);
    assert before.result.value + [] == before.result.value;
  }

  /** The calls DeleteRegistries issues outside dry-run mode: a delete and a pause per repository. */
  function Evictions(projectId: int, repos: seq<Repository>): seq<Call> {
    if |repos| == 0 then []
    else Evictions(projectId, repos[..|repos| - 1]) + [Call.DeleteRepository(projectId, repos[|repos| - 1].id), Call.Sleep]
  }

  /** One delete per repository, in order, each followed by a pause. */
  lemma {:induction false} EvictionsShape(projectId: int, repos: seq<Repository>)
    ensures |Evictions(projectId, repos)| == 2 * |repos|
    ensures forall i :: 0 <= i < |repos| ==>
      Evictions(projectId, repos)[2 * i] == Call.DeleteRepository(projectId, repos[i].id)
      && Evictions(projectId, repos)[2 * i + 1] == Call.Sleep
    ensures Sleeps(Evictions(projectId, repos)) == |repos|
  {
    if |repos| > 0 {
      var init := repos[..|repos| - 1];
      EvictionsShape(projectId, init);
      assert forall i :: 0 <= i < |init| ==> repos[i] == init[i];
      var tail := [Call.DeleteRepository(projectId, repos[|repos| - 1].id), Call.Sleep];
      SleepsAppend(Evictions(projectId, init), tail);
      assert tail[1..] == [Call.Sleep];
      assert tail[1..][1..] == [];
      assert Sleeps(tail[1..]) == 1;
      assert Sleeps(tail) == 1;
    }
  }

  /** The retry budget of the deletion wait. */
  const MaxRetries: nat := 30

  /** The calls of a wait, the clock reading it ends at, and its outcome. */
  datatype Wait = Wait(calls: seq<Call>, ticks: nat, result: Outcome)

  /**
   * Repositories are still listed for the project at clock reading `ticks`. A listing
   * error counts as nothing listed: the wait ignores the error and sees no repository.
   */
  predicate StillListed(env: Env, projectId: int, ticks: nat) {
    var reply := env.repositories(projectId, ticks);
    reply.Ok? && |reply.value| > 0
  }

  function WaitMessage(p: ProjectInfo): string {
    "images for project " + p.path + " were not deleted after waiting"
  }

  /**
   * The wait for one project, `retries` pauses already spent: list the repositories;
   * done when none is left, an error once the budget is spent, otherwise pause and retry.
   */
  function Poll(env: Env, p: ProjectInfo, ticks: nat, retries: nat): Wait
    requires retries <= MaxRetries
    decreases MaxRetries - retries
  {
    var list := [Call.ListRepositories(p.id)];
    if !StillListed(env, p.id, ticks) then Wait(list, ticks, Pass)
    else if retries >= MaxRetries then Wait(list, ticks, Fail(WaitMessage(p)))
    else
      var rest := Poll(env, p, ticks + 1, retries + 1);
      Wait(list + [Call.Sleep] + rest.calls, rest.ticks, rest.result)
  }

  /**
   * CheckIfRemainingImages over `projects`: registry-less projects are passed over, each
   * project with a registry is waited for in turn, and the first timeout ends the wait.
   * In dry-run mode nothing is waited for: the loop stops at the first project with a
   * registry without having issued anything, so no further project could add a call.
   */
  function WaitAll(env: Env, projects: seq<ProjectInfo>, ticks: nat, dryRun: bool): Wait
    decreases |projects|
  {
    if |projects| == 0 then Wait([], ticks, Pass)
    else
      var prev := WaitAll(env, projects[..|projects| - 1], ticks, dryRun);
      if prev.result.Fail? then prev
      else Then(prev.calls, ProjectWait(env, projects[|projects| - 1], prev.ticks, dryRun))
  }

  /** The wait for one project of CheckIfRemainingImages: nothing without a registry or in dry-run mode. */
  function ProjectWait(env: Env, p: ProjectInfo, ticks: nat, dryRun: bool): Wait {
    if !p.containerRegistryEnabled || dryRun then Wait([], ticks, Pass) else Poll(env, p, ticks, 0)
  }

  /** `w` preceded by the calls `done`. */
  function Then(done: seq<Call>, w: Wait): Wait {
    Wait(done + w.calls, w.ticks, w.result)
  }

  lemma WaitAllNext(env: Env, projects: seq<ProjectInfo>, i: nat, ticks: nat, dryRun: bool)
    requires i < |projects|
    ensures var prev := WaitAll(env, projects[..i], ticks, dryRun);
      WaitAll(env, projects[..i + 1], ticks, dryRun)
        == if prev.result.Fail? then prev else Then(prev.calls, ProjectWait(env, projects[i], prev.ticks, dryRun))
  {
    assert projects[..i + 1][..i] == projects[..i];
  }

  /**
   * One turn of the project loop of CheckIfRemainingImages, after projects `..i` ended
   * well: the wait so far grows by the `i`-th project's wait, a timeout there is the
   * outcome of the whole wait, and so is the empty wait of a dry run.
   */
  lemma WaitAllAdvance(env: Env, projects: seq<ProjectInfo>, i: nat, ticks: nat, dryRun: bool)
    requires i < |projects|
    requires WaitAll(env, projects[..i], ticks, dryRun).result == Pass
    ensures var prev := WaitAll(env, projects[..i], ticks, dryRun);
      var step := ProjectWait(env, projects[i], prev.ticks, dryRun);
      && WaitAll(env, projects[..i + 1], ticks, dryRun) == Then(prev.calls, step)
      && (step.result.Fail? ==> WaitAll(env, projects, ticks, dryRun) == Then(prev.calls, step))
      && (dryRun ==> prev == Wait([], ticks, Pass) && WaitAll(env, projects, ticks, dryRun) == prev)
  {
    WaitAllNext(env, projects, i, ticks, dryRun);
    if ProjectWait(env, projects[i], WaitAll(env, projects[..i], ticks, dryRun).ticks, dryRun).result.Fail? {
      WaitAllFailStable(env, projects, i + 1, ticks, dryRun);
    }
    if dryRun {
      WaitAllDryRun(env, projects, ticks);
      WaitAllDryRun(env, projects[..i], ticks);
    }
  }

  /** Once a project's wait has timed out, the projects after it change nothing. */
  lemma {:induction false} WaitAllFailStable(env: Env, projects: seq<ProjectInfo>, k: nat, ticks: nat, dryRun: bool)
    requires k <= |projects|
    requires WaitAll(env, projects[..k], ticks, dryRun).result.Fail?
    ensures WaitAll(env, projects, ticks, dryRun) == WaitAll(env, projects[..k], ticks, dryRun)
    decreases |projects|
  {
    if k < |projects| {
      var init := projects[..|projects| - 1];
      assert init[..k] == projects[..k];
      WaitAllFailStable(env, init, k, ticks, dryRun);
    } else {
      assert projects[..k] == projects;
    }
  }

  /** A reading that finds no repository ends the wait well. */
  lemma PollDone(env: Env, p: ProjectInfo, ticks: nat, retries: nat, pre: seq<Call>)
    requires retries <= MaxRetries && !StillListed(env, p.id, ticks)
    ensures Then(pre, Poll(env, p, ticks, retries)) == Wait(pre + [Call.ListRepositories(p.id)], ticks, Pass)
  {
  }

  /** A reading that still finds repositories once the budget is spent ends the wait with an error. */
  lemma PollTimeout(env: Env, p: ProjectInfo, ticks: nat, pre: seq<Call>)
    requires StillListed(env, p.id, ticks)
    ensures Then(pre, Poll(env, p, ticks, MaxRetries))
      == Wait(pre + [Call.ListRepositories(p.id)], ticks, Fail(WaitMessage(p)))
  {
  }

  /** A reading that still finds repositories, within the budget, is followed by a pause and the next reading. */
  lemma PollRetry(env: Env, p: ProjectInfo, ticks: nat, retries: nat, pre: seq<Call>)
    requires retries < MaxRetries && StillListed(env, p.id, ticks)
    ensures Then(pre, Poll(env, p, ticks, retries))
      == Then(pre + [Call.ListRepositories(p.id)] + [Call.Sleep], Poll(env, p, ticks + 1, retries + 1))
  {
    var rest := Poll(env, p, ticks + 1, retries + 1);
    assert pre + ([Call.ListRepositories(p.id)] + [Call.Sleep] + rest.calls)
      == pre + [Call.ListRepositories(p.id)] + [Call.Sleep] + rest.calls;
  }

  /**
   * A project's wait pauses at most the remaining budget of times, and the clock
   * advances by exactly its pauses.
   */
  lemma {:induction false} PollBounded(env: Env, p: ProjectInfo, ticks: nat, retries: nat)
    requires retries <= MaxRetries
    ensures var w := Poll(env, p, ticks, retries);
      Sleeps(w.calls) <= MaxRetries - retries && w.ticks == ticks + Sleeps(w.calls)
    decreases MaxRetries - retries
  {
    var list := [Call.ListRepositories(p.id)];
    if StillListed(env, p.id, ticks) && retries < MaxRetries {
      PollBounded(env, p, ticks + 1, retries + 1);
      var rest := Poll(env, p, ticks + 1, retries + 1);
      SleepsAppend(list + [Call.Sleep], rest.calls);
      assert (list + [Call.Sleep])[1..] == [Call.Sleep];
      assert [Call.Sleep][1..] == [];
    }
  }

  /**
   * A project's wait times out exactly when repositories are still listed at every
   * one of the readings it makes; when it ends well, the last reading lists nothing.
   */
  lemma {:induction false} PollOutcome(env: Env, p: ProjectInfo, ticks: nat, retries: nat)
    requires retries <= MaxRetries
    ensures var w := Poll(env, p, ticks, retries);
      (w.result.Fail? <==>
        forall j :: ticks <= j <= ticks + (MaxRetries - retries) ==> StillListed(env, p.id, j))
      && (w.result.Pass? ==> !StillListed(env, p.id, w.ticks))
    decreases MaxRetries - retries
  {
    if StillListed(env, p.id, ticks) && retries < MaxRetries {
      PollOutcome(env, p, ticks + 1, retries + 1);
    }
  }

  /** In dry-run mode the wait issues nothing, pauses never and always ends well. */
  lemma {:induction false} WaitAllDryRun(env: Env, projects: seq<ProjectInfo>, ticks: nat)
    ensures WaitAll(env, projects, ticks, true) == Wait([], ticks, Pass)
    decreases |projects|
  {
    if |projects| > 0 {
      WaitAllDryRun(env, projects[..|projects| - 1], ticks);
    }
  }

  /** The wait only lists repositories and pauses: nothing on the platform moves. */
  lemma {:induction false} PollStationary(env: Env, p: ProjectInfo, ticks: nat, retries: nat)
    requires retries <= MaxRetries
    ensures Stationary(Poll(env, p, ticks, retries).calls)
    decreases MaxRetries - retries
  {
    if StillListed(env, p.id, ticks) && retries < MaxRetries {
      PollStationary(env, p, ticks + 1, retries + 1);
      StationaryAppend([Call.ListRepositories(p.id)] + [Call.Sleep], Poll(env, p, ticks + 1, retries + 1).calls);
    }
  }

  lemma {:induction false} WaitAllStationary(env: Env, projects: seq<ProjectInfo>, ticks: nat, dryRun: bool)
    ensures Stationary(WaitAll(env, projects, ticks, dryRun).calls)
    decreases |projects|
  {
    if |projects| > 0 {
      var prev := WaitAll(env, projects[..|projects| - 1], ticks, dryRun);
      WaitAllStationary(env, projects[..|projects| - 1], ticks, dryRun);
      if prev.result.Pass? {
        var p := projects[|projects| - 1];
        if p.containerRegistryEnabled && !dryRun {
          PollStationary(env, p, prev.ticks, 0);
        }
        StationaryAppend(prev.calls, ProjectWait(env, p, prev.ticks, dryRun).calls);
      }
    }
  }

  /** The eviction only deletes repositories and pauses. */
  lemma {:induction false} EvictionsStationary(projectId: int, repos: seq<Repository>)
    ensures Stationary(Evictions(projectId, repos))
  {
    if |repos| > 0 {
      EvictionsStationary(projectId, repos[..|repos| - 1]);
      StationaryAppend(Evictions(projectId, repos[..|repos| - 1]),
        [Call.DeleteRepository(projectId, repos[|repos| - 1].id), Call.Sleep]);
    }
  }

  /**
   * The whole wait pauses at most the budget times per project, and the clock advances
   * by exactly its pauses.
   */
  lemma {:induction false} WaitAllBounded(env: Env, projects: seq<ProjectInfo>, ticks: nat, dryRun: bool)
    ensures var w := WaitAll(env, projects, ticks, dryRun);
      Sleeps(w.calls) <= MaxRetries * |projects| && w.ticks == ticks + Sleeps(w.calls)
    decreases |projects|
  {
    if |projects| > 0 {
      var init := projects[..|projects| - 1];
      WaitAllBounded(env, init, ticks, dryRun);
      var prev := WaitAll(env, init, ticks, dryRun);
      var p := projects[|projects| - 1];
      if !prev.result.Fail? {
        if p.containerRegistryEnabled && !dryRun {
          PollBounded(env, p, prev.ticks, 0);
        }
        SleepsAppend(prev.calls, ProjectWait(env, p, prev.ticks, dryRun).calls);
      }
    }
  }

  /** The image reference RestoreImages pushes for `img`. */
  function Target(img: string, oldFullPath: string, newGroupPath: string): string {
    ReplaceFirst(TrimQuotes(img), TrimQuotes(oldFullPath), newGroupPath)
  }

  /**
   * An image under the old root is re-rooted: when the quote-trimmed image starts with
   * the quote-trimmed old root, that prefix is replaced by the new root.
   */
  lemma TargetReroots(img: string, oldFullPath: string, newGroupPath: string, rest: string)
    requires TrimQuotes(img) == TrimQuotes(oldFullPath) + rest
    ensures Target(img, oldFullPath, newGroupPath) == newGroupPath + rest
  {
    ReplaceFirstPrefix(TrimQuotes(oldFullPath), rest, newGroupPath);
  }

  /** The (source, target) reference pair RestoreImages tags, for each image in order. */
  function Rewrites(images: seq<string>, oldFullPath: string, newGroupPath: string): seq<(string, string)> {
    if |images| == 0 then []
    else
      var last := images[|images| - 1];
      Rewrites(images[..|images| - 1], oldFullPath, newGroupPath)
      + [(TrimQuotes(last), Target(last, oldFullPath, newGroupPath))]
  }

  /** The calls RestoreImages issues for one image: a tag, then a push only when the tag succeeded. */
  function RestoreStep(env: Env, rw: (string, string)): seq<Call> {
    if env.tagImage(rw.0, rw.1).Fail? then [Call.TagImage(rw.0, rw.1)]
    else [Call.TagImage(rw.0, rw.1), Call.Push(rw.1)]
  }

  /** The calls RestoreImages issues outside dry-run mode, for the rewrites in order. */
  function Restores(env: Env, rws: seq<(string, string)>): seq<Call> {
    if |rws| == 0 then []
    else Restores(env, rws[..|rws| - 1]) + RestoreStep(env, rws[|rws| - 1])
  }

  /** The rewrite of each image pairs its quote-trimmed reference with its target. */
  lemma {:induction false} RewritesAt(images: seq<string>, oldFullPath: string, newGroupPath: string)
    ensures |Rewrites(images, oldFullPath, newGroupPath)| == |images|
    ensures forall i :: 0 <= i < |images| ==>
      Rewrites(images, oldFullPath, newGroupPath)[i] == (TrimQuotes(images[i]), Target(images[i], oldFullPath, newGroupPath))
  {
    if |images| > 0 {
      var init := images[..|images| - 1];
      RewritesAt(init, oldFullPath, newGroupPath);
      assert forall i :: 0 <= i < |init| ==> images[i] == init[i];
    }
  }

  lemma RewritesNext(images: seq<string>, oldFullPath: string, newGroupPath: string, i: nat)
    requires i < |images|
    ensures Rewrites(images[..i + 1], oldFullPath, newGroupPath) == Rewrites(images[..i], oldFullPath, newGroupPath)
      + [(TrimQuotes(images[i]), Target(images[i], oldFullPath, newGroupPath))]
  {
    assert images[..i + 1][..i] == images[..i];
  }

  lemma RestoresNext(env: Env, rws: seq<(string, string)>, rw: (string, string))
    ensures Restores(env, rws + [rw]) == Restores(env, rws) + RestoreStep(env, rw)
  {
    assert (rws + [rw])[..|rws|] == rws;
  }

  /** Every image is tagged with its target, whatever happened to the images before it. */
  lemma {:induction false} RestoresTagEvery(env: Env, rws: seq<(string, string)>)
    ensures forall i :: 0 <= i < |rws| ==> Call.TagImage(rws[i].0, rws[i].1) in Restores(env, rws)
  {
    if |rws| > 0 {
      var init := rws[..|rws| - 1];
      RestoresTagEvery(env, init);
      assert forall i :: 0 <= i < |init| ==> rws[i] == init[i];
      var last := rws[|rws| - 1];
      assert Call.TagImage(last.0, last.1) in RestoreStep(env, last);
    }
  }

  /** The restore only tags and pushes images. */
  lemma {:induction false} RestoresOnlyImages(env: Env, rws: seq<(string, string)>)
    ensures forall c :: c in Restores(env, rws) ==> c.TagImage? || c.Push?
  {
    if |rws| > 0 {
      RestoresOnlyImages(env, rws[..|rws| - 1]);
    }
  }

  /**
   * A failed tag skips only that image's push: a reference is pushed exactly when it
   * is the target of an image whose tag succeeded.
   */
  lemma {:induction false} RestoresPushes(env: Env, rws: seq<(string, string)>, ref: string)
    ensures Call.Push(ref) in Restores(env, rws) <==>
      exists i :: 0 <= i < |rws| && ref == rws[i].1 && env.tagImage(rws[i].0, rws[i].1).Pass?
  {
    if |rws| > 0 {
      var init := rws[..|rws| - 1];
      RestoresPushes(env, init, ref);
      var last := rws[|rws| - 1];
      assert Call.Push(ref) in RestoreStep(env, last) <==>
        ref == last.1 && env.tagImage(last.0, last.1).Pass?;
      if exists i :: 0 <= i < |init| && ref == init[i].1 && env.tagImage(init[i].0, init[i].1).Pass? {
        var i :| 0 <= i < |init| && ref == init[i].1 && env.tagImage(init[i].0, init[i].1).Pass?;
        assert rws[i] == init[i];
      }
      if exists i :: 0 <= i < |rws| && ref == rws[i].1 && env.tagImage(rws[i].0, rws[i].1).Pass? {
        var i :| 0 <= i < |rws| && ref == rws[i].1 && env.tagImage(rws[i].0, rws[i].1).Pass?;
        if i < |init| {
          assert init[i] == rws[i];
        }
      }
    }
  }

  /** The cleaner's item for an image of repository `repo` of project `p`, unselected. */
  function Item(p: ProjectInfo, repo: Repository, img: ImageInfo): UI.ImageItem {
    UI.ImageItem(UI.ImageInfo(img.name, img.path, img.location), p.id, p.name, repo.id, repo.path, false)
  }

  /** The items of one repository. */
  function RepoItems(p: ProjectInfo, repo: Repository, images: seq<ImageInfo>): seq<UI.ImageItem> {
    if |images| == 0 then []
    else RepoItems(p, repo, images[..|images| - 1]) + [Item(p, repo, images[|images| - 1])]
  }

  /** The repository loop of GetAllImagesFromProjects for project `p`. */
  function CollectRepos(env: Env, p: ProjectInfo, repos: seq<Repository>, filter: seq<string>)
    : Trace<seq<UI.ImageItem>>
  {
    if |repos| == 0 then Trace([], [])
    else
      var prev := CollectRepos(env, p, repos[..|repos| - 1], filter);
      var repo := repos[|repos| - 1];
      Trace(prev.calls + [Call.ListTags(p.id, repo.id)],
        prev.result + RepoItems(p, repo, RepoImages(env, p.id, repo, filter)))
  }

  /** GetAllImagesFromProjects for one project: nothing for a registry-less or unlistable project. */
  function CollectProject(env: Env, p: ProjectInfo, ticks: nat, filter: seq<string>): Trace<seq<UI.ImageItem>> {
    if !p.containerRegistryEnabled then Trace([], [])
    else
      var head := [Call.ListRepositories(p.id)];
      match env.repositories(p.id, ticks)
      case Err(_) => Trace(head, [])
      case Ok(repos) =>
        var t := CollectRepos(env, p, repos, filter);
        Trace(head + t.calls, t.result)
  }

  /** GetAllImagesFromProjects over `projects`, in the given order. */
  function CollectAll(env: Env, projects: seq<ProjectInfo>, ticks: nat, filter: seq<string>)
    : Trace<seq<UI.ImageItem>>
  {
    if |projects| == 0 then Trace([], [])
    else
      var prev := CollectAll(env, projects[..|projects| - 1], ticks, filter);
      var t := CollectProject(env, projects[|projects| - 1], ticks, filter);
      Trace(prev.calls + t.calls, prev.result + t.result)
  }

  /** An item belongs to project `p` and repository `repo`, carries a retained tag and is unselected. */
  predicate ItemOf(x: UI.ImageItem, p: ProjectInfo, repo: Repository, filter: seq<string>) {
    && x.projectId == p.id && x.projectName == p.name
    && x.registryId == repo.id && x.registryPath == repo.path
    && TagSelected(x.info.name, filter) && !x.selected
  }

  lemma {:induction false} RepoItemsOf(
    p: ProjectInfo, repo: Repository, tags: seq<Tag>, filter: seq<string>, x: UI.ImageItem)
    requires x in RepoItems(p, repo, Retained(tags, filter))
    ensures ItemOf(x, p, repo, filter)
  {
    var images := Retained(tags, filter);
    RepoItemsMembers(p, repo, images, x);
    var i :| 0 <= i < |images| && x == Item(p, repo, images[i]);
    RetainedMembers(tags, filter, images[i]);
  }

  lemma {:induction false} RepoItemsMembers(p: ProjectInfo, repo: Repository, images: seq<ImageInfo>, x: UI.ImageItem)
    requires x in RepoItems(p, repo, images)
    ensures exists i :: 0 <= i < |images| && x == Item(p, repo, images[i])
  {
    var init := images[..|images| - 1];
    if x in RepoItems(p, repo, init) {
      RepoItemsMembers(p, repo, init, x);
      var i :| 0 <= i < |init| && x == Item(p, repo, init[i]);
      assert images[i] == init[i];
    }
  }

  lemma {:induction false} CollectReposOf(env: Env, p: ProjectInfo, repos: seq<Repository>, filter: seq<string>, x: UI.ImageItem)
    requires x in CollectRepos(env, p, repos, filter).result
    ensures exists k :: 0 <= k < |repos| && ItemOf(x, p, repos[k], filter)
  {
    var init := repos[..|repos| - 1];
    var repo := repos[|repos| - 1];
    if x in CollectRepos(env, p, init, filter).result {
      CollectReposOf(env, p, init, filter, x);
      var k :| 0 <= k < |init| && ItemOf(x, p, init[k], filter);
      assert repos[k] == init[k];
    } else {
      var reply := env.tags(p.id, repo.id);
      if reply.Ok? {
        RepoItemsOf(p, repo, reply.value, filter, x);
        assert ItemOf(x, p, repos[|repos| - 1], filter);
      }
    }
  }

  /**
   * Every collected item is unselected, carries a tag the filter retains, and belongs
   * to a registry-enabled project of the input and to one of that project's listed
   * repositories.
   */
  lemma {:induction false} CollectAllItems(env: Env, projects: seq<ProjectInfo>, ticks: nat, filter: seq<string>, x: UI.ImageItem)
    requires x in CollectAll(env, projects, ticks, filter).result
    ensures !x.selected && TagSelected(x.info.name, filter)
    ensures exists k :: 0 <= k < |projects| && projects[k].containerRegistryEnabled
                     && x.projectId == projects[k].id && x.projectName == projects[k].name
  {
    var init := projects[..|projects| - 1];
    var p := projects[|projects| - 1];
    if x in CollectAll(env, init, ticks, filter).result {
      CollectAllItems(env, init, ticks, filter, x);
      var k :| 0 <= k < |init| && init[k].containerRegistryEnabled
        && x.projectId == init[k].id && x.projectName == init[k].name;
      assert projects[k] == init[k];
    } else {
      var repos := env.repositories(p.id, ticks).value;
      CollectReposOf(env, p, repos, filter, x);
      var k :| 0 <= k < |repos| && ItemOf(x, p, repos[k], filter);
      assert projects[|projects| - 1] == p;
    }
  }

  lemma {:induction false} RepoItemsHas(p: ProjectInfo, repo: Repository, images: seq<ImageInfo>, img: ImageInfo)
    requires img in images
    ensures Item(p, repo, img) in RepoItems(p, repo, images)
  {
    var init := images[..|images| - 1];
    if img != images[|images| - 1] {
      assert img in init by {
        var i :| 0 <= i < |images| && images[i] == img;
        assert init[i] == img;
      }
      RepoItemsHas(p, repo, init, img);
    }
  }

  lemma {:induction false} CollectReposHas(
    env: Env, p: ProjectInfo, repos: seq<Repository>, filter: seq<string>,
    j: nat, tags: seq<Tag>, img: ImageInfo)
    requires j < |repos| && env.tags(p.id, repos[j].id) == Ok(tags)
    requires img in Retained(tags, filter)
    ensures Item(p, repos[j], img) in CollectRepos(env, p, repos, filter).result
  {
    var init := repos[..|repos| - 1];
    if j < |init| {
      assert init[j] == repos[j];
      CollectReposHas(env, p, init, filter, j, tags, img);
    } else {
      RepoItemsHas(p, repos[j], RepoImages(env, p.id, repos[j], filter), img);
    }
  }

  /**
   * Conversely, every tag the filter retains, in every listed repository of every
   * registry-enabled project of the input, yields an item.
   */
  lemma {:induction false} CollectAllHas(
    env: Env, projects: seq<ProjectInfo>, ticks: nat, filter: seq<string>,
    k: nat, repos: seq<Repository>, j: nat, tags: seq<Tag>, img: ImageInfo)
    requires k < |projects| && projects[k].containerRegistryEnabled
    requires env.repositories(projects[k].id, ticks) == Ok(repos)
    requires j < |repos| && env.tags(projects[k].id, repos[j].id) == Ok(tags)
    requires img in Retained(tags, filter)
    ensures Item(projects[k], repos[j], img) in CollectAll(env, projects, ticks, filter).result
  {
    var init := projects[..|projects| - 1];
    if k < |init| {
      assert init[k] == projects[k];
      CollectAllHas(env, init, ticks, filter, k, repos, j, tags, img);
    } else {
      CollectReposHas(env, projects[k], repos, filter, j, tags, img);
    }
  }

  lemma {:induction false} CollectReposReadOnly(env: Env, p: ProjectInfo, repos: seq<Repository>, filter: seq<string>)
    ensures ReadOnly(CollectRepos(env, p, repos, filter).calls)
  {
    if |repos| > 0 {
      CollectReposReadOnly(env, p, repos[..|repos| - 1], filter);
      ReadOnlyAppend(CollectRepos(env, p, repos[..|repos| - 1], filter).calls,
        [Call.ListTags(p.id, repos[|repos| - 1].id)]);
    }
  }

  /** Collecting the images only reads: no call changes state and none pauses. */
  lemma {:induction false} CollectAllReadOnly(env: Env, projects: seq<ProjectInfo>, ticks: nat, filter: seq<string>)
    ensures ReadOnly(CollectAll(env, projects, ticks, filter).calls)
  {
    if |projects| > 0 {
      var init := projects[..|projects| - 1];
      var p := projects[|projects| - 1];
      CollectAllReadOnly(env, init, ticks, filter);
      var t := CollectProject(env, p, ticks, filter);
      if p.containerRegistryEnabled && env.repositories(p.id, ticks).Ok? {
        CollectReposReadOnly(env, p, env.repositories(p.id, ticks).value, filter);
        ReadOnlyAppend([Call.ListRepositories(p.id)], CollectRepos(env, p, env.repositories(p.id, ticks).value, filter).calls);
      }
      ReadOnlyAppend(CollectAll(env, init, ticks, filter).calls, t.calls);
    }
  }

  /** ImageMigrator: image requests to the platform and to the local Docker engine. */
  class ImageMigrator {
    const platform: Platform
    const dryRun: bool

    constructor (platform: Platform, dryRun: bool)
      ensures this.platform == platform && this.dryRun == dryRun
    {
      this.platform := platform;
      this.dryRun := dryRun;
    }

    /** GetImages: the repository's tags through the tag filter (a read, in dry-run mode too). */
    method GetImages(projectId: int, repositoryId: int, filter: seq<string>) returns (r: Result<seq<ImageInfo>>)
      modifies platform
      ensures platform.log == old(platform.log) + [Call.ListTags(projectId, repositoryId)]
      ensures platform.ticks == old(platform.ticks)
      ensures r == GetImagesResult(platform.env.tags(projectId, repositoryId), filter)
    {
      var reply := platform.ListTags(projectId, repositoryId);
      if reply.Err? {
        return Err("failed to list repository tags: " + reply.error);
      }
      var tags := reply.value;
      var images: seq<ImageInfo> := [];
      for i := 0 to |tags|
        invariant images == Retained(tags[..i], filter)
      {
        assert tags[..i + 1][..i] == tags[..i];
        var tag := tags[i];
        if |filter| > 0 {
          var found := false;
          var j := 0;
          while j < |filter|
            invariant 0 <= j <= |filter|
            invariant !found && forall k :: 0 <= k < j ==> filter[k] != tag.name
          {
            if tag.name == filter[j] {
              found := true;
              break;
            }
            j := j + 1;
          }
          if !found {
            continue;
          }
        }
        images := images + [ImageInfo(tag.name, tag.path, tag.location)];
      }
      assert tags[..|tags|] == tags;
      return Ok(images);
    }

    /** BackupImages: pull every retained image of every registry repository of the project. */
    method BackupImages(project: ProjectInfo, filter: seq<string>) returns (r: Result<Backup>)
      modifies platform
      ensures var t := BackupTrace(platform.env, project.id, old(platform.ticks), filter, dryRun);
        platform.log == old(platform.log) + t.calls && r == t.result
      ensures platform.ticks == old(platform.ticks)
    {
      var listed := platform.ListRepositories(project.id);
      if listed.Err? {
        return Err("failed to list registry repositories: " + listed.error);
      }
      var repositories := listed.value;
      if |repositories| == 0 {
        return Ok(Backup([], []));
      }
      var refs := BackupRepositories(project.id, repositories, filter);
      if refs.Err? {
        return Err(refs.error);
      }
      return Ok(Backup(refs.value, repositories));
    }

    /** The repository loop of BackupImages. */
    method BackupRepositories(projectId: int, repos: seq<Repository>, filter: seq<string>)
      returns (r: Result<seq<string>>)
      modifies platform
      ensures var t := BackupRepos(platform.env, projectId, repos, filter, dryRun);
        platform.log == old(platform.log) + t.calls && r == t.result
      ensures platform.ticks == old(platform.ticks)
    {
      var env := platform.env;
      var allImages: seq<string> := [];
      for i := 0 to |repos|
        invariant platform.ticks == old(platform.ticks)
        invariant BackupRepos(env, projectId, repos[..i], filter, dryRun).result == Ok(allImages)
        invariant platform.log == old(platform.log) + BackupRepos(env, projectId, repos[..i], filter, dryRun).calls
      {
        ghost var prev := BackupRepos(env, projectId, repos[..i], filter, dryRun);
        ghost var step := RepoStep(env, projectId, repos[i], filter, dryRun);
        BackupReposNext(env, projectId, repos, filter, dryRun, i);
        var refs := BackupRepository(projectId, repos[i], filter);
        ConcatAssoc(old(platform.log), prev.calls, step.calls);
        if refs.Err? {
          BackupReposFailStable(env, projectId, repos, filter, dryRun, i + 1);
          return Err(refs.error);
        }
        allImages := allImages + refs.value;
      }
      assert repos[..|repos|] == repos;
      return Ok(allImages);
    }

    /** The body of the repository loop of BackupImages. */
    method BackupRepository(projectId: int, repo: Repository, filter: seq<string>) returns (r: Result<seq<string>>)
      modifies platform
      ensures var t := RepoStep(platform.env, projectId, repo, filter, dryRun);
        platform.log == old(platform.log) + t.calls && r == t.result
      ensures platform.ticks == old(platform.ticks)
    {
      var found := GetImages(projectId, repo.id, filter);
      if found.Err? || |found.value| == 0 {
        assert RepoImages(platform.env, projectId, repo, filter) == [];
        assert platform.log == old(platform.log) + [Call.ListTags(projectId, repo.id)] + [];
        return Ok([]);
      }
      var images := found.value;
      var pulled := PullImages(images);
      if pulled.Fail? {
        return Err(pulled.error);
      }
      return Ok(Locations(images));
    }

    /**
     * CheckIfRemainingImages: wait, project by project, until the deleted repositories
     * are no longer listed, pausing between readings, within the retry budget.
     */
    method CheckIfRemainingImages(projects: seq<ProjectInfo>, filter: seq<string>) returns (err: Outcome)
      modifies platform
      ensures var w := WaitAll(platform.env, projects, old(platform.ticks), dryRun);
        platform.log == old(platform.log) + w.calls && platform.ticks == w.ticks && err == w.result
    {
      var env := platform.env;
      ghost var t0 := platform.ticks;
      ghost var sofar := Wait([], t0, Pass);
      var i := 0;
      while i < |projects|
        invariant 0 <= i <= |projects|
        invariant sofar == WaitAll(env, projects[..i], t0, dryRun)
        invariant platform.log == old(platform.log) + sofar.calls && platform.ticks == sofar.ticks
        invariant sofar.result == Pass
      {
        var project := projects[i];
        WaitAllAdvance(env, projects, i, t0, dryRun);
        if project.containerRegistryEnabled && dryRun {
          break;
        }
        ghost var step := ProjectWait(env, project, sofar.ticks, dryRun);
        ghost var before := platform.log;
        var polled := WaitProject(project);
        assert platform.log == before + step.calls;
        ConcatAssoc(old(platform.log), sofar.calls, step.calls);
        sofar := Then(sofar.calls, step);
        if polled.Fail? {
          return polled;
        }
        i := i + 1;
      }
      if i == |projects| {
        assert projects[..i] == projects;
      }
      return Pass;
    }

    /** The body of the project loop of CheckIfRemainingImages, past the dry-run exit. */
    method WaitProject(project: ProjectInfo) returns (err: Outcome)
      requires !(project.containerRegistryEnabled && dryRun)
      modifies platform
      ensures var w := ProjectWait(platform.env, project, old(platform.ticks), dryRun);
        platform.log == old(platform.log) + w.calls && platform.ticks == w.ticks && err == w.result
    {
      if project.containerRegistryEnabled {
        err := WaitForProject(project);
      } else {
        err := Pass;
      }
    }

    /**
     * The retry loop of CheckIfRemainingImages for one project: list its repositories
     * until none is left, pausing between readings, and fail once the budget is spent.
     */
    method WaitForProject(project: ProjectInfo) returns (err: Outcome)
      modifies platform
      ensures var w := Poll(platform.env, project, old(platform.ticks), 0);
        platform.log == old(platform.log) + w.calls && platform.ticks == w.ticks && err == w.result
    {
      var env := platform.env;
      var retries := 0;
      ghost var polled: seq<Call> := [];
      ghost var whole := Poll(env, project, platform.ticks, 0);
      while true
        invariant retries <= MaxRetries
        invariant platform.log == old(platform.log) + polled
        invariant whole == Then(polled, Poll(env, project, platform.ticks, retries))
        decreases MaxRetries - retries
      {
        var listed := platform.ListRepositories(project.id);
        ConcatAssoc(old(platform.log), polled, [Call.ListRepositories(project.id)]);
        var remaining := if listed.Ok? then listed.value else [];
        if |remaining| == 0 {
          PollDone(env, project, platform.ticks, retries, polled);
          return Pass;
        }
        if retries >= MaxRetries {
          PollTimeout(env, project, platform.ticks, polled);
          return Fail(WaitMessage(project));
        }
        PollRetry(env, project, platform.ticks, retries, polled);
        platform.Sleep();
        ConcatAssoc(old(platform.log), polled + [Call.ListRepositories(project.id)], [Call.Sleep]);
        polled := polled + [Call.ListRepositories(project.id)] + [Call.Sleep];
        retries := retries + 1;
      }
    }

    /**
     * RestoreImages: tag every backed-up image with its target under the new path and
     * push it; a failed tag or push skips that image only.
     */
    method RestoreImages(images: seq<string>, oldFullPath: string, newGroupPath: string, keepParent: bool)
      returns (err: Outcome)
      modifies platform
      ensures err == Pass
      ensures platform.ticks == old(platform.ticks)
      ensures dryRun ==> platform.log == old(platform.log)
      ensures !dryRun ==> platform.log == old(platform.log) + Restores(platform.env, Rewrites(images, oldFullPath, newGroupPath))
    {
      if |images| == 0 {
        return Pass;
      }
      var env := platform.env;
      for i := 0 to |images|
        invariant platform.ticks == old(platform.ticks)
        invariant dryRun ==> platform.log == old(platform.log)
        invariant !dryRun ==> platform.log == old(platform.log) + Restores(env, Rewrites(images[..i], oldFullPath, newGroupPath))
      {
        ghost var before := Rewrites(images[..i], oldFullPath, newGroupPath);
        ghost var rw := (TrimQuotes(images[i]), Target(images[i], oldFullPath, newGroupPath));
        RewritesNext(images, oldFullPath, newGroupPath, i);
        RestoresNext(env, before, rw);
        RestoreImage(images[i], oldFullPath, newGroupPath, keepParent);
        assert !dryRun ==> platform.log == old(platform.log) + (Restores(env, before) + RestoreStep(env, rw));
      }
      assert images[..|images|] == images;
      return Pass;
    }

    /** The body of the RestoreImages loop for one image: its tag and, when that succeeded, its push. */
    method RestoreImage(image: string, oldFullPath: string, newGroupPath: string, keepParent: bool)
      modifies platform
      ensures platform.ticks == old(platform.ticks)
      ensures dryRun ==> platform.log == old(platform.log)
      ensures !dryRun ==>
        platform.log == old(platform.log) + RestoreStep(platform.env, (TrimQuotes(image), Target(image, oldFullPath, newGroupPath)))
    {
      var img := TrimQuotes(image);
      var newImage: string;
      if keepParent {
        var oldPath := TrimQuotes(oldFullPath);
        newImage := ReplaceFirst(img, oldPath, newGroupPath);
      } else {
        var oldPath := TrimQuotes(oldFullPath);
        newImage := ReplaceFirst(img, oldPath, newGroupPath);
      }
      if dryRun {
        return;
      }
      var tagged := platform.TagImage(img, newImage);
      if tagged.Fail? {
        return;
      }
      var pushed := platform.Push(newImage);
      if pushed.Fail? {
        return;
      }
    }

    /** GetAllImagesFromProjects: every retained image of every registry-enabled project, unselected. */
    method GetAllImagesFromProjects(projects: seq<ProjectInfo>, filter: seq<string>)
      returns (r: Result<seq<UI.ImageItem>>)
      modifies platform
      ensures var t := CollectAll(platform.env, projects, old(platform.ticks), filter);
        platform.log == old(platform.log) + t.calls && r == Ok(t.result)
      ensures platform.ticks == old(platform.ticks)
    {
      var env := platform.env;
      var all: seq<UI.ImageItem> := [];
      for i := 0 to |projects|
        invariant platform.ticks == old(platform.ticks)
        invariant platform.log == old(platform.log) + CollectAll(env, projects[..i], platform.ticks, filter).calls
        invariant all == CollectAll(env, projects[..i], platform.ticks, filter).result
      {
        assert projects[..i + 1][..i] == projects[..i];
        ghost var prev := CollectAll(env, projects[..i], platform.ticks, filter);
        var items := CollectProjectImages(projects[i], filter);
        assert platform.log == old(platform.log) + (prev.calls + CollectProject(env, projects[i], platform.ticks, filter).calls);
        all := all + items;
      }
      assert projects[..|projects|] == projects;
      return Ok(all);
    }

    /** The body of the project loop of GetAllImagesFromProjects. */
    method CollectProjectImages(p: ProjectInfo, filter: seq<string>) returns (items: seq<UI.ImageItem>)
      modifies platform
      ensures var t := CollectProject(platform.env, p, old(platform.ticks), filter);
        platform.log == old(platform.log) + t.calls && items == t.result
      ensures platform.ticks == old(platform.ticks)
    {
      if !p.containerRegistryEnabled {
        return [];
      }
      var env := platform.env;
      var listed := platform.ListRepositories(p.id);
      if listed.Err? {
        return [];
      }
      var repositories := listed.value;
      if |repositories| == 0 {
        return [];
      }
      ghost var start := platform.log;
      items := [];
      for k := 0 to |repositories|
        invariant platform.ticks == old(platform.ticks)
        invariant platform.log == start + CollectRepos(env, p, repositories[..k], filter).calls
        invariant items == CollectRepos(env, p, repositories[..k], filter).result
      {
        var repo := repositories[k];
        assert repositories[..k + 1][..k] == repositories[..k];
        ghost var prev := CollectRepos(env, p, repositories[..k], filter);
        var found := GetImages(p.id, repo.id, filter);
        ConcatAssoc(start, prev.calls, [Call.ListTags(p.id, repo.id)]);
        if found.Err? {
          assert RepoItems(p, repo, RepoImages(env, p.id, repo, filter)) == [];
          assert items + [] == items;
          continue;
        }
        var repoItems := ImageItems(p, repo, found.value);
        items := items + repoItems;
      }
      assert repositories[..|repositories|] == repositories;
    }

    /** The image loop of GetAllImagesFromProjects: one unselected item per image, in order. */
    method ImageItems(p: ProjectInfo, repo: Repository, images: seq<ImageInfo>) returns (items: seq<UI.ImageItem>)
      ensures items == RepoItems(p, repo, images)
    {
      items := [];
      for j := 0 to |images|
        invariant items == RepoItems(p, repo, images[..j])
      {
        assert images[..j + 1][..j] == images[..j];
        var img := images[j];
        items := items + [UI.ImageItem(UI.ImageInfo(img.name, img.path, img.location),
          p.id, p.name, repo.id, repo.path, false)];
      }
      assert images[..|images|] == images;
    }

    /** The pull loop of BackupImages: pull each image in order (nothing in dry-run mode), stop at the first failure. */
    method PullImages(images: seq<ImageInfo>) returns (o: Outcome)
      modifies platform
      ensures platform.ticks == old(platform.ticks)
      ensures dryRun ==> platform.log == old(platform.log) && o == Pass
      ensures !dryRun ==> platform.log == old(platform.log) + Pulls(platform.env, images).calls
      ensures !dryRun ==> o == Pulls(platform.env, images).result
    {
      for j := 0 to |images|
        invariant platform.ticks == old(platform.ticks)
        invariant dryRun ==> platform.log == old(platform.log)
        invariant !dryRun ==> platform.log == old(platform.log) + Pulls(platform.env, images[..j]).calls
        invariant !dryRun ==> Pulls(platform.env, images[..j]).result == Pass
      {
        assert images[..j + 1][..j] == images[..j];
        var ref := images[j].location;
        if !dryRun {
          var pulled := platform.Pull(ref);
          if pulled.Fail? {
            PullsFailStable(platform.env, images, j + 1);
            return Fail(PullMessage(ref, pulled.error));
          }
        }
      }
      assert images[..|images|] == images;
      return Pass;
    }

    /** DeleteRegistries: delete every repository (failures only logged), pausing after each. */
    method DeleteRegistries(project: ProjectInfo, repos: seq<Repository>) returns (err: Outcome)
      modifies platform
      ensures err == Pass
      ensures dryRun ==> platform.log == old(platform.log) && platform.ticks == old(platform.ticks)
      ensures !dryRun ==> platform.log == old(platform.log) + Evictions(project.id, repos)
      ensures !dryRun ==> platform.ticks == old(platform.ticks) + |repos|
    {
      for i := 0 to |repos|
        invariant dryRun ==> platform.log == old(platform.log) && platform.ticks == old(platform.ticks)
        invariant !dryRun ==> platform.log == old(platform.log) + Evictions(project.id, repos[..i])
        invariant !dryRun ==> platform.ticks == old(platform.ticks) + i
      {
        assert repos[..i + 1][..i] == repos[..i];
        if !dryRun {
          var deleted := platform.DeleteRepository(project.id, repos[i].id);
          platform.Sleep();
        }
      }
      assert repos[..|repos|] == repos;
      return Pass;
    }
  }
}
