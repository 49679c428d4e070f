/**
 * The collaborators the migration talks to, seen from the outside: the GitLab REST
 * API, the local Docker engine and the wall clock. Every reply is drawn from an
 * abstract environment `Env`; every call is appended to one ordered log, so that
 * contracts can say which calls happen and in what order, across both collaborators.
 * The clock is a tick counter advanced by each fixed-duration pause; the platform's
 * repository listing may depend on it, which is how eventual consistency of
 * registry deletion is represented.
 */
module Platform {
  import opened Wrappers

  /** A GitLab group, as the API returns it. */
  datatype Group = Group(id: int, path: string, fullPath: string)

  /** A GitLab project, with the fields the migration reads. */
  datatype ApiProject = ApiProject(
    id: int, name: string, path: string, containerRegistryEnabled: bool, archived: bool)

  /** A container registry repository of a project. */
  datatype Repository = Repository(id: int, path: string)

  /** A tag of a registry repository; `location` is the fully qualified pull reference. */
  datatype Tag = Tag(name: string, path: string, location: string)

  /** One call issued to a collaborator. */
  datatype Call =
    | NewGitLabClient(token: string, instance: string)
    | CheckConnection
    | CurrentUser
    | SearchGroup(name: string)
    | CreateGroup(name: string, parentId: int)
    | TransferGroup(groupId: int, targetId: int)
    | ListProjects(groupId: int)
    | TransferProject(projectId: int, targetId: int)
    | ArchiveProject(projectId: int)
    | UnarchiveProject(projectId: int)
    | ListRepositories(projectId: int)
    | ListTags(projectId: int, repositoryId: int)
    | DeleteRepository(projectId: int, repositoryId: int)
    | DeleteTag(projectId: int, repositoryId: int, tag: string)
    | NewDockerClient
    | CheckDocker
    | Login(registry: string, user: string, token: string)
    | Pull(ref: string)
    | TagImage(source: string, target: string)
    | Push(ref: string)
    | Sleep

  /** Calls that change state on the platform or in the local image store. */
  predicate Mutating(c: Call) {
    c.CreateGroup? || c.TransferGroup? || c.TransferProject? || c.ArchiveProject? ||
    c.UnarchiveProject? || c.DeleteRepository? || c.DeleteTag? ||
    c.Pull? || c.TagImage? || c.Push?
  }

  /** No call of `calls` changes state, and none of them is a pause. */
  predicate ReadOnly(calls: seq<Call>) {
    forall i :: 0 <= i < |calls| ==> !Mutating(calls[i]) && !calls[i].Sleep?
  }

  lemma ReadOnlyAppend(a: seq<Call>, b: seq<Call>)
    requires ReadOnly(a) && ReadOnly(b)
    ensures ReadOnly(a + b)
  {
    forall i | 0 <= i < |a + b| ensures !Mutating((a + b)[i]) && !(a + b)[i].Sleep? {
      if i < |a| { assert (a + b)[i] == a[i]; } else { assert (a + b)[i] == b[i - |a|]; }
    }
  }

  /** Calls that move or create groups and projects on the platform. */
  predicate Relocating(c: Call) {
    c.CreateGroup? || c.TransferGroup? || c.TransferProject?
  }

  /** No call of `calls` moves or creates a group or a project. */
  predicate Stationary(calls: seq<Call>) {
    forall i :: 0 <= i < |calls| ==> !Relocating(calls[i])
  }

  lemma StationaryAppend(a: seq<Call>, b: seq<Call>)
    requires Stationary(a) && Stationary(b)
    ensures Stationary(a + b)
  {
    forall i | 0 <= i < |a + b| ensures !Relocating((a + b)[i]) {
      if i < |a| { assert (a + b)[i] == a[i]; } else { assert (a + b)[i] == b[i - |a|]; }
    }
  }

  /** The number of pauses in `calls`. */
  function Sleeps(calls: seq<Call>): nat {
    if |calls| == 0 then 0 else (if calls[0].Sleep? then 1 else 0) + Sleeps(calls[1..])
  }

  lemma {:induction false} SleepsAppend(a: seq<Call>, b: seq<Call>)
    ensures Sleeps(a + b) == Sleeps(a) + Sleeps(b)
  {
    if |a| == 0 {
      assert a + b == b;
    } else {
      assert (a + b)[1..] == a[1..] + b;
      SleepsAppend(a[1..], b);
    }
  }

  /**
   * The reply to a registry login: logged in; a refused first attempt, on which the
   * client ends the process with status 1 (`log.Fatalf`); or an error the client
   * returns (no Docker client, a refused second attempt, an encoding failure).
   */
  datatype LoginReply = LoggedIn | LoginFatal(error: string) | LoginFailed(error: string)

  /**
   * The replies of the collaborators. Status codes are HTTP codes; an `Err` is a
   * transport or API error. `repositories` takes the clock as second argument.
   */
  datatype Env = Env(
    gitLabClient: (string, string) -> Outcome,
    connection: Outcome,
    currentUser: Result<string>,
    searchGroup: string -> Result<Option<Group>>,
    createGroup: (string, int) -> Result<Group>,
    transferGroup: (int, int) -> Result<int>,
    listProjects: int -> Result<seq<ApiProject>>,
    transferProject: (int, int) -> Result<int>,
    archive: int -> Result<int>,
    unarchive: int -> Result<int>,
    repositories: (int, nat) -> Result<seq<Repository>>,
    tags: (int, int) -> Result<seq<Tag>>,
    deleteRepository: (int, int) -> Outcome,
    deleteTag: (int, int, string) -> Outcome,
    dockerClient: Outcome,
    dockerRunning: Outcome,
    login: (string, string, string) -> LoginReply,
    pull: string -> Outcome,
    tagImage: (string, string) -> Outcome,
    push: string -> Outcome)

  /** The collaborators, with the log of every call made to them and the clock. */
  class Platform {
    const env: Env
    var log: seq<Call>
    var ticks: nat

    constructor (env: Env)
      ensures this.env == env && log == [] && ticks == 0
    {
      this.env := env;
      log := [];
      ticks := 0;
    }

    method NewGitLabClient(token: string, instance: string) returns (r: Outcome)
      modifies this
      ensures log == old(log) + [Call.NewGitLabClient(token, instance)] && ticks == old(ticks)
      ensures r == env.gitLabClient(token, instance)
    {
      log := log + [Call.NewGitLabClient(token, instance)];
      r := env.gitLabClient(token, instance);
    }

    method CheckConnection() returns (r: Outcome)
      modifies this
      ensures log == old(log) + [Call.CheckConnection] && ticks == old(ticks)
      ensures r == env.connection
    {
      log := log + [Call.CheckConnection];
      r := env.connection;
    }

    method CurrentUser() returns (r: Result<string>)
      modifies this
      ensures log == old(log) + [Call.CurrentUser] && ticks == old(ticks)
      ensures r == env.currentUser
    {
      log := log + [Call.CurrentUser];
      r := env.currentUser;
    }

    method SearchGroup(name: string) returns (r: Result<Option<Group>>)
      modifies this
      ensures log == old(log) + [Call.SearchGroup(name)] && ticks == old(ticks)
      ensures r == env.searchGroup(name)
    {
      log := log + [Call.SearchGroup(name)];
      r := env.searchGroup(name);
    }

    method CreateGroup(name: string, parentId: int) returns (r: Result<Group>)
      modifies this
      ensures log == old(log) + [Call.CreateGroup(name, parentId)] && ticks == old(ticks)
      ensures r == env.createGroup(name, parentId)
    {
      log := log + [Call.CreateGroup(name, parentId)];
      r := env.createGroup(name, parentId);
    }

    method TransferGroup(groupId: int, targetId: int) returns (r: Result<int>)
      modifies this
      ensures log == old(log) + [Call.TransferGroup(groupId, targetId)] && ticks == old(ticks)
      ensures r == env.transferGroup(groupId, targetId)
    {
      log := log + [Call.TransferGroup(groupId, targetId)];
      r := env.transferGroup(groupId, targetId);
    }

    method ListProjects(groupId: int) returns (r: Result<seq<ApiProject>>)
      modifies this
      ensures log == old(log) + [Call.ListProjects(groupId)] && ticks == old(ticks)
      ensures r == env.listProjects(groupId)
    {
      log := log + [Call.ListProjects(groupId)];
      r := env.listProjects(groupId);
    }

    method TransferProject(projectId: int, targetId: int) returns (r: Result<int>)
      modifies this
      ensures log == old(log) + [Call.TransferProject(projectId, targetId)] && ticks == old(ticks)
      ensures r == env.transferProject(projectId, targetId)
    {
      log := log + [Call.TransferProject(projectId, targetId)];
      r := env.transferProject(projectId, targetId);
    }

    method ArchiveProject(projectId: int) returns (r: Result<int>)
      modifies this
      ensures log == old(log) + [Call.ArchiveProject(projectId)] && ticks == old(ticks)
      ensures r == env.archive(projectId)
    {
      log := log + [Call.ArchiveProject(projectId)];
      r := env.archive(projectId);
    }

    method UnarchiveProject(projectId: int) returns (r: Result<int>)
      modifies this
      ensures log == old(log) + [Call.UnarchiveProject(projectId)] && ticks == old(ticks)
      ensures r == env.unarchive(projectId)
    {
      log := log + [Call.UnarchiveProject(projectId)];
      r := env.unarchive(projectId);
    }

    method ListRepositories(projectId: int) returns (r: Result<seq<Repository>>)
      modifies this
      ensures log == old(log) + [Call.ListRepositories(projectId)] && ticks == old(ticks)
      ensures r == env.repositories(projectId, ticks)
    {
      log := log + [Call.ListRepositories(projectId)];
      r := env.repositories(projectId, ticks);
    }

    method ListTags(projectId: int, repositoryId: int) returns (r: Result<seq<Tag>>)
      modifies this
      ensures log == old(log) + [Call.ListTags(projectId, repositoryId)] && ticks == old(ticks)
      ensures r == env.tags(projectId, repositoryId)
    {
      log := log + [Call.ListTags(projectId, repositoryId)];
      r := env.tags(projectId, repositoryId);
    }

    method DeleteRepository(projectId: int, repositoryId: int) returns (r: Outcome)
      modifies this
      ensures log == old(log) + [Call.DeleteRepository(projectId, repositoryId)] && ticks == old(ticks)
      ensures r == env.deleteRepository(projectId, repositoryId)
    {
      log := log + [Call.DeleteRepository(projectId, repositoryId)];
      r := env.deleteRepository(projectId, repositoryId);
    }

    method DeleteTag(projectId: int, repositoryId: int, tag: string) returns (r: Outcome)
      modifies this
      ensures log == old(log) + [Call.DeleteTag(projectId, repositoryId, tag)] && ticks == old(ticks)
      ensures r == env.deleteTag(projectId, repositoryId, tag)
    {
      log := log + [Call.DeleteTag(projectId, repositoryId, tag)];
      r := env.deleteTag(projectId, repositoryId, tag);
    }

    method NewDockerClient() returns (r: Outcome)
      modifies this
      ensures log == old(log) + [Call.NewDockerClient] && ticks == old(ticks)
      ensures r == env.dockerClient
    {
      log := log + [Call.NewDockerClient];
      r := env.dockerClient;
    }

    method CheckDocker() returns (r: Outcome)
      modifies this
      ensures log == old(log) + [Call.CheckDocker] && ticks == old(ticks)
      ensures r == env.dockerRunning
    {
      log := log + [Call.CheckDocker];
      r := env.dockerRunning;
    }

    method Login(registry: string, user: string, token: string) returns (r: LoginReply)
      modifies this
      ensures log == old(log) + [Call.Login(registry, user, token)] && ticks == old(ticks)
      ensures r == env.login(registry, user, token)
    {
      log := log + [Call.Login(registry, user, token)];
      r := env.login(registry, user, token);
    }

    method Pull(ref: string) returns (r: Outcome)
      modifies this
      ensures log == old(log) + [Call.Pull(ref)] && ticks == old(ticks)
      ensures r == env.pull(ref)
    {
      log := log + [Call.Pull(ref)];
      r := env.pull(ref);
    }

    method TagImage(source: string, target: string) returns (r: Outcome)
      modifies this
      ensures log == old(log) + [Call.TagImage(source, target)] && ticks == old(ticks)
      ensures r == env.tagImage(source, target)
    {
      log := log + [Call.TagImage(source, target)];
      r := env.tagImage(source, target);
    }

    method Push(ref: string) returns (r: Outcome)
      modifies this
      ensures log == old(log) + [Call.Push(ref)] && ticks == old(ticks)
      ensures r == env.push(ref)
    {
      log := log + [Call.Push(ref)];
      r := env.push(ref);
    }

    /** SleepWithLog: one fixed-duration pause, one clock tick. */
    method Sleep()
      modifies this
      ensures log == old(log) + [Call.Sleep] && ticks == old(ticks) + 1
    {
      log := log + [Call.Sleep];
      ticks := ticks + 1;
    }
  }
}
