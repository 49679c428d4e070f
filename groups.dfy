/** Group operations of the migration: looking a group up by path and transferring it. */
module Groups {
  import opened Wrappers
  import opened Strings
  import opened Platform

  const SearchPrefix: string := "failed to search group "

  /**
   * The result of SearchGroup given the platform's reply: the reply itself on success
   * (possibly no group), otherwise an error naming the path and wrapping the cause.
   */
  function SearchOutcome(name: string, reply: Result<Option<Group>>): (r: Result<Option<Group>>)
    ensures r.Ok? <==> reply.Ok?
    ensures r.Ok? ==> r.value == reply.value
    ensures r.Err? ==> OccursAt(r.error, name, |SearchPrefix|)
    ensures r.Err? ==> EndsWith(r.error, reply.error)
  {
    match reply
    case Ok(g) => Ok(g)
    case Err(e) =>
      var msg := SearchPrefix + name + ": " + e;
      assert msg[|SearchPrefix|..|SearchPrefix| + |name|] == name;
      assert msg[|msg| - |e|..] == e;
      Err(msg)
  }

  /** The error a group transfer ends in: only status 201 counts as success. */
  function TransferGroupOutcome(reply: Result<int>): (r: Outcome)
    ensures r.Pass? <==> reply == Ok(201)
    ensures reply.Err? ==> r == Fail("failed to transfer group: " + reply.error)
  {
    match reply
    case Err(e) => Fail("failed to transfer group: " + e)
    case Ok(code) => if code != 201 then Fail("unexpected status code: " + IntToString(code)) else Pass
  }

  /** GroupMigrator: group requests, the transfer suppressed in dry-run mode. */
  class GroupMigrator {
    const platform: Platform
    const dryRun: bool

    constructor (platform: Platform, dryRun: bool)
      ensures this.platform == platform && this.dryRun == dryRun
    {
      this.platform := platform;
      this.dryRun := dryRun;
    }

    /** SearchGroup: a read request, issued in dry-run mode too. */
    method SearchGroup(name: string) returns (r: Result<Option<Group>>)
      modifies platform
      ensures platform.log == old(platform.log) + [Call.SearchGroup(name)]
      ensures platform.ticks == old(platform.ticks)
      ensures r == SearchOutcome(name, platform.env.searchGroup(name))
    {
      var reply := platform.SearchGroup(name);
      if reply.Err? {
        return Err(SearchPrefix + name + ": " + reply.error);
      }
      return Ok(reply.value);
    }

    /** TransferGroup: move group `groupId` under `targetId`; nothing is requested in dry-run mode. */
    method TransferGroup(groupId: int, targetId: int) returns (err: Outcome)
      modifies platform
      ensures platform.ticks == old(platform.ticks)
      ensures dryRun ==> platform.log == old(platform.log) && err == Pass
      ensures !dryRun ==> platform.log == old(platform.log) + [Call.TransferGroup(groupId, targetId)]
      ensures !dryRun ==> err == TransferGroupOutcome(platform.env.transferGroup(groupId, targetId))
    {
      if dryRun {
        return Pass;
      }
      var reply := platform.TransferGroup(groupId, targetId);
      if reply.Err? {
        return Fail("failed to transfer group: " + reply.error);
      }
      if reply.value != 201 {
        return Fail("unexpected status code: " + IntToString(reply.value));
      }
      return Pass;
    }
  }
}
