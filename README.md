# migraptor in Dafny

migraptor moves a GitLab group, or some of its projects, to a new place in the group
hierarchy without losing their container images. GitLab refuses to transfer a project
whose registry still holds images. The tool therefore runs a fixed pipeline:

1. Back up: pull every retained image of every migrated project, having unarchived archived projects first.
2. Evict: delete the registry repositories and wait until the registry no longer lists them.
3. Move: transfer the whole group, or transfer each project into a subgroup or into the destination.
4. Restore: re-tag every image under its new path, push it, and re-archive the projects that were archived.

A dry run works the same way and is meant to issue no request that changes anything;
`cmd/migrate/main.go` misses this in one place (see "## Findings"). A separate
cleaner presents the images of a set of projects as a tree of projects, registries and
images, lets the user select some of them, and deletes the selected tags. An image
summary view lists images grouped by project.

This project models that core:

- the configuration post-processing: environment overrides, legacy list variables, defaults and validation;
- the three migrators (groups, projects, images) as classes over an abstract platform;
- `runMigration` as a specification function of the whole run, plus a method proved against it;
- the cleaner's tree model and its event loop;
- the summary's grouping, line building and viewport.

The platform (the GitLab API, the Docker engine and the clock) is one class, `Platform.Platform`.
It records every call in a `log` and counts pauses in `ticks`. It takes its replies from an
environment of oracle functions, `Platform.Env`. A registry listing depends on the clock reading,
so the model can express the wait for an eviction to become visible.

Every migrator method is proved to append to the log exactly the calls of a specification
function, and to return that function's result. The properties of the pipeline are lemmas
about those functions. They include:

- A dry run never issues a mutating call and never pauses, whatever the platform replies. This holds of the run with the intended subgroup step; the step as written breaks it.
- No group or project moves before every backup has succeeded and the wait has ended.
- A failed backup, a wait that runs out of retries, and a failed group transfer or subgroup creation each end the run with 99.
- A backup fails fast: its last call is the pull that failed.
- The wait is bounded by 30 pauses per project.
- A migrated project is re-archived exactly when it was archived and, where it moves on its own, its transfer succeeded.

The run model departs from `cmd/migrate/main.go` in two places, and a few branches of
the code behave in ways worth stating:

- `cmd/migrate/main.go` was not updated along with the migration package. It calls `BackupImages` with two results where the package returns three. It passes the project slice where `CheckIfRemainingImages` takes a map. It never calls `DeleteRegistries`, so as written the wait could only time out on a project with images. The model uses the package's signatures, and it evicts the backed-up repositories after the backup loop and before the wait, in the pipeline order above: back up, evict, wait, move, restore.
- The whole-run model (`Migrate.Migration`, the functions it is built from, and the `Migrate.Runner` methods proved against them) uses the intended subgroup step, `Migrate.SubgroupMove`, which creates no subgroup in dry-run mode. As written, `main.go:277-286` calls `CreateGroup` in dry-run mode too. `Migrate.SubgroupMoveAsWritten` models that step as written, and "## Findings" records the difference.
- A listing error during the wait counts as an empty registry: the error is ignored and the empty slice is read (`Images.StillListed`).
- A wait that runs out of retries returns an error, and the run then ends with 99 before anything moves (`Migrate.WaitFailureMovesNothing`).
- `ListProjects` already drops every project outside the filter, so the registry-less clause of `ShouldMigrateProject` never decides anything in the pipeline (`Projects.ListedAreMigrated`).

## Model

| member | source | states |
|---|---|---|
| Strings.LeadingLenSpec | internal/config/config.go:312 | the leading run TrimSpace removes consists of white space and the character after it is none |
| Strings.TrailingLenSpec | internal/config/config.go:312 | the trailing run TrimSpace removes consists of white space and the character before it is none |
| Strings.TrimFuncSpec | internal/config/config.go:312 | a trim result is the infix whose outside is droppable and whose two ends are not |
| Strings.TrimFuncIdempotent | internal/config/config.go:312 | trimming twice is trimming once |
| Strings.TrimFuncNoop | internal/config/config.go:312 | a string without droppable ends is unchanged |
| Strings.TrimSpace | internal/config/config.go:312 | defines strings.TrimSpace: TrimFunc dropping white space; TrimFuncSpec, TrimFuncIdempotent and TrimFuncNoop state what it returns |
| Strings.TrimQuotes | internal/migration/images.go:195 | defines strings.Trim with the cutset `"`: TrimFunc dropping double quotes; the same three lemmas state what it returns |
| Strings.IndexOfChar | internal/config/config.go:310 | the index found is at most the length and holds the separator when below it |
| Strings.IndexOfCharFirst | internal/config/config.go:310 | no separator precedes the index found |
| Strings.Split | internal/config/config.go:310 | strings.Split gives at least one piece |
| Strings.SplitAt | internal/config/config.go:310 | a string holding a separator splits into its first piece followed by the pieces of the rest |
| Strings.SplitFree | internal/config/config.go:310 | no piece holds a separator |
| Strings.SplitJoinBack | internal/config/config.go:310 | joining the pieces with the separator gives the string back |
| Strings.SplitSpec | internal/config/config.go:310 | the pieces are separator-free and join back to the string |
| Strings.SplitJoin | internal/config/config.go:310 | splitting a join of separator-free pieces gives the pieces back |
| Strings.LastSegment | cmd/migrate/main.go:273-274 | the last segment is no longer than the string |
| Strings.LastSegmentSpec | cmd/migrate/main.go:273-274 | the last segment is a separator-free suffix, preceded by a separator unless it is the whole string |
| Strings.LastSegmentUnique | cmd/migrate/main.go:273-274 | it is the only separator-free suffix that is whole or preceded by a separator |
| Strings.LastSegmentConcat | cmd/migrate/main.go:273-274 | dropping everything up to an earlier separator keeps the last segment |
| Strings.SplitNone | cmd/migrate/main.go:273-274 | without a separator, Split gives the string alone and it is its own last segment |
| Strings.SplitLast | cmd/migrate/main.go:273-274 | indexing Split's last piece gives the last segment |
| Strings.IndexFromSpec | internal/migration/images.go:203 | the search from an index finds the first occurrence at or after it, or reports that there is none |
| Strings.Index | internal/migration/images.go:203 | an occurrence found lies wholly inside the string; IndexSpec states that it is the first one |
| Strings.IndexSpec | internal/migration/images.go:203 | strings.Index finds an occurrence with none before it, or reports none exists |
| Strings.ReplaceFirst | internal/migration/images.go:203 | defines strings.Replace with count 1; ReplaceFirstAbsent, ReplaceFirstAt and ReplaceFirstPrefix state what it returns |
| Strings.ReplaceFirstAbsent | internal/migration/images.go:203 | without an occurrence strings.Replace(s, pat, repl, 1) leaves s unchanged |
| Strings.ReplaceFirstAt | internal/migration/images.go:203 | the replacement happens at the first occurrence |
| Strings.ReplaceFirstPrefix | internal/migration/images.go:203 | a string starting with the pattern has exactly that prefix replaced |
| Strings.ReplaceFirstRoundTrip | internal/migration/images.go:203 | replacing back restores the string exactly when the first `repl` of the result is the inserted one |
| Strings.ReplaceFirstPrefixRoundTrip | internal/migration/images.go:203 | when the string starts with the pattern, replacing back is a round trip |
| Strings.NatToString | internal/migration/groups.go:54 | `%d` of a natural number is a non-empty string of decimal digits |
| Strings.TrimPrefixPrepend | cmd/migrate/main.go:197 | strings.TrimPrefix undoes prepending the prefix once |
| Platform.Platform.SearchGroup | internal/gitlab/client.go:43-56 | one search request is logged and the environment's reply is returned |
| Platform.Platform.CreateGroup | internal/gitlab/client.go:63-76 | one creation request is logged and the environment's reply is returned |
| Platform.Platform.ListRepositories | internal/gitlab/client.go:161-164 | one listing is logged and the reply for the current clock reading is returned |
| Platform.Platform.Sleep | internal/ui/output.go:378-383 | a pause is logged and advances the clock by one tick |
| Platform.Platform.NewGitLabClient | internal/gitlab/client.go:19-36 | one client creation is logged, the clock stays, and the environment's outcome is returned |
| Platform.Platform.CurrentUser | internal/gitlab/client.go:197-200 | one user lookup is logged, the clock stays, and the environment's reply is returned |
| Platform.Platform.CheckConnection | internal/gitlab/client.go:202-208 | one connection check is logged, the clock stays, and the environment's outcome is returned |
| Platform.Platform.TransferGroup | internal/gitlab/client.go:78-94 | one group transfer is logged, the clock stays, and the environment's status or error is returned |
| Platform.Platform.ListProjects | internal/gitlab/client.go:105-114 | one project listing is logged, the clock stays, and the environment's reply is returned |
| Platform.Platform.TransferProject | internal/gitlab/client.go:116-129 | one project transfer is logged, the clock stays, and the environment's status or error is returned |
| Platform.Platform.ArchiveProject | internal/gitlab/client.go:131-144 | one archive request is logged, the clock stays, and the environment's status or error is returned |
| Platform.Platform.UnarchiveProject | internal/gitlab/client.go:146-159 | one unarchive request is logged, the clock stays, and the environment's status or error is returned |
| Platform.Platform.ListTags | internal/gitlab/client.go:166-169 | one tag listing is logged, the clock stays, and the environment's reply is returned |
| Platform.Platform.DeleteRepository | internal/gitlab/client.go:171-179 | one repository deletion is logged, the clock stays, and the environment's outcome is returned |
| Platform.Platform.DeleteTag | internal/gitlab/client.go:181-195 | one tag deletion is logged, the clock stays, and the environment's outcome is returned |
| Platform.Platform.NewDockerClient | internal/docker/client.go:31-43 | one Docker client creation is logged, the clock stays, and the environment's outcome is returned |
| Platform.Platform.CheckDocker | internal/docker/client.go:55-62 | one Docker engine check is logged, the clock stays, and the environment's outcome is returned |
| Platform.Platform.Login | internal/docker/client.go:79-114 | one registry login is logged, the clock stays, and the environment's reply is returned: logged in, a refused first attempt (fatal in the client), or a returned error |
| Platform.Platform.Pull | internal/docker/client.go:125-143 | one pull is logged, the clock stays, and the environment's outcome is returned |
| Platform.Platform.TagImage | internal/docker/client.go:145-152 | one tag operation is logged, the clock stays, and the environment's outcome is returned |
| Platform.Platform.Push | internal/docker/client.go:154-169 | one push is logged, the clock stays, and the environment's outcome is returned |
| Groups.SearchOutcome | internal/migration/groups.go:28-37 | success exactly when the reply succeeded, with the reply's group; an error names the path and ends with the cause |
| Groups.TransferGroupOutcome | internal/migration/groups.go:40-60 | a group transfer succeeds exactly on status 201; a transport error is wrapped as "failed to transfer group: " followed by the error |
| Groups.GroupMigrator.constructor | internal/migration/groups.go:19-25 | the migrator works on the given platform and dry-run mode |
| Groups.GroupMigrator.SearchGroup | internal/migration/groups.go:28-37 | one search is issued, in dry-run mode too, and its outcome is SearchOutcome |
| Groups.GroupMigrator.TransferGroup | internal/migration/groups.go:40-60 | in dry-run mode nothing is issued and it succeeds, otherwise one transfer is issued with outcome TransferGroupOutcome |
| Projects.Listed | internal/migration/projects.go:43-70 | defines the filter loop of ListProjects: the projects on the filter, copied, in listing order; ListedWithoutFilter, ListedMembers, ListedAppend and ListedAreMigrated state what it returns |
| Projects.ListProjectsResult | internal/migration/projects.go:37-73 | defines ListProjects given the listing reply: an error wrapped with "failed to list projects: ", otherwise Listed; ProjectMigrator.ListProjects is proved to return it |
| Projects.ListedWithoutFilter | internal/migration/projects.go:37-73 | without a filter every listed project is returned as a faithful copy, in order |
| Projects.ListedMembers | internal/migration/projects.go:37-73 | a project is returned exactly when some listed project passes the filter and copies to it |
| Projects.ListedAppend | internal/migration/projects.go:37-73 | filtering a concatenation is concatenating the filtered parts |
| Projects.ScanFilter | internal/migration/projects.go:143-154 | the filter scan accepts exactly a named path, or a registry-less project when the parent is kept |
| Projects.ShouldMigrateProject | internal/migration/projects.go:138-155 | everything migrates without a filter; otherwise exactly named projects and, with the parent kept, registry-less ones |
| Projects.ListedAreMigrated | internal/migration/projects.go:37-73 | every project ListProjects returns passes ShouldMigrateProject, whatever keepParent is |
| Projects.ArchiveOutcome | internal/migration/projects.go:76-117 | an archive or unarchive request succeeds exactly on status 200 or 201; a transport error is wrapped with the verb |
| Projects.TransferOutcome | internal/migration/projects.go:120-135 | a project transfer succeeds whenever the request does, whatever its status |
| Projects.ProjectMigrator.constructor | internal/migration/projects.go:28-34 | the migrator works on the given platform and dry-run mode |
| Projects.ProjectMigrator.ListProjects | internal/migration/projects.go:37-73 | one listing is issued, in dry-run mode too; the result is the filtered copy or the wrapped error |
| Projects.ProjectMigrator.UnarchiveProject | internal/migration/projects.go:76-95 | nothing is issued in dry-run mode; otherwise one unarchive request, with outcome ArchiveOutcome |
| Projects.ProjectMigrator.ArchiveProject | internal/migration/projects.go:98-117 | nothing is issued in dry-run mode; otherwise one archive request, with outcome ArchiveOutcome |
| Projects.ProjectMigrator.TransferProject | internal/migration/projects.go:120-135 | nothing is issued in dry-run mode; otherwise one transfer request, with outcome TransferOutcome |
| Config.Validate | internal/config/config.go:334-345 | an error exactly when the token, the old group or the new group is empty, reported in that order |
| Config.FlagNameForKey | internal/config/config.go:43-62 | every setting key is looked up under the flag of the same name |
| Config.Overridden | internal/config/config.go:270-300 | defines the settings after one override loop; OverriddenGet, OverridePrecedence, OverriddenNothing and OverriddenStep state what it holds |
| Config.OverriddenGet | internal/config/config.go:270-300 | after the override loops a key holds the environment value exactly when no flag with a value wins and the variable is non-empty |
| Config.OverridePrecedence | internal/config/config.go:270-300 | after both override loops a flag with a value wins; otherwise a non-empty MIGRAPTOR_ variable, then a non-empty legacy variable, then the file value |
| Config.OverriddenNothing | internal/config/config.go:270-300 | with no key visited yet the settings are those loaded |
| Config.OverriddenStep | internal/config/config.go:270-300 | visiting one more key applies exactly that key's override |
| Config.RestrictAll | internal/config/config.go:270-300 | once every key has been visited, the override table is the one the overrides are taken from |
| Config.Settings.constructor | internal/config/config.go:126-268 | the settings are the values loaded from defaults, file and flags |
| Config.Settings.ApplyEnvOverrides | internal/config/config.go:270-300 | the loop over the override table, in any key order, leaves the settings Overridden |
| Config.Settings.ApplyEnvOverride | internal/config/config.go:271-283 | one key is set from its variable unless a flag with a value wins or the variable is empty; nothing else changes |
| Config.TrimAll | internal/config/config.go:311-313 | each entry is trimmed in place, length kept |
| Config.TrimmedPiece | internal/config/config.go:311-313 | a trimmed piece has no white space at either end |
| Config.SplitTrimPieces | internal/config/config.go:310-313 | a split-and-trimmed list has at least one entry, none holding a comma or white space at an end |
| Config.SplitAndTrim | internal/config/config.go:310-313 | the loop returns exactly the trimmed pieces of the split |
| Config.LegacyList | internal/config/config.go:309-320 | an empty variable or a non-empty list keeps the list; otherwise the result has one entry per comma-separated piece of the variable, at least one, each that piece trimmed, none holding a comma or white space at its ends |
| Config.ReadLegacyList | internal/config/config.go:309-320 | the method computes LegacyList |
| Config.WithDefaults | internal/config/config.go:323-328 | an empty registry becomes "registry." plus the instance, an empty Docker token becomes the GitLab token, nothing else changes |
| Config.WithDefaultsSettles | internal/config/config.go:323-328 | the registry is never empty afterwards, the Docker token is empty exactly when both tokens were, and applying the defaults twice is applying them once |
| Config.FinishLoad | internal/config/config.go:308-328 | the loaded settings after the legacy lists and the defaults |
| Config.ApplyDefaults | internal/config/config.go:323-328 | the method computes WithDefaults |
| Images.Retained | internal/migration/images.go:48-68 | defines the tag filter loop of GetImages: the images of the tags on the filter, in order; RetainedWithoutFilter, RetainedMembers and RetainedAppend state what it returns |
| Images.GetImagesResult | internal/migration/images.go:41-71 | success exactly when the tag listing succeeded, with the retained images; otherwise an error wrapping the cause |
| Images.RetainedWithoutFilter | internal/migration/images.go:48-68 | without a tag filter every tag is kept as a faithful copy, in order |
| Images.RetainedMembers | internal/migration/images.go:48-68 | an image is returned exactly when some tag passes the filter and copies to it |
| Images.RetainedAppend | internal/migration/images.go:48-68 | filtering preserves order over a concatenation |
| Images.Locations | internal/migration/images.go:114-125 | the pull references are the images' locations, in order |
| Images.Pulls | internal/migration/images.go:114-126 | defines the pull loop: pull each image in order and stop at the first failure; PullsFailStable, PullsSucceeded, PullsFailLast and PullsStationary state its calls and outcome |
| Images.RepoStep | internal/migration/images.go:94-126 | defines one repository of BackupImages: a tag listing, then the pulls (none in dry-run mode); RepoStepFailLast and BackupSkipsRepository state its calls and result |
| Images.BackupRepos | internal/migration/images.go:88-127 | defines the repository loop, stopping at the first failed pull; BackupReposNext, BackupReposFailStable, BackupReposPulled, BackupReposFailLast and BackupReposDryRun state its calls and result |
| Images.BackupTrace | internal/migration/images.go:74-129 | defines BackupImages for a clock reading: a listing, the wrapped listing error, nothing for no repository, else the repository loop; BackupReturnsRetained, BackupPullsEverything, BackupFailsFast and BackupDryRun state what it does |
| Images.PullsFailStable | internal/migration/images.go:114-126 | once a pull fails nothing more is pulled |
| Images.BackupReposNext | internal/migration/images.go:88-127 | one more repository extends the calls and the collected references by its own step |
| Images.BackupReposFailStable | internal/migration/images.go:88-127 | once a repository fails, no later repository is touched |
| Images.PullsStationary | internal/migration/images.go:114-126 | pulling moves no group and no project |
| Images.BackupReposStationary | internal/migration/images.go:88-127 | the repository loop moves no group and no project |
| Images.BackupTraceStationary | internal/migration/images.go:74-129 | the backup moves no group and no project |
| Images.BackupReposLocations | internal/migration/images.go:88-128 | a successful repository loop returns every retained location, in repository then tag order |
| Images.BackupReturnsRetained | internal/migration/images.go:74-129 | a successful backup returns the listed repositories and every retained location; repositories without listable or retained tags add nothing |
| Images.BackupWithoutRepositories | internal/migration/images.go:80-83 | without a registry repository only the listing is issued and the backup is empty |
| Images.PullsSucceeded | internal/migration/images.go:114-126 | after a successful pull loop every image was pulled and its pull succeeded |
| Images.BackupReposPulled | internal/migration/images.go:88-127 | every reference returned outside dry-run mode was pulled successfully |
| Images.BackupPullsEverything | internal/migration/images.go:74-129 | outside dry-run mode, every image of a returned backup was pulled and pulled successfully |
| Images.EndsInFailedPullAppend | internal/migration/images.go:120-123 | a trace whose last call is a failed pull still ends so after calls are prepended |
| Images.PullsFailLast | internal/migration/images.go:120-123 | a failed pull loop ends on the failed pull, with that pull's message |
| Images.RepoStepFailLast | internal/migration/images.go:94-126 | a repository fails only on a pull, outside dry-run mode, and that pull is its last call |
| Images.BackupReposFailLast | internal/migration/images.go:88-127 | a failed repository loop ends on a failed pull, outside dry-run mode |
| Images.BackupFailsFast | internal/migration/images.go:74-129 | once the repositories are listed, the backup fails only on a pull, outside dry-run mode, and that pull is the last call |
| Images.BackupReposDryRun | internal/migration/images.go:88-127 | in dry-run mode the repository loop succeeds and only reads |
| Images.BackupDryRun | internal/migration/images.go:74-129 | in dry-run mode the backup only reads and fails exactly when the repositories cannot be listed |
| Images.BackupSkipsRepository | internal/migration/images.go:94-103 | a repository without a retained image adds only its tag listing to the calls |
| Images.Evictions | internal/migration/images.go:131-148 | defines the calls of DeleteRegistries outside dry-run mode; EvictionsShape states one delete and one pause per repository, in order |
| Images.StillListed | internal/migration/images.go:167-168 | defines the wait's test: the listing at the current clock reading holds a repository; a listing error counts as none, since the code reads only the (empty) slice |
| Images.Poll | internal/migration/images.go:166-179 | defines the wait for one project with a retry budget of 30; PollDone, PollTimeout, PollRetry, PollBounded and PollOutcome state its calls, clock and outcome |
| Images.ProjectWait | internal/migration/images.go:157-180 | defines the wait for one project: nothing without a registry or in dry-run mode, else Poll from no retry spent |
| Images.WaitAll | internal/migration/images.go:150-184 | defines CheckIfRemainingImages over the projects, stopping at the first timeout; WaitAllNext, WaitAllFailStable, WaitAllDryRun, WaitAllStationary and WaitAllBounded state what it does |
| Images.EvictionsShape | internal/migration/images.go:131-148 | outside dry-run mode, one delete per repository in order, each followed by a pause |
| Images.WaitAllNext | internal/migration/images.go:156-181 | one more project extends the wait by its own wait, unless a timeout already ended it |
| Images.WaitAllAdvance | internal/migration/images.go:156-181 | a project's timeout is the outcome of the whole wait; in dry-run mode the first registry project ends the loop with nothing issued |
| Images.WaitAllFailStable | internal/migration/images.go:172-175 | after a timeout the remaining projects change nothing |
| Images.PollDone | internal/migration/images.go:167-171 | a reading that lists no repository ends the project's wait well |
| Images.PollTimeout | internal/migration/images.go:172-175 | a reading that still lists repositories once the 30 retries are spent ends the wait with an error naming the project |
| Images.PollRetry | internal/migration/images.go:176-178 | a reading that still lists repositories within the budget is followed by one pause and the next reading |
| Images.PollBounded | internal/migration/images.go:154-179 | a project's wait pauses at most the remaining budget and the clock advances by exactly its pauses |
| Images.PollOutcome | internal/migration/images.go:154-179 | a project's wait times out exactly when every reading in the budget still lists repositories; a good end follows an empty reading |
| Images.WaitAllDryRun | internal/migration/images.go:160-163 | in dry-run mode the wait issues nothing, never pauses and ends well |
| Images.PollStationary | internal/migration/images.go:166-179 | the polling moves no group and no project |
| Images.WaitAllStationary | internal/migration/images.go:150-184 | the wait moves no group and no project |
| Images.EvictionsStationary | internal/migration/images.go:131-148 | the eviction moves no group and no project |
| Images.WaitAllBounded | internal/migration/images.go:150-184 | the whole wait pauses at most 30 times per project and the clock advances by exactly its pauses |
| Images.Target | internal/migration/images.go:195-205 | defines the pushed reference: the quote-trimmed image with its first occurrence of the quote-trimmed old path replaced; TargetReroots states that an image under the old root is re-rooted |
| Images.Rewrites | internal/migration/images.go:194-205 | defines the (source, target) pair of each image, in order; RewritesAt states that pair for every index |
| Images.RestoreStep | internal/migration/images.go:213-227 | defines the calls for one image: a tag, then a push only when the tag succeeded |
| Images.Restores | internal/migration/images.go:194-229 | defines the calls of RestoreImages outside dry-run mode; RestoresNext, RestoresTagEvery, RestoresOnlyImages and RestoresPushes state them |
| Images.TargetReroots | internal/migration/images.go:195-208 | an image under the quote-trimmed old root is re-rooted under the new path |
| Images.RewritesAt | internal/migration/images.go:194-208 | each image is paired, in order, with its quote-trimmed reference and its target |
| Images.RewritesNext | internal/migration/images.go:194-208 | one more image appends exactly its own rewrite |
| Images.RestoresNext | internal/migration/images.go:194-230 | one more image appends exactly its tag and, when that succeeded, its push |
| Images.RestoresTagEvery | internal/migration/images.go:217-221 | every image is tagged with its target, whatever happened to those before it |
| Images.RestoresOnlyImages | internal/migration/images.go:213-229 | the restore issues only tags and pushes |
| Images.RestoresPushes | internal/migration/images.go:217-228 | a reference is pushed exactly when it is the target of an image whose tag succeeded |
| Images.CollectRepos | internal/migration/images.go:254-275 | defines the repository loop of GetAllImagesFromProjects; CollectReposOf, CollectReposHas and CollectReposReadOnly state what it returns and issues |
| Images.CollectProject | internal/migration/images.go:239-252 | defines one project of GetAllImagesFromProjects: nothing for a registry-less project or a failed listing, else the repository loop |
| Images.CollectAll | internal/migration/images.go:236-279 | defines GetAllImagesFromProjects over the projects in order; CollectAllItems, CollectAllHas and CollectAllReadOnly state what it returns and issues |
| Images.RepoItemsOf | internal/migration/images.go:254-275 | each item of a repository belongs to it, carries a retained tag and is unselected |
| Images.RepoItemsMembers | internal/migration/images.go:261-274 | each item of a repository is the copy of one of its images |
| Images.CollectReposOf | internal/migration/images.go:254-275 | each item collected for a project belongs to one of its listed repositories |
| Images.CollectAllItems | internal/migration/images.go:236-279 | every collected item is unselected, carries a retained tag and belongs to a registry-enabled project of the input |
| Images.RepoItemsHas | internal/migration/images.go:261-274 | every image of a repository yields its item |
| Images.CollectReposHas | internal/migration/images.go:254-275 | every retained tag of every listed repository yields an item |
| Images.CollectAllHas | internal/migration/images.go:236-279 | every retained tag of every listed repository of every registry-enabled project yields an item: the converse of CollectAllItems |
| Images.CollectReposReadOnly | internal/migration/images.go:254-275 | collecting a project's repositories only reads |
| Images.CollectAllReadOnly | internal/migration/images.go:236-279 | collecting the images only reads and never pauses |
| Images.ImageMigrator.constructor | internal/migration/images.go:31-38 | the migrator works on the given platform and dry-run mode |
| Images.ImageMigrator.GetImages | internal/migration/images.go:41-71 | one tag listing is issued and the result is GetImagesResult of the reply |
| Images.ImageMigrator.BackupImages | internal/migration/images.go:74-129 | the calls and result are those of BackupTrace |
| Images.ImageMigrator.BackupRepositories | internal/migration/images.go:88-127 | the loop's calls and result are those of BackupRepos |
| Images.ImageMigrator.BackupRepository | internal/migration/images.go:94-126 | one repository's calls and result are those of RepoStep |
| Images.ImageMigrator.PullImages | internal/migration/images.go:114-126 | the pull loop's calls and outcome are those of Pulls, and nothing is issued in dry-run mode |
| Images.ImageMigrator.DeleteRegistries | internal/migration/images.go:131-148 | never fails; nothing in dry-run mode, otherwise Evictions, with one tick per repository |
| Images.ImageMigrator.CheckIfRemainingImages | internal/migration/images.go:150-184 | the calls, final clock and outcome are those of WaitAll |
| Images.ImageMigrator.WaitProject | internal/migration/images.go:157-180 | one project's calls, clock and outcome are those of ProjectWait |
| Images.ImageMigrator.WaitForProject | internal/migration/images.go:166-179 | the retry loop's calls, clock and outcome are those of Poll from zero retries |
| Images.ImageMigrator.RestoreImages | internal/migration/images.go:187-233 | never fails; nothing in dry-run mode, otherwise exactly the calls of Restores over the rewrites |
| Images.ImageMigrator.RestoreImage | internal/migration/images.go:195-229 | one image's calls are its RestoreStep |
| Images.ImageMigrator.GetAllImagesFromProjects | internal/migration/images.go:236-279 | the calls and items are those of CollectAll, and it never fails |
| Images.ImageMigrator.CollectProjectImages | internal/migration/images.go:240-275 | one project's calls and items are those of CollectProject |
| Images.ImageMigrator.ImageItems | internal/migration/images.go:261-274 | one repository's items are RepoItems of its images |
| Migrate.KeepParentAfterFlag | cmd/migrate/main.go:81-84 | the keep-parent flag turns keeping the parent off; without it the loaded value stands |
| Migrate.FlagList | cmd/migrate/main.go:87-99 | defines the command-line list handling; FlagListSpec states what it returns |
| Migrate.FlagListSpec | cmd/migrate/main.go:87-99 | an empty command-line list keeps the loaded list; otherwise the trimmed pieces of its split, none holding a comma |
| Migrate.Prepared | cmd/migrate/main.go:81-109 | defines the settings a run works with: the keep-parent flag, the two command-line lists, then the defaults; PrepareConfig is proved to compute it and PreparedDryRunReadOnly states the dry-run property for it |
| Migrate.PrepareConfig | cmd/migrate/main.go:81-109 | the method computes the prepared settings |
| Migrate.ReadFlagList | cmd/migrate/main.go:87-99 | the method computes FlagList |
| Migrate.Connection | cmd/migrate/main.go:123-167 | the checks run in order and the first failure ends the run: 1 for the first three and for a refused first login attempt (internal/docker/client.go:96-99 exits the process), 99 for the other failures; they only read |
| Migrate.Connect | cmd/migrate/main.go:123-167 | the method issues the calls of Connection and returns its code |
| Migrate.DestinationPath | cmd/migrate/main.go:197 | one leading "/" of the new group name is removed, and nothing else changes |
| Migrate.SubgroupPathSpec | cmd/migrate/main.go:273-276 | the subgroup is named after the old path's last "/" segment and looked up directly below the destination |
| Migrate.RestoreReroots | cmd/migrate/main.go:316-324 | an image below the old full path is restored below the destination, with the old path kept when the parent is kept |
| Migrate.Mode | cmd/migrate/main.go:258-291 | whole-group transfer exactly with the parent kept and no project list, a subgroup with a list, otherwise per-project |
| Migrate.TransferModesExclusive | cmd/migrate/main.go:258-313 | the restore loop transfers each project exactly when the whole group did not move |
| Migrate.Migration | cmd/migrate/main.go:62-344 | exit codes are 1, 99 or 321; an invalid configuration exits 1 before any call; 321 exactly when the source lookup fails (with the intended subgroup step) |
| Migrate.FoundGroups | cmd/migrate/main.go:178-217 | 321 exactly when the source lookup errs or finds nothing; 99 when the source is found and the destination search errs; 1 exactly when the listing then errs or is empty (with the intended subgroup step) |
| Migrate.Lookups | cmd/migrate/main.go:200-217 | a failed destination search ends the run with 99 after that one call; exit 1 exactly when the destination search succeeds and the listing errs or is empty (with the intended subgroup step) |
| Migrate.Listing | cmd/migrate/main.go:207-217 | exit 1 exactly when the listing errs or is empty (with the intended subgroup step) |
| Migrate.ProjectBackup | cmd/migrate/main.go:224-248 | defines the backup of one project: skipped when not migrated, unarchived first when archived (not in dry-run mode) and skipped when that fails, then backed up when it has a registry; ProjectBackupOrder states the order |
| Migrate.Backups | cmd/migrate/main.go:223-249 | defines the backup loop, stopping at the first failed backup; BackupsNext, BackupsFailStable, BackupsStationary and BackupsDryRun state what it does |
| Migrate.Evict | internal/migration/images.go:131-148 | defines the eviction of the backed-up registries project by project, nothing in dry-run mode; EvictStationary states that it moves nothing |
| Migrate.BackupsNext | cmd/migrate/main.go:223-249 | one more project extends the backup loop by its own step |
| Migrate.BackupsFailStable | cmd/migrate/main.go:243-246 | after a failed backup the remaining projects add nothing |
| Migrate.AfterBackup | cmd/migrate/main.go:250-344 | after the backups the run ends with 99, completes or panics (with the intended subgroup step) |
| Migrate.ProjectsRun | cmd/migrate/main.go:219-344 | the listed projects' run ends with 99, completes or panics (with the intended subgroup step) |
| Migrate.SubgroupMoveAsWritten | cmd/migrate/main.go:270-291 | defines the subgroup step as the code has it, creating the subgroup in dry-run mode too; SubgroupDryRunCreates states that it then issues a mutating call |
| Migrate.SubgroupMove | cmd/migrate/main.go:270-291 | outside dry-run mode the intended subgroup step is the step as written, and it never pauses |
| Migrate.SubgroupMoveDryRun | cmd/migrate/main.go:270-291 | in dry-run mode the intended subgroup step only looks the subgroup up |
| Migrate.SubgroupDryRunCreates | cmd/migrate/main.go:277-286 | as written, a dry run whose subgroup lookup errs issues a group creation |
| Migrate.TransferStepFails | cmd/migrate/main.go:257-292 | defines the transfer step's failure outside dry-run mode: a refused whole-group transfer (main.go:261-264) or a subgroup lookup error followed by a creation error (main.go:278-285) |
| Migrate.Destination | cmd/migrate/main.go:257-292 | the transfer step stops only with exit 99 or a panic, and with 99 exactly when it fails outside dry-run mode (a refused whole-group transfer, or a subgroup neither found nor created); it issues a group transfer only in whole-group mode and never pauses when projects move one by one (with the intended subgroup step) |
| Migrate.RestoreCalls | cmd/migrate/main.go:315-336 | defines the image restore below the restore root and the re-archival of an archived project, nothing in dry-run mode; RestoreReroots states the root |
| Migrate.ProjectRestore | cmd/migrate/main.go:296-338 | defines the restore step of one project, its transfer first when projects move one by one; ProjectRestoreOrder states the order |
| Migrate.Restored | cmd/migrate/main.go:295-339 | defines the restore loop, ended by a panic; RestoredNext, RestoredCrashStable and RestoredDryRun state what it does |
| Migrate.RestoredNext | cmd/migrate/main.go:295-339 | one more project extends the restore loop by its own step |
| Migrate.RestoredCrashStable | cmd/migrate/main.go:304 | once a nil target panics, the remaining projects add nothing |
| Migrate.Relocated | cmd/migrate/main.go:257-339 | the transfer step, then the restore loop; the run completes unless it panicked or the transfer exited 99 (with the intended subgroup step) |
| Migrate.BackupsStationary | cmd/migrate/main.go:223-249 | the backup loop moves no group and no project |
| Migrate.EvictStationary | internal/migration/images.go:131-148 | the eviction moves no group and no project |
| Migrate.BackupFailureMovesNothing | cmd/migrate/main.go:243-246 | a failed backup ends the run with 99 before any group or project moves |
| Migrate.WaitFailureMovesNothing | cmd/migrate/main.go:250-255 | a wait that runs out of retries ends the run with 99 before any group or project moves |
| Migrate.TransferFailureExits | cmd/migrate/main.go:257-292 | the run after the backups ends with 99 exactly when the transfer step fails, and then no call follows the failed request (with the intended subgroup step) |
| Migrate.ProjectBackupOrder | cmd/migrate/main.go:224-248 | a skipped project issues nothing; an archived one is unarchived first; its registry is backed up exactly when it has one and the unarchive did not fail |
| Migrate.ProjectRestoreOrder | cmd/migrate/main.go:295-339 | only a migrated project outside a dry run issues calls; moving projects one by one, the transfer comes first and a nil target panics; the project is re-archived exactly when it was archived and its transfer, if any, succeeded |
| Migrate.BackupsDryRun | cmd/migrate/main.go:223-249 | in dry-run mode the backup loop only reads |
| Migrate.RestoredDryRun | cmd/migrate/main.go:295-339 | in dry-run mode the restore loop issues nothing and never pauses |
| Migrate.DestinationDryRun | cmd/migrate/main.go:257-292 | in dry-run mode the intended transfer step only looks groups up |
| Migrate.ProjectsRunDryRun | cmd/migrate/main.go:219-344 | in dry-run mode the projects' run only reads and never pauses (with the intended subgroup step) |
| Migrate.ListingDryRun | cmd/migrate/main.go:207-344 | in dry-run mode the listing and everything after it only read (with the intended subgroup step) |
| Migrate.LookupsDryRun | cmd/migrate/main.go:200-344 | in dry-run mode the destination lookup and everything after it only read (with the intended subgroup step) |
| Migrate.FoundGroupsDryRun | cmd/migrate/main.go:178-344 | in dry-run mode the lookups and everything after them only read (with the intended subgroup step) |
| Migrate.DryRunReadOnly | cmd/migrate/main.go:62-344 | a dry run never issues a mutating call and never pauses, whatever the platform replies (with the intended subgroup step) |
| Migrate.PreparedDryRunReadOnly | cmd/migrate/main.go:62-344 | a dry run requested in the loaded settings remains one after the flags and the defaults |
| Migrate.RunMigration | cmd/migrate/main.go:62-344 | a configuration that cannot be loaded exits 1; otherwise exactly the calls and ending of Migration (with the intended subgroup step) |
| Migrate.Runner.constructor | cmd/migrate/main.go:174-176 | the three migrators share the run's platform and dry-run mode |
| Migrate.Runner.FindGroups | cmd/migrate/main.go:178-217 | the calls and ending are those of FoundGroups (with the intended subgroup step) |
| Migrate.Runner.FindDestination | cmd/migrate/main.go:200-217 | the calls and ending are those of Lookups (with the intended subgroup step) |
| Migrate.Runner.ListAndMigrate | cmd/migrate/main.go:207-344 | the calls and ending are those of Listing (with the intended subgroup step) |
| Migrate.Runner.MigrateProjects | cmd/migrate/main.go:219-344 | the calls and ending are those of ProjectsRun (with the intended subgroup step) |
| Migrate.Runner.BackupProjects | cmd/migrate/main.go:223-249 | the loop's calls and result are those of Backups |
| Migrate.Runner.BackupProject | cmd/migrate/main.go:224-248 | one project's calls and result are those of ProjectBackup |
| Migrate.Runner.EvictAndWait | cmd/migrate/main.go:250-344 | the calls and ending are those of AfterBackup (with the intended subgroup step) |
| Migrate.Runner.EvictAll | internal/migration/images.go:131-148 | the calls and clock are those of Evict |
| Migrate.Runner.Relocate | cmd/migrate/main.go:257-339 | the calls and ending are those of Relocated (with the intended subgroup step) |
| Migrate.Runner.TransferToDestination | cmd/migrate/main.go:257-292 | the calls, clock, ending and target are those of Destination (with the intended subgroup step) |
| Migrate.Runner.MoveIntoSubgroup | cmd/migrate/main.go:270-291 | the calls and target are those of the intended SubgroupMove, so in dry-run mode no subgroup is created |
| Migrate.Runner.RestoreProjects | cmd/migrate/main.go:295-339 | the loop's calls, clock and ending are those of Restored |
| Migrate.Runner.RestoreProject | cmd/migrate/main.go:296-338 | one project's calls, clock and ending are those of ProjectRestore |
| Migrate.Runner.RestoreAndArchive | cmd/migrate/main.go:315-336 | the calls are those of RestoreCalls |
| ImageSelector.KeysOf | internal/ui/image_selector.go:280-311 | the keys of a list are exactly the keys of its images |
| ImageSelector.ProjectIndex | internal/ui/image_selector.go:96-143 | the index found names a project node with the id, or is the length when none has it |
| ImageSelector.RegistryIndex | internal/ui/image_selector.go:96-143 | the index found names a registry node with the id, or is the length when none has it |
| ImageSelector.FirstSeenMembers | internal/ui/image_selector.go:96-143 | the first-seen list is duplicate-free and holds exactly the input's values |
| ImageSelector.ProjectIndexFound | internal/ui/image_selector.go:96-143 | a project id of the tree is found at its first node |
| ImageSelector.AddImage | internal/ui/image_selector.go:104-141 | defines one step of buildTree; AddImageProjects, AddImageBucket and AddImageExpanded state what it changes |
| ImageSelector.Tree | internal/ui/image_selector.go:96-143 | defines buildTree over the images in order; TreeProjects, TreeBuckets, TreeExpanded and TreeSizeIsLength state its shape |
| ImageSelector.AddImageProjects | internal/ui/image_selector.go:96-143 | adding an image keeps the project ids, or appends the image's when it is new |
| ImageSelector.TreeProjects | internal/ui/image_selector.go:96-143 | buildTree creates one project node per distinct project id, in order of first appearance |
| ImageSelector.AddToRegistriesBucket | internal/ui/image_selector.go:96-143 | adding an image extends exactly its own registry's images |
| ImageSelector.AddImageBucket | internal/ui/image_selector.go:96-143 | adding an image extends exactly its own project and registry bucket |
| ImageSelector.TreeBuckets | internal/ui/image_selector.go:96-143 | every image, and only it, sits under its project and registry node, in input order, unselected |
| ImageSelector.AddToRegistriesExpanded | internal/ui/image_selector.go:96-143 | adding an image keeps every registry node expanded and carrying its project's id |
| ImageSelector.AddImageExpanded | internal/ui/image_selector.go:96-143 | adding an image keeps every node expanded |
| ImageSelector.TreeExpanded | internal/ui/image_selector.go:96-143 | buildTree expands every project and registry node |
| ImageSelector.TreeSizeIsLength | internal/ui/image_selector.go:96-143 | buildTree creates exactly one image node per input image |
| ImageSelector.FlatNodes | internal/ui/image_selector.go:372-385 | defines getFlatNodes in pre-order; FlatNodesShown, FlatNodeAt and FlatNodesShape state which nodes it lists |
| ImageSelector.FlatNodesShown | internal/ui/image_selector.go:372-385 | a node is listed exactly when it exists and every ancestor is expanded |
| ImageSelector.FlatNodeAt | internal/ui/image_selector.go:372-385 | the cursor's node exists and is shown |
| ImageSelector.FlatNodesShape | internal/ui/image_selector.go:372-385 | the visible nodes depend only on the shape and the expansion, not on the selection |
| ImageSelector.Clamp | internal/ui/image_selector.go:456-468 | the result lies in the range and is the input when the input does |
| ImageSelector.MovedCursor | internal/ui/image_selector.go:456-468 | without nodes the cursor stays; otherwise it moves by the delta when that stays on a node, and is clamped to the first node below and to the last node above |
| ImageSelector.Toggled | internal/ui/image_selector.go:471-504 | defines toggleSelection at the cursor; ToggledShape, ToggledImage, ToggledProject and ToggledRegistry state its effect |
| ImageSelector.ToggledShape | internal/ui/image_selector.go:471-504 | toggling keeps the tree's shape, so the visible nodes stay the same |
| ImageSelector.ToggledImage | internal/ui/image_selector.go:471-487 | toggling an image flips its mark, mirrors it into its image and changes no other image |
| ImageSelector.ToggledProject | internal/ui/image_selector.go:471-504 | toggling a project selects each of its images and changes no other image |
| ImageSelector.ToggledRegistry | internal/ui/image_selector.go:471-504 | toggling a registry selects each of its images and changes no other image |
| ImageSelector.ToggleGroupIdempotent | internal/ui/image_selector.go:471-504 | on a project or a registry, toggling again changes nothing more |
| ImageSelector.ToggleImageTwice | internal/ui/image_selector.go:471-487 | on an image whose marks agree, toggling twice restores the tree |
| ImageSelector.ExpandToggled | internal/ui/image_selector.go:507-517 | defines toggleExpand at the cursor; ExpandToggledFlips states its effect |
| ImageSelector.SetExpansion | internal/ui/image_selector.go:520-541 | defines expanding or collapsing every node; ExpandAllShowsAll, CollapseAllShowsProjects and SetExpansionKeepsImages state its effect |
| ImageSelector.ExpandToggledFlips | internal/ui/image_selector.go:507-517 | only the cursor's node flips its expansion; no image node changes |
| ImageSelector.ExpandAllShowsAll | internal/ui/image_selector.go:520-541 | expanding everything shows every node |
| ImageSelector.CollapseAllShowsProjects | internal/ui/image_selector.go:520-541 | collapsing everything shows the project nodes only |
| ImageSelector.SetExpansionKeepsImages | internal/ui/image_selector.go:520-541 | changing the expansion touches no image node |
| ImageSelector.SelectedImages | internal/ui/image_selector.go:562-577 | defines getSelectedImages in pre-order; SelectedImagesMembers and SelectedCountIsLength state what it returns |
| ImageSelector.SelectedCountIsLength | internal/ui/image_selector.go:544-577 | getSelectedCount is the length of getSelectedImages |
| ImageSelector.SelectedImagesMembers | internal/ui/image_selector.go:562-577 | an image is selected exactly when some selected image node holds it, collapsed or not |
| ImageSelector.Reselect | internal/ui/image_selector.go:280-311 | defines RestoreSelections on the tree; ReselectMarks and ReselectSelected state its effect |
| ImageSelector.ReselectMarks | internal/ui/image_selector.go:280-311 | restoring keeps the shape and sets every image's mark from its key alone |
| ImageSelector.ReselectSelected | internal/ui/image_selector.go:280-311 | after restoring, the selected images are exactly the tree's images whose key is in the list |
| ImageSelector.Keep | internal/ui/image_selector.go:660-708 | removal never adds an image node |
| ImageSelector.KeepMembers | internal/ui/image_selector.go:660-708 | a node is kept exactly when it is in the input and its key was not deleted |
| ImageSelector.AllImagesSize | internal/ui/image_selector.go:660-708 | the recollected list holds one image per image node |
| ImageSelector.AllImagesMembers | internal/ui/image_selector.go:660-708 | an image is recollected exactly when some image node holds it |
| ImageSelector.AllImages | internal/ui/image_selector.go:660-708 | defines the list of every image node's image in pre-order; AllImagesSize and AllImagesMembers state what it returns |
| ImageSelector.Prune | internal/ui/image_selector.go:660-708 | defines the removal of the image nodes with a deleted key; PruneKeepsNodes and PruneImages state its effect |
| ImageSelector.PruneKeepsNodes | internal/ui/image_selector.go:660-708 | removing deleted images keeps every project and registry node unchanged |
| ImageSelector.PruneImages | internal/ui/image_selector.go:660-708 | after removal the recollected images are exactly the tree's images whose key was not deleted |
| ImageSelector.DeleteCalls | internal/ui/image_selector.go:611-651 | one tag deletion per selected image, in order, naming its project, registry and tag |
| ImageSelector.Failures | internal/ui/image_selector.go:611-651 | the failures are at most the number of deletions attempted |
| ImageSelector.KeySet | internal/ui/image_selector.go:660-708 | the loop builds exactly KeysOf |
| ImageSelector.BuildTree | internal/ui/image_selector.go:96-143 | the loop builds exactly Tree |
| ImageSelector.QuitConfirmStep | internal/ui/image_selector.go:249-265 | defines updateQuitConfirm; QuitOnlyConfirmed and QuitKeepsSelection state its effect |
| ImageSelector.ConfirmStep | internal/ui/image_selector.go:232-246 | defines updateConfirm; DeletionNeedsConfirm states its effect |
| ImageSelector.KeyStep | internal/ui/image_selector.go:176-228 | defines the key bindings; CursorStaysVisible and DeleteDialogNeedsSelection state their effect |
| ImageSelector.Step | internal/ui/image_selector.go:151-229 | defines Update; StepKeepsOneMode and DeletingIgnoresInput state its effect |
| ImageSelector.StepKeepsOneMode | internal/ui/image_selector.go:151-265 | every message keeps at most one dialog or running deletion |
| ImageSelector.DeletingIgnoresInput | internal/ui/image_selector.go:172-174 | while a deletion runs, keys and resizes change nothing |
| ImageSelector.DeletionNeedsConfirm | internal/ui/image_selector.go:232-246 | a deletion starts exactly from the open delete dialog on y or Y |
| ImageSelector.DeleteDialogNeedsSelection | internal/ui/image_selector.go:214-224 | d opens the delete dialog exactly when something is selected |
| ImageSelector.QuitOnlyConfirmed | internal/ui/image_selector.go:151-265 | the loop stops exactly on QuitMsg, and QuitMsg is sent exactly on confirming the quit dialog |
| ImageSelector.QuitKeepsSelection | internal/ui/image_selector.go:249-277 | confirming the quit keeps the tree and hands back exactly the selection of that moment |
| ImageSelector.CursorStaysVisible | internal/ui/image_selector.go:194-200 | moving the cursor keeps it on a visible node and leaves the tree alone |
| ImageSelector.Selector.constructor | internal/ui/image_selector.go:79-93 | the selector starts on the built tree, cursor at the top, no dialog, no deletion |
| ImageSelector.Selector.GetSelectedImages | internal/ui/image_selector.go:271-277 | the selection saved on quit, or else the current selection |
| ImageSelector.Selector.MoveCursor | internal/ui/image_selector.go:456-468 | the cursor becomes MovedCursor and nothing else changes |
| ImageSelector.Selector.ToggleSelection | internal/ui/image_selector.go:471-504 | the tree becomes Toggled at the cursor and nothing else changes |
| ImageSelector.Selector.ToggleExpand | internal/ui/image_selector.go:507-517 | the tree becomes ExpandToggled at the cursor and nothing else changes |
| ImageSelector.Selector.ToggleExpandAll | internal/ui/image_selector.go:520-541 | everything collapses when some project is expanded and expands otherwise |
| ImageSelector.Selector.RestoreSelections | internal/ui/image_selector.go:280-311 | the tree is reselected from the list's keys and the saved selection is cleared |
| ImageSelector.Selector.RemoveDeletedImages | internal/ui/image_selector.go:660-708 | the deleted keys are pruned and the image list is recollected |
| ImageSelector.Selector.DeleteEach | internal/ui/image_selector.go:622-645 | in a dry run every image counts as deleted with no call; otherwise one deletion per image, with failures counted |
| ImageSelector.Selector.DeleteSelected | internal/ui/image_selector.go:611-651 | the selected images are deleted and then all removed from the tree, the failed ones included |
| ImageSelector.Selector.HandleDeletionComplete | internal/ui/image_selector.go:711-715 | the counts are recorded and the deletion is over |
| ImageSelector.Selector.UpdateQuitConfirm | internal/ui/image_selector.go:249-265 | the state and command become QuitConfirmStep's |
| ImageSelector.Selector.UpdateConfirm | internal/ui/image_selector.go:232-246 | the state and command become ConfirmStep's |
| ImageSelector.Selector.UpdateKey | internal/ui/image_selector.go:176-228 | the state becomes KeyStep's |
| ImageSelector.Selector.Update | internal/ui/image_selector.go:151-229 | the state and command become Step's |
| ImageSummary.Order | internal/ui/image_summary.go:44-62 | defines the project order of groupImagesByProject; OrderMembers states that each name appears once |
| ImageSummary.Grouping | internal/ui/image_summary.go:44-62 | defines groupImagesByProject image by image; GroupingBuckets and BucketsPartition state its buckets |
| ImageSummary.Group | internal/ui/image_summary.go:44-62 | a project's bucket is no longer than the input (membership is GroupMembers) |
| ImageSummary.GroupMembers | internal/ui/image_summary.go:44-62 | a bucket holds images of the input, all of its own project |
| ImageSummary.OrderMembers | internal/ui/image_summary.go:44-62 | the project order lists every project name of the input, and only those, once each |
| ImageSummary.GroupAppend | internal/ui/image_summary.go:44-62 | an image lands in its own project's bucket, after the earlier ones |
| ImageSummary.GroupAbsent | internal/ui/image_summary.go:44-62 | a name that does not occur has an empty bucket |
| ImageSummary.GroupingBuckets | internal/ui/image_summary.go:44-62 | there is a bucket for exactly the input's project names, each holding that project's images in order |
| ImageSummary.GroupImagesByProject | internal/ui/image_summary.go:44-62 | the loop builds exactly the grouping and the order |
| ImageSummary.TotalAppend | internal/ui/image_summary.go:44-62 | one more image adds one to the total exactly when its project is among the names |
| ImageSummary.BucketsPartition | internal/ui/image_summary.go:44-62 | the bucket sizes add up to the number of images |
| ImageSummary.ImageLines | internal/ui/image_summary.go:158-162 | one line per image, in order, with its name and location |
| ImageSummary.ImageLinesSnoc | internal/ui/image_summary.go:158-162 | one more image adds exactly its line |
| ImageSummary.ContentLines | internal/ui/image_summary.go:145-169 | defines buildContentLines; BuildContentLines, ContentLinesSize and LineCount state what it returns |
| ImageSummary.ContentLinesSnoc | internal/ui/image_summary.go:145-169 | one more project adds its header, its image lines and a blank line |
| ImageSummary.AppendImageLines | internal/ui/image_summary.go:158-162 | the inner loop appends exactly the bucket's image lines |
| ImageSummary.BuildContentLines | internal/ui/image_summary.go:145-169 | the loop builds exactly ContentLines |
| ImageSummary.ContentLinesSize | internal/ui/image_summary.go:145-169 | the lines are two per project plus one per image of their buckets |
| ImageSummary.LineCount | internal/ui/image_summary.go:145-169 | the summary has two lines per project plus one line per image |
| ImageSummary.Available | internal/ui/image_summary.go:172-201 | six lines fewer than the height, and never less than one |
| ImageSummary.Viewport | internal/ui/image_summary.go:172-201 | the window lies within the lines and is no taller than the room; all lines when they fit; otherwise it starts at the cursor, or ends at the last line when the cursor is too close to the end |
| ImageSummary.ViewportShowsCursor | internal/ui/image_summary.go:172-201 | a cursor on a line is inside the window, and the window is as tall as it can be |
| ImageSummary.Summary.constructor | internal/ui/image_summary.go:33-41 | the summary starts grouped, on the first line, not gone back |
| ImageSummary.Summary.MoveCursor | internal/ui/image_summary.go:204-218 | the cursor moves by the delta and stays on a line; nothing happens without lines |
| ImageSummary.Summary.Update | internal/ui/image_summary.go:70-102 | exit exactly on a quit or back key, the back key is remembered, resizes are recorded, the arrows move the cursor |

`Wrappers.ConcatAssoc`, `Platform.ReadOnlyAppend`, `Platform.StationaryAppend` and `Platform.SleepsAppend` are proof helpers about call sequences: they model nothing of the code and have no row.

## Left out

- Terminal output is not modelled: logging, emoji messages, `PrintUsage`, the rendering functions (`View`, `renderNode`, `renderStatusBar`, `renderHelp`, `getDepth`) and the `lipgloss` styles. None of it affects a decision of the pipeline.
- The bubbletea plumbing is not modelled: `Init`, and the command values handed to the runtime, other than which of exit, send-quit or start-deletion is returned.
- viper and cobra are not modelled: binding, the file search and `GetConfigFilePath`. `copyAliasedValues` (YAML alias keys) is also out; it fixes the loaded values before the override loops.
- `promptMissingValues`, the mains that read standard input, and `LoadConfig`'s file handling are out, because they are interactive or file I/O. Loading is a parameter: `Result<Config>`.
- The real clock is left out. `SleepWithLog` is one tick of `Platform.ticks`, whatever its duration (10 or 20 seconds).
- The clients become the abstract `Platform`: the GitLab client, the Docker client, the authentication encoding and `CheckRegistryLogin`. Their replies come from the oracle functions of `Platform.Env`.
- Go map iteration order is not modelled. `CheckIfRemainingImages` and `GetAllImagesFromProjects` take the projects as a sequence in the caller's order. The environment overrides are a set of keys visited in arbitrary order, and the result is proved the same for every order.
- Migrate.Migration: the whole run uses the intended subgroup step `Migrate.SubgroupMove`, not the step as written at `cmd/migrate/main.go:277-286`, which creates the subgroup in dry-run mode too. So the run model does not capture that creation. It is modelled on its own by `Migrate.SubgroupMoveAsWritten` and shown by `Migrate.SubgroupDryRunCreates`. The same holds for every member of the run built on it: `Migrate.ProjectsRun`, `Migrate.AfterBackup`, `Migrate.Relocated`, `Migrate.Destination`, `Migrate.Listing`, `Migrate.Lookups`, `Migrate.FoundGroups`, `Migrate.RunMigration` and the `Migrate.Runner` methods, `Migrate.Runner.MoveIntoSubgroup` and `Migrate.Runner.TransferToDestination` among them.
- Images.ImageMigrator.BackupImages: the unused `allRepositoryIDs` slice is not modelled.
- Images.ImageMigrator.RestoreImages: it never reports an error, as in the code. The caller's early exit after it is therefore not modelled.
- Migrate.Runner.EvictAll: the call of `DeleteRegistries` after the backup loop is not in `cmd/migrate/main.go`. The model adds it between the backup loop and the wait, because the wait can only end well once the repositories are deleted. The call-site mismatches it resolves are described above.
- The group nodes' `Selected` flag is never set in the code, so toggling a project or registry always selects its images. The model keeps this (`ImageSelector.ToggleGroupIdempotent`).
- The tree's parent pointers and their aliasing are left out. The tree is a value of three levels, and a node is addressed by its position.
- ImageSelector.Selector.DeleteSelected: it runs as a synchronous method, not as a `tea.Cmd` on another goroutine whose result arrives later as `deletionCompleteMsg`, because concurrency is out of scope.
- ImageSelector.Selector.RemoveDeletedImages: it removes the failed deletions too, exactly as the code removes every selected image.
- The text of the confirmation messages is not modelled; only whether a dialog is open matters.
- The `fmt.Sprintf` keys of `RestoreSelections` and `removeDeletedImages` are modelled as tuples. Integer renderings cannot produce a clash, so the keys are injective either way.
- `internal/check/checks.go` and `internal/command/clean.go` are not part of this model. They drive the cleaner and the checks from the command line.
- Integer widths are not modelled: ids are `int`, and no arithmetic on them can overflow.

## Findings

| source | as written | input that shows it | evidently intended | confidence | as-written member | corrected member |
|---|---|---|---|---|---|---|
| cmd/migrate/main.go:277-286 | when the subgroup lookup errs, `CreateGroup` is called on the GitLab client directly, bypassing the migrators' dry-run guard | a dry run with the parent kept and a project list, where the destination exists and the lookup of the subgroup below it errs | a dry run issues no mutating request; the destination stands in for the subgroup | not executed | Migrate.SubgroupMoveAsWritten, Migrate.SubgroupDryRunCreates | Migrate.SubgroupMove, Migrate.SubgroupMoveDryRun, Migrate.DryRunReadOnly |
