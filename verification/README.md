# Automation client core, modelled in Dafny

This project models the core of an automation client for a chat-ops platform. The client hosts
command handlers and event handlers and talks to the platform over WebSocket, HTTP or a
process cluster. Five parts of it are modelled as immutable data and pure functions, and their
properties are proved:

- **The in-memory project** (`InMemoryProject`, `FileModel`, `FileGlobs`). A project is a finite map
  from `/`-separated path to content. Directories are derived from the stored paths.
  - `findFileSync`/`findFile`/`getFile`/`hasFile`/`fileExistsSync` look up a file.
  - `hasDirectory` reports a directory.
  - `deleteFileSync`/`deleteDirectorySync` remove files.
  - `recordAddFile`/`recordDeleteFile`/`flush` are the deferred-action API.
  - `streamFiles`/`streamFilesRaw` select files with positive and negative globs.
  - The `File` name/extension contract and the `isFile` check are modelled with it.
- **The outbound message envelope** (`Envelopes`, `MessageClient`).
  - `clean` normalises recipients.
  - `addressUsers`/`addressChannels`/`respond` build the envelope header and its destinations.
  - Command buttons are rewritten to actions with generated ids such as `helloworld-0`.
- **The cluster worker** (`ClusterWorker`).
  - The per-team graph-client cache and the registration it depends on.
  - The tagged messages the worker sends to the coordinating process (`status`, `message`, `command_success`, …).
  - The router for inbound process messages.
- **The HTTP front end** (`ExpressServer`, `AutomationMetadata`).
  - Command payloads are hydrated from query strings (parameters, `mp_` mapped parameters, `s_` secrets with the GitHub-token fallback) or from request bodies.
  - Event payloads are built for ingestors.
  - `authenticate` chooses an authentication strategy, and the Basic and Bearer verify callbacks check credentials.
- **Fan-out over repositories** (`RepoUtils`, `EditorSupport`, `Promises`).
  - `relevantRepos` keeps every found repo's position and puts a placeholder where the filter rejects the repo.
  - `doWithAllRepos` loads each repo, runs an action on it and keeps the truthy results in order.
  - `EditorSupport.handle` edits the accepted repos and reports `reposEdited`/`reposSeen`.

`Wrappers` (`Option`, `Result`), `Json` (the untyped values the source passes around), `Strings`
and `Seqs` (order-preserving `filter`) are shared helpers.

Parts of the system are outside the model and become parameters instead:
- Glob matching is a `matcher(pattern, path)` function.
- The repo finder's outcome is an input: a `Result` holding the found repos or the finder's rejection.
- Loading, actions and edits are functions returning `Result`.
- The generated correlation id (`guid()`) and generated password are inputs.
- The ambient correlation context (`namespace.get()`) is an opaque `Json` value.
- `process.send` appends to the worker's `outbox`.

## Model

| member | source | states |
|---|---|---|
| `FileModel.BaseName` | lib/project/File.ts:8-13 | The name is the last path segment: a suffix of the path that contains no `/` and is preceded by `/` when it is shorter than the path. It is non-empty for every valid path. |
| `FileModel.NameOfJoinedPath` | lib/project/File.ts:8-20 | Joining a directory and a slash-free name with `/` gives a file whose name is that name. |
| `FileModel.NameOfTopLevelPath` | lib/project/File.ts:8-13 | A path with no separator is its own name. |
| `FileModel.ExtensionOf` | lib/project/File.ts:81-84 | The extension is `""` when the name has no `.`. Otherwise it is the dot-free text after the last `.`. |
| `FileModel.IsFileCharacterization` | lib/project/File.ts:88-91 | `isFile` accepts a project file exactly when its path is valid. It rejects any object whose name or path is missing or empty, or which lacks `getContentSync`. |
| `FileGlobs.GlobConstantShapes` | src/project/FileGlobs.ts:5-31 | `AllFiles` is positive. `ExcludeGit` and `ExcludeNodeModules` are negative and exclude `.git/**` and `node_modules/**`. `DefaultFiles` has three entries: `AllFiles` followed by `DefaultExcludes`. |
| `FileGlobs.DefaultExcludesSelectNothing` | src/project/FileGlobs.ts:20-25 | The exclusions alone select no file, so they must be combined with a positive glob. |
| `FileGlobs.DefaultFilesSelection` | src/project/FileGlobs.ts:27-31 | Under `DefaultFiles` a file is selected exactly when `**/**` matches it and neither the `.git` pattern nor the `node_modules` pattern does. |
| `FileGlobs.IncludedBy` | test/project/mem/InMemoryProjectTest.ts:182-199 | True exactly when some positive glob of the list matches the path. |
| `FileGlobs.ExcludedBy` | test/project/mem/InMemoryProjectTest.ts:242-259 | True exactly when some negative glob of the list matches the path once its `!` is removed. |
| `FileGlobs.StreamGlobs` | test/project/mem/InMemoryProjectTest.ts:201-219 | With no patterns the glob list is `DefaultFiles`. Otherwise it is the patterns in order followed by the two default exclusions. |
| `FileGlobs.StreamGlobsSelection` | test/project/mem/InMemoryProjectTest.ts:182-219 | With patterns given, a file is selected exactly when a positive pattern matches it, no negative pattern does, and neither default exclusion does. |
| `InMemoryProject.Of` | test/project/mem/InMemoryProjectTest.ts:13-18 | The project built from specs stores exactly the specs' paths and is not dirty. Each path holds the content of the last spec that names it. |
| `InMemoryProject.AddFileSync` | test/project/mem/InMemoryProjectTest.ts:340-345 | The path holds the new content, and every other path is unchanged. |
| `InMemoryProject.FindFileSync` | test/project/mem/InMemoryProjectTest.ts:13-30 | A file is returned exactly for a stored path, with that path and exactly the stored content. Otherwise the result is undefined. |
| `InMemoryProject.FindFile` | test/project/mem/InMemoryProjectTest.ts:32-56 | Succeeds exactly when `findFileSync` finds the file, returning the same file. Otherwise it fails with `File not found at <path>`. |
| `InMemoryProject.HasFile` | test/project/mem/InMemoryProjectTest.ts:84-103 | `hasFile`/`fileExistsSync` hold exactly when `findFileSync` finds a file. |
| `InMemoryProject.AncestorsAreDirectories` | test/project/mem/InMemoryProjectTest.ts:109-114 | Every proper `/`-delimited prefix of a stored path is a directory. |
| `InMemoryProject.DirectoriesAreNotFiles` | test/project/mem/InMemoryProjectTest.ts:26-30 | In a well-formed project a directory is never found as a file: `findFileSync` gives undefined, `hasFile` gives false and `findFile` fails with `File not found at <path>`. A file path is never a directory. |
| `InMemoryProject.DeleteFileSync` | test/project/mem/InMemoryProjectTest.ts:377-386 | The deleted path is gone. Every other file is kept, with its content. The deferred queue is unchanged and well-formedness is preserved. |
| `InMemoryProject.DeleteFilePrunesEmptyDirectories` | test/project/mem/InMemoryProjectTest.ts:427-439 | After a file is deleted, a directory remains exactly when some other file still lies beneath it. |
| `InMemoryProject.DeleteScenarioPrunesSrcMain` | test/project/mem/InMemoryProjectTest.ts:427-439 | In the test project, deleting `src/main/java/Command.java` removes `src/main` and `src/main/java` and keeps `src` and `src/test/scala`. |
| `InMemoryProject.DeleteDirectorySync` | test/project/mem/InMemoryProjectTest.ts:458-470 | Exactly the files beneath the directory are removed, and the others keep their content. The directory itself no longer exists. |
| `InMemoryProject.DeleteDirectorySparesPrefixSiblings` | test/project/mem/InMemoryProjectTest.ts:458-470 | A sibling whose name only starts with the deleted directory's name keeps all its files and remains a directory. |
| `InMemoryProject.DeleteScenarioSparesTravisSave` | test/project/mem/InMemoryProjectTest.ts:458-470 | In the test project, deleting `.travis` removes its two files and the directory. `.travis-save` and its file survive. |
| `InMemoryProject.RecordAddFile` | test/project/mem/InMemoryProjectTest.ts:300-310 | A recorded addition is findable at once with its content. Every other path finds what it found before, and the deferred queue is untouched. |
| `InMemoryProject.RecordDeleteFile` | test/project/mem/InMemoryProjectTest.ts:340-347 | A recorded deletion marks the project dirty. It appends the path to the queue and leaves the files as they are. |
| `InMemoryProject.Flush` | test/project/mem/InMemoryProjectTest.ts:346-353 | After `flush` the project is clean. A file remains exactly when it existed and was not queued for deletion, and its content is unchanged. |
| `InMemoryProject.RecordAddThenFlushFinds` | test/project/mem/InMemoryProjectTest.ts:312-334 | On a new project, `recordAddFile` leaves it clean, and after `flush` the file is found with its content. |
| `InMemoryProject.RecordDeleteThenFlush` | test/project/mem/InMemoryProjectTest.ts:340-354 | A recorded deletion does not change `hasFile` until `flush`. After `flush` only that path is gone. |
| `InMemoryProject.StreamFilesRaw` | test/project/mem/InMemoryProjectTest.ts:242-259 | The streamed files are exactly the stored files that some positive glob matches and no negative glob matches, each with its stored content. |
| `InMemoryProject.StreamFilesExcludesDefaults` | test/project/mem/InMemoryProjectTest.ts:149-240 | `streamFiles` never yields a file matched by the `.git` or `node_modules` exclusion. With no patterns it yields exactly the files `**/**` matches that neither exclusion matches. With patterns it yields exactly what the patterns select once both exclusions are applied. |
| `MessageClient.Clean` | test/internal/transport/websocket/WebSocketMessageClientTest.ts:42-46 | A single name becomes a list of at most that name. A list drops empty names and repeats, keeps the order of the rest, and keeps every non-empty name once. A list with no empty and no repeated names is unchanged. |
| `MessageClient.CleanVectors` | test/internal/transport/websocket/WebSocketMessageClientTest.ts:42-46 | `clean("test")` and `clean(["test"])` are `["test"]`. `clean([""])` is empty. |
| `MessageClient.MapActions` | test/internal/transport/websocket/WebSocketMessageClientTest.ts:94-99 | There is one action per command button of the message, in order. Each carries id `lower(command)-i`, the original command name and the button's parameters. |
| `MessageClient.ActionIdDecodes` | test/internal/transport/websocket/WebSocketMessageClientTest.ts:94-99 | An action id starts with the lower-cased command and `-`. The text after its last `-` is the decimal index, which parses back to the index. |
| `MessageClient.ActionIdsDistinct` | test/internal/transport/websocket/WebSocketMessageClientTest.ts:94-99 | No two actions of one message share an id, even when their buttons are identical. |
| `MessageClient.AddressUsers` | test/internal/transport/websocket/WebSocketMessageClientTest.ts:80-93 | The header is `api_version` `1`, the originating correlation id and team, the Slack content type and the options id. There is one `slack` destination per cleaned user name, in order, addressed to the given team and that user, with no channel. |
| `MessageClient.AddressUsersRoundTrip` | test/internal/transport/websocket/WebSocketMessageClientTest.ts:87-93 | Reading the user names back from the destinations gives exactly the cleaned recipients. When no name is empty or repeated, these are the recipients as given. |
| `MessageClient.AddressUsersVector` | test/internal/transport/websocket/WebSocketMessageClientTest.ts:48-99 | The test's `addressUsers` call yields the expected header, the two destinations `cd` and `rod`, and the single action `helloworld-0`. |
| `MessageClient.AddressChannels` | test/internal/transport/websocket/WebSocketMessageClientTest.ts:137-150 | The same header as `addressUsers`. There is one destination per cleaned channel name, in order, addressed to the given team and that channel, with no user. |
| `MessageClient.AddressChannelsRoundTrip` | test/internal/transport/websocket/WebSocketMessageClientTest.ts:144-150 | Reading the channel names back from the destinations gives exactly the cleaned recipients, and no destination names a user. |
| `MessageClient.AddressChannelsVector` | test/internal/transport/websocket/WebSocketMessageClientTest.ts:105-156 | The test's `addressChannels` call yields the channels `general` and `test` and the action `helloworld-0`. |
| `MessageClient.Respond` | test/internal/transport/websocket/WebSocketMessageClientTest.ts:16-40 | Fails exactly for an event-derived client, with `Response messages are not supported for event handlers`. Otherwise the reply has the usual header and exactly one destination: the command's source. |
| `MessageClient.RespondVector` | test/internal/transport/websocket/WebSocketMessageClientTest.ts:212-223 | The test's `respond` yields one destination with channel id `C12`, `thread_ts` `123` and the source team, plus the action `helloworld-0`. |
| `ClusterWorker.SetRegistration` | src/internal/transport/cluster/ClusterWorkerRequestProcessor.ts:49-52 | Only the registration is replaced. The client cache, the outbox and the dispatched envelopes are unchanged, and cache coherence is kept. |
| `ClusterWorker.CreateGraphClient` | src/internal/transport/cluster/ClusterWorkerRequestProcessor.ts:65-86 | The cache key is the command's team id or the event's `team_id`. A cached team returns its stored client and nothing changes. An uncached team with a registration gets a client for `graphUrl/teamId` with `Bearer <jwt>`, stored under that team. Without a registration the result is no client and nothing changes. Coherence is kept. |
| `ClusterWorker.CachedClientIsReused` | src/internal/transport/cluster/ClusterWorkerRequestProcessor.ts:73-81 | Once a team has a client, asking again for any envelope of that team returns the same client and changes nothing. |
| `ClusterWorker.DistinctTeamsGetDistinctClients` | src/internal/transport/cluster/ClusterWorkerRequestProcessor.ts:76-81 | In a coherent cache, clients obtained for two different teams are different clients. |
| `ClusterWorker.ReRegistrationKeepsCachedClients` | src/internal/transport/cluster/ClusterWorkerRequestProcessor.ts:49-52 | After a new registration, a team already cached still gets its old client. |
| `ClusterWorker.SendMessage` | src/internal/transport/cluster/ClusterWorkerRequestProcessor.ts:54-63 | Exactly one `status` message carrying the ambient context and the payload is appended. Nothing else changes. |
| `ClusterWorker.DoSend` | src/internal/transport/cluster/ClusterWorkerRequestProcessor.ts:99-116 | It resolves at once. Exactly one `message` message is appended, carrying the client's envelope, the ambient context, the message, the recipients and the options. |
| `ClusterWorker.Notify` | src/internal/transport/cluster/ClusterWorkerRequestProcessor.ts:119-169 | Each completion appends exactly one message to the outbox and changes nothing else. |
| `ClusterWorker.RunOnlyExtendsOutbox` | src/internal/transport/cluster/ClusterWorkerRequestProcessor.ts:49-169 | Over any run of registrations, client look-ups, status messages, sends and completion reports, the outbox is append-only. Messages already sent stay in place and each send adds exactly one. The dispatched envelopes and the endpoint are untouched, and a coherent client cache stays coherent. |
| `ClusterWorker.NotifyTagsOutcome` | src/internal/transport/cluster/ClusterWorkerRequestProcessor.ts:121-167 | The message type is `command_success`, `command_failure`, `event_success` or `event_failure`, matching the invocation kind and its outcome. It carries the payload, the ambient context, and the result or error. |
| `ClusterWorker.Route` | src/internal/transport/cluster/ClusterWorkerRequestProcessor.ts:181-189 | `registration` goes to `setRegistration`. `command` and `event` hand their envelope to the dispatcher. Any other tag leaves the worker unchanged. |
| `ClusterWorker.RouteAll` | src/internal/transport/cluster/ClusterWorkerRequestProcessor.ts:181-189 | Routing a stream of messages dispatches exactly the command and event envelopes, in arrival order. It leaves cache and outbox untouched and keeps coherence. |
| `ClusterWorker.RouteAllRegistration` | src/internal/transport/cluster/ClusterWorkerRequestProcessor.ts:181-183 | After routing, the registration is the one carried by the last `registration` message, or the previous one if none arrived. |
| `ExpressServer.HydrateParameters` | src/internal/transport/express/ExpressServer.ts:195-200 | A declared parameter appears exactly when its query value is non-empty. Its value is the query value verbatim, and declaration order is kept. |
| `ExpressServer.HydrateMappedParameters` | src/internal/transport/express/ExpressServer.ts:201-206 | A mapped parameter is read from `mp_<local_key>` and appears under `local_key` exactly when that value is non-empty, in declaration order. |
| `ExpressServer.HydrateSecrets` | src/internal/transport/express/ExpressServer.ts:207-222 | A secret appears under its path exactly when it has a value, with that value, in declaration order. |
| `ExpressServer.SecretPrecedence` | src/internal/transport/express/ExpressServer.ts:207-222 | A non-empty `s_<path>` value wins. Otherwise a `github://` path takes the logged-in user's access token when there is one. Otherwise the secret is omitted. Values are never empty. |
| `ExpressServer.CommandFromQuery` | src/internal/transport/express/ExpressServer.ts:224-236 | The GET payload is a `command_handler_request` for the handler with the hydrated arguments and an empty `rug`. Its team and correlation team are both the first configured team id, or undefined when there is none. |
| `ExpressServer.CommandFromBody` | src/internal/transport/express/ExpressServer.ts:174-184 | The POST payload has the default fields and the body's fields. A body field overrides the default of the same name. |
| `ExpressServer.PostDefaultsAgreeWithGet` | src/internal/transport/express/ExpressServer.ts:174-184 | When the body does not override them, POST and GET agree on `atomist_type`, name, correlation id and team. Unless the body sets `rug`, both carry the same empty `rug`. |
| `ExpressServer.EventFromBody` | src/internal/transport/express/ExpressServer.ts:250-258 | The event payload has the body as data, the ingestor's route as operation name, the generated correlation id, the first team id and no secrets. |
| `ExpressServer.IngestPath` | src/internal/transport/express/ExpressServer.ts:155-160 | The ingestor's URL is `/ingest/` followed by the ingestor's route lower-cased (`ApiBase` is empty, :28). It has no upper-case letter after the prefix. |
| `ExpressServer.IngestPathsCollide` | src/internal/transport/express/ExpressServer.ts:155-160 | Two ingestors get the same URL exactly when their routes agree up to case. |
| `ExpressServer.IngestedEventTargetsFirstTeam` | src/internal/transport/express/ExpressServer.ts:250-258 | With a team configured, an ingested event reaches the dispatcher addressed to the first team with the generated correlation id. A worker with a coherent cache and either a registration or a cached client for that team hands it a graph client for that team's endpoint. |
| `ExpressServer.SetupFlags` | src/internal/transport/express/ExpressServer.ts:267-340 | Basic, Bearer and GitHub are each on exactly when the options have that section and it is enabled. |
| `ExpressServer.ConfiguredStrategiesOnly` | src/internal/transport/express/ExpressServer.ts:267-358 | A strategy `authenticate` runs always has its options section present and enabled. With no auth options at all, a request with credentials gets no decision and one without must log in. |
| `ExpressServer.AuthenticateDecisionTable` | src/internal/transport/express/ExpressServer.ts:343-358 | With an auth header: the enabled header strategies run, basic first, and nothing runs if neither is enabled. Without one: basic runs exactly when Basic is on and GitHub is off, and otherwise a login is required. A disabled strategy never runs. |
| `ExpressServer.VerifyBasic` | src/internal/transport/express/ExpressServer.ts:308-316 | Accepts exactly when both the user name and the password match, and yields the user name. |
| `ExpressServer.BasicDefaultsToAdmin` | src/internal/transport/express/ExpressServer.ts:304-316 | Without a configured user name, basic authentication accepts exactly `admin` with the expected password. |
| `ExpressServer.VerifyBearer` | src/internal/transport/express/ExpressServer.ts:325-336 | Accepts exactly an equal token, and yields it. |
| `Promises.AllOf` | src/operations/edit/EditorSupport.ts:34-41 | When every outcome succeeded, the result is all the values in order. Otherwise it is the failure of the first failing outcome. |
| `RepoUtils.RelevantRepos` | src/operations/common/repoUtils.ts:50-56 | One entry per found repo, in order: the id where the filter accepts it, undefined where it does not. |
| `RepoUtils.RelevantReposPresent` | src/operations/common/repoUtils.ts:50-56 | Dropping the placeholders leaves exactly the accepted repos, in order. |
| `RepoUtils.FindRelevantRepos` | src/operations/common/repoUtils.ts:50-56 | A rejection of the finder is the result's rejection, with the same error. Otherwise each found repo gets its entry, in order: the id where the filter accepts it, undefined where it does not. |
| `RepoUtils.FindAndDoWithAllRepos` | src/operations/common/repoUtils.ts:27-47 | Corrected: placeholders are skipped. A rejection of the finder is the result's rejection, with the same error. Otherwise the result is the truthy results of the accepted repos that loaded and whose action succeeded, in the order found. |
| `RepoUtils.DoWithAllRepos` | src/operations/common/repoUtils.ts:27-48 | Returns at most one result per accepted repo. Every result is truthy and is the action's result, with the shared parameters, on an accepted repo that loaded. Every such truthy result is kept. |
| `RepoUtils.DoWithAllReposIsPipeline` | src/operations/common/repoUtils.ts:35-47 | The fan-out equals the pipeline: filter the found repos, attempt each, drop the failures, drop the falsy results. Order is kept. |
| `RepoUtils.AttemptAsWritten` | src/operations/common/repoUtils.ts:38-44 | A real id whose load or action fails yields nothing. A placeholder whose load or action fails raises the TypeError of reading `owner` of undefined. |
| `RepoUtils.DoWithAllReposAsWritten` | src/operations/common/repoUtils.ts:35-47 | The as-written fan-out can only reject with that TypeError, and only when the filter rejected some repo. |
| `RepoUtils.FilteredRepoRejectsAsWritten` | src/operations/common/repoUtils.ts:35-47 | One found repo rejected by the filter, with a loader that clones only real ids, makes the as-written fan-out reject. The corrected one returns no results. |
| `RepoUtils.AsWrittenAgreesWhenAllAccepted` | src/operations/common/repoUtils.ts:35-47 | When the filter accepts every repo, the as-written fan-out succeeds with exactly the corrected result. |
| `EditorSupport.PlanEdit` | src/operations/edit/EditorSupport.ts:24-33 | Local mode edits the repo in place. Otherwise it edits through a pull request on branch `add-license` with message `Added license`. |
| `EditorSupport.PlansTargetAcceptedRepos` | src/operations/edit/EditorSupport.ts:19-40 | Every plan `handle` runs targets a found repo the filter accepted, and edits in place exactly in local mode. Every accepted repo gets a plan. |
| `EditorSupport.Handle` | src/operations/edit/EditorSupport.ts:14-43 | A rejection of the finder is the handler's rejection. Otherwise the handler succeeds exactly when the edit of every accepted repo succeeds, with code 0, `reposSeen` the number found and `reposEdited` at most that. `reposEdited` equals `reposSeen` exactly when every repo was accepted. On failure, the error is that of an accepted repo's failing edit. |
| `EditorSupport.EditedCountMatchesRelevantRepos` | src/operations/edit/EditorSupport.ts:19-40 | `reposEdited` is the number of non-placeholder entries `relevantRepos` gives for the same repos and filter. |

## Left out

- The implementation of `InMemoryProject` is not part of this model. Its behaviour is taken from its tests:
  - `recordAddFile` applies at once: the tests assert the project is not dirty after it.
  - `recordDeleteFile` waits for `flush`: the tests assert the project is dirty after it.
  - Deferred deletions are the only queued actions.
- The asynchronous `deleteFile`, `deleteDirectory` and `getFile` resolve to what their synchronous forms return, and are modelled by the same functions.
- Glob matching: minimatch is not part of this model. The matcher is a parameter, so the tests' exclusion of nested `nested/.git/junk` and `sub/project/node_modules/thing` depends on the matcher and is not proved.
- `streamFiles` adding `DefaultExcludes` to the given patterns, and using `DefaultFiles` when none are given, follows what the tests assert (test/project/mem/InMemoryProjectTest.ts:182-219).
- FileModel.IsFileCharacterization: `isFile(undefined)` throws in the source (lib/project/File.ts:88-91), since it reads `name` of `undefined`. The model only judges objects.
- File contents are strings. Binary files, permissions, `setContent`, `rename`, `replace` and the asynchronous `File` operations are not modelled, and the stream API is a map.
- FileModel.ExtensionOf: the model takes the text after the last `.` of the name, which meets the documented promise at lib/project/File.ts:81-84 that the extension is `""` when none can be determined.
- MessageClient.Clean: `clean` drops empty names and repeated names, keeping each name where it first occurs. The tests (test/internal/transport/websocket/WebSocketMessageClientTest.ts:42-46) only show empty names being dropped. The contract states that the kept names are distinct and in the given order, but not that each kept name is its first occurrence.
- MessageClient.AddressUsers and MessageClient.AddressChannels: the envelope's `team.id` is the originating envelope's team. The destination's `slack.team.id` is the given team. The tests cannot tell the two apart.
- ExpressServer.ToIncoming: with no team configured, the source still dispatches an ingested event with `team_id` undefined (src/internal/transport/express/ExpressServer.ts:250-258). Envelopes in the model always carry a team, so the model yields no envelope then.
- Commands without a `source` are not modelled: every command envelope has one.
- MessageClient.ActionId: lower-casing covers the ASCII letters only. JavaScript's `toLowerCase` also lower-cases other Unicode letters.
- ExpressServer.IngestPath: lower-casing covers the ASCII letters only. JavaScript's `toLowerCase` also lower-cases other Unicode letters.
- MessageClient.MapActions: Slack actions that are not command buttons are skipped without using up an index. Attachments in the model hold only command buttons, so such actions cannot be represented.
- Array-valued query parameters are not modelled: a query is a map from names to single strings.
- ExpressServer.HydrateParameters: a name declared twice gives two entries, as in the source. The contract states presence and order but not how often a name repeats.
- ExpressServer.HydrateMappedParameters: as for parameters, the number of entries for a repeated declaration is not stated.
- ExpressServer.HydrateSecrets: as for parameters, the number of entries for a repeated declaration is not stated.
- ExpressServer.SetupFlags: the Basic, Bearer and GitHub flags are module-level variables in ExpressServer.ts (:30-32). They are never reset, so they persist across server instances. The model computes them afresh from one server's options.
- ClusterWorker.SetRegistration: the code never drops cached graph clients when a new registration arrives, and the model follows the code. `ReRegistrationKeepsCachedClients` states this.
- ClusterWorker.CreateGraphClient: without a registration the code returns `null`, modelled as no client. It does not return an inert handle.
- The dispatcher is not modelled: `processCommand`/`processEvent`, handler lookup, parameter validation and handler execution. `Route` records the envelopes it would receive.
- `ClusterWorker.Route` requires each message's data to match its tag, because the source casts `msg.data` without checking it.
- Concurrency is not modelled: interleaved invocations, the cluster coordinator and `Promise.all` timing. The ambient context is an opaque value.
- EditorSupport.Handle: `accept` stands for a synchronous filter. `handle` hands the filter to `Array.filter` (src/operations/edit/EditorSupport.ts:21), so a filter that returns a promise accepts every repo there. `relevantRepos` awaits the same filter (src/operations/common/repoUtils.ts:55).
- EditorSupport.EditedCountMatchesRelevantRepos: holds only for synchronous filters. With a filter returning a promise that resolves false, `handle` edits the repo while `relevantRepos` puts a placeholder for it.
- EditorSupport.Handle: `Promise.all` rejects with the first rejection in time. The model only promises the error of some failing edit.
- `Promises.AllOf` picks the first failure in order as a deterministic stand-in.
- The Express plumbing is not modelled: routes, sessions, mustache views, `listen`, the GitHub OAuth strategy and its org-membership HTTP call. `kebabCase` naming of command routes is a foreign call and is not modelled.
- `guid()` (correlation ids and the generated Basic password) is an input.
- The optional `tags`, `intent`, `subscription` and similar fields of the automation metadata are not modelled; only the declarations request hydration reads are kept.
- RepoUtils.DoWithAllRepos: the filter is synchronous. The filter's promise wrapping and the logging are not modelled. A `catch` handler's own failure is only modelled for the placeholder case.
- The repo loader, the project editor and `editUsingPullRequest` are parameters, since their implementations are not part of this model. A loader that throws synchronously, instead of returning a rejected promise, is not modelled. In the source that throw escapes the `catch` and rejects the whole `doWithAllRepos`, whereas the model's loader can only resolve or reject.

## Findings

| source | as written | input that shows it | evidently intended | confidence | as-written member | corrected member |
|---|---|---|---|---|---|---|
| src/operations/common/repoUtils.ts:35-47 | `doWithAllRepos` maps over every entry of `relevantRepos`, including the `undefined` placeholders for rejected repos. It passes each to the loader, and its `catch` handler logs `id.owner`, which throws for `undefined`. | One found repo that the filter rejects, and a loader that fails for an undefined id: the whole promise rejects with a TypeError. | Act only on the accepted repos, and skip the placeholders, as the doc comment says: repos that cannot be loaded are skipped. | likely; not executed | `RepoUtils.DoWithAllReposAsWritten` (`RepoUtils.FilteredRepoRejectsAsWritten`) | `RepoUtils.DoWithAllRepos` (`RepoUtils.DoWithAllReposIsPipeline`, `RepoUtils.AsWrittenAgreesWhenAllAccepted`, `RepoUtils.FindAndDoWithAllRepos`) |
