# KyYard server: a verified model

KyYard runs applications on hosts and clusters through agents that connect outward to one server.
This project models the parts of that server where order, lateness and repetition decide what is
true, and proves what they keep.

- **Deployments** (`Deployments`, `SettleRules`, `RemovalRules`, `RepeatRules`, `AnswerRules`,
  `DeploymentSteps`, `DeploymentInvariant`, `DeploymentPreserved`, `DeploymentMoves`,
  `DeploymentSettles`, `DeploymentRuns`, `DeploymentTables`, `InstanceTables`, `MappingOrder`,
  `DeploymentExample`, `DeploymentFindings`, `DeploymentStore`): applications, instances, adopted
  containers, deployment rows and audit rows. Every transaction is a function on the whole store; a
  run is any sequence of them. `DeploymentStore` holds the tables in a class that its methods update
  in place, each proved to compute its function; `AnswerRules`, `DeploymentTables` and
  `InstanceTables` say of each function, over the rows alone, when it is taken and what it writes.
- **Agent sessions** (`AgentSessions`, `AgentRegistry`, `AgentOutcomes`): the connection registry, the commands each
  socket carries, and what happens to them when sockets end. Every locked region and every store
  call is one atomic step; a run is any interleaving.
- **Agent identity and inventory** (`EndpointKeys`, `KeyRules`, `InventoryOrder`): keys under review, approved and
  retired, expiry by the clock, and the inventory's generation register.
- **Logs** (`LineBreaks`, `LogLines`, `EventStream`, `LogResponse`, `LogServing`, `LogStreams`, `LogFlow`): chunks
  into lines, lines into a response, the response read back, stream limits and dropped bytes.
- **Schedulers and limiters** (`ValidationTick`, `TickOrder`, `LoginBackoff`, `AttemptWindows`,
  `RegistrySlots`, `LimiterRules`).
- **Backups and migration** (`DatabaseParts`, `MigrationReport`, `MigrationClasses`).

`Options` and `Text` hold what several of these share.

## What the model takes as given

- A transaction, and a region under a lock, is atomic. SQL, drivers and row locks are not modelled.
- Each deployment transaction reads a clock later than the one before it; every other module needs
  only that its clock does not go back. `beginLogin` reads the clock before it takes the lock: its
  readings are taken to be in the order of the lock. Identifiers the server mints are fresh.
- Signature checks, permission checks, the policy guard, the preflight, the frame's size and the
  review digest are inputs: a boolean, or the set of keys a signature verifies under.
- Several error codes of one cause are one value; the order in which causes are looked for is kept.
- Text is a sequence of characters standing for bytes; a search is any predicate on lines.

## Where the code does not meet the broadest statement

Each is stated in the model as the exact condition, with a concrete case.

- A result whose outcome is `unknown` leaves the row settleable. Sent again, it is accepted and audited
  again exactly if it is a removal's, a cluster's, or a Docker apply's that reports the very containers
  its services were planned to replace, in whatever order. While those are in place that means that no
  service moved, and the repeat changes no container; once they are not, a swap of two services is
  accepted twice (`ResentResult`, `UnknownIsTakenTwice`, `MovedIsTakenOnce`, `SwapIsTakenTwice`).
- Refusals are bounded by one more than the accepted unknown results, and that bound is reached
  (`RefusalWritesExactly`, `RefusedAtMostOnce`, `RefusedTwice`).
- A result accepted for a Docker apply moves exactly the reported services only while the containers
  they were planned to replace are in place. After an unknown result moved one and a new mapping
  cleared its name, a success can be accepted that leaves another service, bound until then, bound to
  nothing (`AnswerMoves`, `ServiceIsLost`).
- Retention can delete the newer rows that had closed an unknown row, which then accepts a result
  again (`PruneReopens`, `RetentionReopens`). Revisions stay right even so (`RevisionsFollowWins`).
- A report with an empty snapshot advances the generation and stores nothing, so the stored snapshot
  then depends on the order of delivery (`OrderFreeExactly`, `EmptySnapshotDependsOnOrder`). That case
  exists only at the boundary of `AcceptInventory`: the server's one caller passes the encoding `Shrink`
  returns, which is never empty, and such reports may arrive in any order (`FullReportsAreOrderFree`).
- Parts are numbered with three digits and sorted as text: a snapshot of more than a thousand parts is
  cut but never joined (`RoundTripExactly`, `ThousandAndOneParts`).
- A notice reads back from the event stream only if it holds no line break (`ReadsBackExactly`,
  `BrokenNoticeIsCutShort`); the server cleans the agent's closing reason before it becomes one.
- The last, unended line of a log is shown even when it does not match the search
  (`StreamIsItsLines`, `UnendedLineIsShown`).

## Model

| member | source | states |
|---|---|---|
| DeploymentRuns.RunKeeps | internal/store/application_apply.go:51-924 | The lifecycle invariant (one live row per instance, distinct creation times, revisions and success history in step, planned containers still adopted, refusals bounded by unknown results) holds after every run of every transaction, with answers late, repeated, mismatched or missing |
| DeploymentRuns.OneLiveRow | internal/store/migrations/migrations.go:785 | In every reachable store an instance has at most one planned or applying row: the unique index is never violated |
| DeploymentRuns.RevisionsFollowWins | internal/store/application_apply.go:514-543 | In every reachable store an instance's current revision is that of its newest-created succeeded apply, its previous revision that of the success before, successes were settled in creation order, and every succeeded row in the table is one of them |
| DeploymentRuns.LateAnswerOverwritesNothing | internal/store/application_apply.go:436-543 | A result is accepted only for the newest-created acted-on row of its instance, and only if that row is newer than every success so far: a late answer never overwrites newer state |
| DeploymentRuns.AppliedPlanIsCurrent | internal/store/application_apply.go:99-147 | A plan that is applied was made after the last result accepted for its instance |
| DeploymentRuns.RollbackTargetsStay | internal/store/samples.go:228-255 | Retention never deletes the last succeeded row at an instance's current or previous revision, in any run |
| DeploymentRuns.PruneReopens | internal/store/samples.go:228-255 | Retention makes a row settleable again if and only if the row is unknown, its instance remains, and every newer acted-on row of the instance is deleted in the batch |
| DeploymentRuns.InFlightIsSafe | internal/store/application_adoption.go:189-248 | While an instance has an applying row, no transaction but that row's own answer deletes the instance |
| DeploymentRuns.AnswerMoves | internal/store/application_apply.go:549-597 | In every run, every result accepted for a Docker apply conserves the instance's containers, and moves exactly the reported services from their planned containers if and only if those are in place, as they are until some result has been accepted for the instance |
| DeploymentRuns.SentIsDistinct | internal/store/application_apply.go:51-147 | In every run, the plan of a Docker apply that was sent names distinct services and distinct containers |
| DeploymentRuns.BoundWhenSettled | internal/store/application_apply.go:549-597 | In every run, until a result is accepted for its instance a settleable Docker apply still holds every planned container, so its services are distinct and adopted when the answer comes |
| DeploymentRuns.InFlightIsUntold | internal/store/application_apply.go:99-147 | In every run, no result has been accepted for an instance since its applying row was created |
| DeploymentRuns.RemovalAnswerForgets | internal/store/application_apply.go:629-700 | In every run, an accepted Docker removal forgets a target exactly when its steps prove it gone, and releases the instance and marks the application removed exactly on a success, which then proves every target gone |
| DeploymentRuns.PushRow | internal/store/application_apply.go:381-432 | A system transition moves exactly the selected rows that still match, once each however often they are selected, and writes one audit row for each |
| DeploymentRuns.MovesAreAudited | internal/store/application_apply.go:381-543 | In every run, a step by the server or an agent adds exactly one audit row for each deployment row it moves and none for any other |
| DeploymentRuns.RefusedAtMostOnce | internal/store/application_apply.go:716-755 | In every run, a deployment has at most one refused audit row more than it has accepted unknown results; `DeploymentFindings.RefusedTwice` reaches the bound |
| DeploymentRuns.RefusalWritesExactly | internal/store/application_apply.go:716-755 | A refusal adds one refused audit row if and only if the row may take a result from this endpoint and is applying or carries another detail; if it adds none the store is unchanged, and a row that may take a result is left unknown with the given detail and no other row touched |
| DeploymentRuns.RefusingAgainIsIdle | internal/store/application_apply.go:716-755 | Refusing the same result again changes nothing and writes no audit row |
| DeploymentRuns.ResentResult | internal/store/application_apply.go:469-543 | In every run, an accepted result is accepted when sent again if and only if its outcome is unknown and it is a removal, a cluster's, or reports exactly the containers its services were planned to replace, in whatever order; a repeat that is accepted keeps the set of containers and is audited once more, with the planned containers in place it changes none of them and no service moved, and a repeat that is refused changes nothing |
| DeploymentTables.SettleExactly | internal/store/application_apply.go:436-511 | A result is taken if and only if it is readable and storable, names a row of the reporting endpoint that is applying or is unknown with its instance there and nothing newer done to it, carries the row's correlation or none, and its answer is one the plan takes; anything else changes nothing, and an unknown row, endpoint or state reads as not found |
| DeploymentTables.SettleWrites | internal/store/application_apply.go:499-543 | A result that is taken ends exactly its row, now and with the reported outcome, expires exactly the instance's newer plans, adds exactly one audit row of the agent, advances the revisions exactly on a succeeded apply, and removes the instance and marks the application exactly on a succeeded removal |
| DeploymentTables.RefuseExactly | internal/store/application_apply.go:716-755 | A refusal finds exactly the rows of its endpoint that still wait for an answer, and leaves such a row unknown with the given detail and one audit row unless it was so already |
| DeploymentTables.ApplyExactly | internal/store/application_apply.go:51-147 | A plan is applied if and only if it is a planned apply of the application, unexpired, at a revision from one to the head, with its project typed, its instance on the planned endpoint at the planned mapping version and namespace, a correlation, distinct and adopted containers, and policy, endpoint and frame allowing it; then exactly that row changes, to applying for ten minutes |
| DeploymentTables.ApplyRefusals | internal/store/application_apply.go:69-125 | Which refusal an apply gets: unknown application or row, policy, already applying, project not typed, plan no longer standing, endpoint offline |
| MappingOrder.NoMappingSincePlan | internal/store/application_apply.go:102-107 | In every run, a plan that is applied was made after every mapping of its instance that was taken |
| DeploymentTables.DisconnectExactly | internal/store/application_apply.go:757-761 | A disconnect of an endpoint moves a selected row if and only if it is applying on that endpoint: to unknown, never settled, with one audit row marked abandoned; nothing else changes |
| DeploymentTables.SweepExactly | internal/store/samples.go:228 | The sweep moves a selected row if and only if it is applying and its deadline is more than two minutes past: to unknown, never settled, with one audit row marked swept |
| DeploymentTables.UnsentExactly | internal/store/application_apply.go:371-376 | A frame not sent moves exactly its own row, from applying or unknown, to failed with the given detail and settled now, with one audit row marked not sent |
| InstanceTables.AdoptExactly | internal/store/application_adoption.go:144-186 | An adoption is taken if and only if the application is known, the preview holds, neither the application nor the project on the endpoint has an instance, and the containers are new and distinct; then one unmapped instance more owns exactly those containers |
| InstanceTables.MapClusterExactly | internal/store/application_mapping.go:179-237 | A cluster placement is taken if and only if the application is known and vacant and the namespace is granted; then there is one instance more, mapped once, and no container changes |
| InstanceTables.RemapExactly | internal/store/application_mapping.go:256-330 | A mapping is taken if and only if the instance stands, its review holds and nothing of it is in flight; then its version is the next, each of its containers carries exactly the service it is bound to, and nothing else changes |
| InstanceTables.RenamespaceExactly | internal/store/application_mapping.go:179-237 | A cluster instance takes a namespace if and only if it is granted, nothing of the instance is in flight, and it is the one it has or nothing was ever sent to that one |
| InstanceTables.PlanExactly | internal/store/application_deployment.go:532-637 | A plan is made if and only if the instance stands and is mapped, the preflight is clean and nothing of the instance is in flight; it replaces the instance's plans and no other row, and takes application, endpoint, project, namespace and mapping version from the instance, for ten minutes |
| InstanceTables.RemoveExactly | internal/store/application_apply.go:774-924 | A removal is taken if and only if the instance is the application's with its project typed, nothing of it is in flight, planned or in doubt, the request is clear and, on a Docker endpoint, its listing is all the instance's containers under distinct names |
| InstanceTables.RemoveRefusals | internal/store/application_apply.go:774-880 | Which refusal a removal gets, in the order the transaction looks |
| InstanceTables.RemoveWrites | internal/store/application_apply.go:860-924 | The row of a removal goes straight to applying, for ten minutes, at the head, with one target for each container listed, named by its service or by the first twelve characters of its identifier; it replaces the instance's plans and nothing else changes |
| InstanceTables.ReleaseExactly | internal/store/application_adoption.go:189-248 | A release is taken if and only if the instance is the application's, its project is typed and no row of the application for it is applying or an open plan; then exactly the instance, its containers and its plans go |
| InstanceTables.PruneExactly | internal/store/samples.go:228-255 | Retention deletes, of its batch, exactly the rows settled before the cutoff that are not the last success at a current or previous revision and whose application is not removed |
| InstanceTables.PruneAppsExactly | internal/store/samples.go:259-297 | Of its batch, exactly the removed applications without an instance go, with exactly their rows |
| DeploymentExample.ApplySucceeds | internal/store/application_apply.go:469-543 | There is a run from the empty store through adoption, mapping, plan, apply and a successful answer, after which the applied revision is current and the service is bound to the reported container |
| DeploymentFindings.UnknownIsTakenTwice | internal/store/application_apply.go:469-543 | From a reachable store, an unknown result that reports nothing is accepted twice and audited twice, and no container changes |
| DeploymentFindings.MovedIsTakenOnce | internal/store/application_apply.go:576-591 | From a reachable store, an unknown result that reports a moved service is accepted, and refused when it is sent again |
| DeploymentFindings.RefusedTwice | internal/store/application_apply.go:716-755 | A run in which one deployment is refused, reported unknown and refused again: two refused rows for one unknown result |
| DeploymentFindings.RetentionReopens | internal/store/samples.go:228-255 | A run in which a disconnect leaves a row unknown, a newer row fails, and retention after ninety days, offered both, deletes only the newer, so that the unknown row takes a result again |
| DeploymentFindings.ServiceIsLost | internal/store/application_mapping.go:256-330 | A run in which two services are mapped, an unknown result moves one, a new mapping clears its name, and a success naming the other service in the first one's planned container is accepted: that other service was bound before it and is bound to nothing after |
| DeploymentFindings.SwapIsTakenTwice | internal/store/application_apply.go:549-597 | In the store of that run, an unknown result that reports the two services in each other's planned containers is accepted twice, though both moved |
| SettleRules.SettleApplyConserves | internal/store/application_apply.go:549-597 | Accepting a Docker or cluster apply keeps the instance's container count, the number of its containers of each name, and every other instance's containers |
| SettleRules.SettleApplyMoves | internal/store/application_apply.go:549-597 | An accepted Docker apply replaces exactly the reported services' planned containers by distinct reported ones if and only if those planned containers are in place; each runs the pinned image or planned digest, and a success reports every planned service |
| AnswerRules.ClusterAnswer | internal/store/application_apply.go:602-623 | An answer to a cluster apply is taken, and rebinds nothing, if and only if each service it names is planned with an object and reported as the Deployment of that namespace and name at the planned digest, none twice, and a success names every planned service; anything else is invalid |
| AnswerRules.DockerAnswer | internal/store/application_apply.go:549-575 | An answer to a Docker apply is valid if and only if each service it names is planned and reported as a container, at the planned digest if one was pulled and else of the planned image, none twice, and a success names every planned service |
| AnswerRules.DockerAnswerLands | internal/store/application_apply.go:576-591 | A valid Docker answer whose planned containers are adopted is taken if and only if each service in turn finds the container it replaces the instance's, the reported one free, and no other container carrying its name; then exactly the reported services have moved |
| AnswerRules.DockerRemovalTaken | internal/store/application_apply.go:629-680 | An answer to a Docker removal is taken if and only if it names no service, its steps are each a precondition, stop or removal of a target and none is there twice, and a success shows every target off the host |
| AnswerRules.DockerRemovalForgets | internal/store/application_apply.go:668-700 | A Docker removal that is taken forgets, of the instance's containers, all on a success and else exactly those on the endpoint that its steps show off the host; it releases the instance exactly on a success and leaves every other container |
| AnswerRules.ClusterRemovalAnswer | internal/store/application_apply.go:639-650 | An answer to a cluster removal is taken if and only if it names no service and every step is a precondition, a removal or a skipped volume marked retained; a success releases the instance, anything else changes nothing |
| RepeatRules.ApplyRepeats | internal/store/application_apply.go:549-597 | An accepted Docker apply of a plan with distinct services and containers is accepted again if and only if the set of reported containers is the set its services were planned to replace; the repeat then keeps the set of containers and their names and count, and with the planned ones in place it is accepted exactly if no service moved and changes nothing |
| RepeatRules.PermutationRepeats | internal/store/application_apply.go:576-591 | A rebinding whose reported containers permute the planned ones can be made again, whatever is in place, and leaves the same containers |
| RepeatRules.RepeatPermutes | internal/store/application_apply.go:576-591 | A rebinding that can be made twice reports every planned container of its services and no other |
| RepeatRules.RemovalRepeats | internal/store/application_apply.go:629-688 | An accepted removal that did not succeed is accepted again and changes nothing |
| RemovalRules.RemovalForgetsExactly | internal/store/application_apply.go:629-700 | An accepted Docker removal forgets a planned target exactly when its steps prove it gone, nothing outside the targets unless it succeeded, and releases exactly on a success that proves all of them gone |
| DeploymentStore.CheckApply | internal/store/application_apply.go:549-622 | The loop over reported identities accepts exactly the results whose services are distinct, planned and running what was pinned, all of them on a success |
| DeploymentStore.RebindServices | internal/store/application_apply.go:576-591 | The rebinding loop computes the rebinding of all reported services, or the first refusal with nothing changed |
| DeploymentStore.CollectSteps | internal/store/application_apply.go:655-667 | The loop over steps accepts exactly the reports that name targets, each step once, and collects them by target |
| DeploymentStore.FindGone | internal/store/application_apply.go:668-675 | The loop over targets finds exactly the containers whose steps prove them gone, and whether that is all of them |
| DeploymentStore.DecideApply | internal/store/application_apply.go:549-597 | The apply check and rebinding as they run decide exactly what the apply rule decides |
| DeploymentStore.DecideRemoval | internal/store/application_apply.go:629-700 | The removal check as it runs decides exactly what the removal rule decides |
| DeploymentStore.Store.SettleDeployment | internal/store/application_apply.go:469-543 | The transaction takes the tables exactly where the settle step takes them, and leaves them untouched when it answers an error |
| DeploymentStore.Store.ApplyDeployment | internal/store/application_apply.go:51-147 | The transaction takes the tables exactly where the apply step takes them, with its refusals in their order |
| DeploymentStore.Store.SystemTransition | internal/store/application_apply.go:381-432 | The transition loop moves the tables exactly as the push step and counts the rows it moved |
| DeploymentStore.Store.RefuseDeploymentResult | internal/store/application_apply.go:716-755 | The transaction takes the tables exactly where the refuse step takes them |
| DeploymentStore.Store.RemoveApplication | internal/store/application_apply.go:774-924 | The transaction takes the tables exactly where the remove step takes them, with its refusals in their order |
| DeploymentStore.Store.PlanDeployment | internal/store/application_deployment.go:612-637 | Inserting a plan drops the instance's planned rows, whether or not they had expired, and refuses while one is applying and for an instance that was never mapped |
| DeploymentStore.Store.AdoptApplication | internal/store/application_adoption.go:144-186 | The transaction takes the tables exactly where the adopt step takes them; a container adopted already refuses all of it |
| DeploymentStore.Store.ReleaseApplication | internal/store/application_adoption.go:189-248 | The transaction takes the tables exactly where the release step takes them |
| DeploymentStore.Store.ReadClock | internal/store/application_apply.go:469-543 | A later reading of the clock leaves the tables those of the same run; with it every transaction keeps them those of a run, so what is proved of runs holds of the fields |
| AgentSessions.RunKeeps | internal/api/agent_connect.go:54-232 | Any interleaving of connects, evictions, deliveries, answers, unwinds, abandonment, shutdown and restart keeps the session invariant |
| AgentSessions.AcceptedIsNeverLost | internal/api/agent_connect.go:215-232 | In every interleaving, a command deliverCommand accepted is settled, carried by a socket whose unwind is to come, on the list an unwound socket still settles, or on a list a stopping server gave up; nothing is given up unless the server is stopping |
| AgentSessions.QuietMeansSettled | internal/api/agent_connect.go:460-477 | Once every socket has unwound and settled its list, every accepted command that was not given up has an outcome |
| AgentSessions.RestartSettlesAll | internal/store/reconcile.go:23-60 | A restart gives every command an outcome, whatever shutdown left |
| AgentSessions.UnwoundCarriesNothing | internal/api/agent_connect.go:63-79 | In every interleaving, a socket whose unwind took what it carried carries nothing and never carries or serves again |
| AgentSessions.FirstAnswerWins | internal/store/commands.go:222-233 | An outcome once written is the command's outcome after every continuation of the run |
| AgentSessions.SlotPassesWhole | internal/api/agent_connect.go:139-170 | In every interleaving, an endpoint's slot is emptied only by its holder's own end or a restart, and passes to another socket only by a replace that named the holder |
| AgentOutcomes.AnswerWrites | internal/api/agent_connect.go:608-613 | In every run, an answer over a serving socket that names a command of its endpoint without an outcome leaves it with the reported outcome; one that names another endpoint's command or a settled one leaves it as it was; no other command changes |
| AgentOutcomes.ServerWrites | internal/store/commands.go:222-262 | In every run, a socket's end, an abandonment and a restart write unknown to exactly the unsettled commands they cover, and a command that was not sent is written failed |
| AgentOutcomes.OthersWriteNothing | internal/api/agent_connect.go:139-232 | No other step changes a command |
| AgentOutcomes.OutcomeExactly | internal/store/commands.go:222-262 | In every run a command has an outcome if and only if some event found it without one and wrote that outcome |
| AgentOutcomes.StepCreates | internal/store/commands.go:92-211 | A command comes to be, without an outcome, only by being created under a new identifier |
| AgentOutcomes.CarriedIsOwed | internal/api/agent_connect.go:215-232 | In every run, a command a socket carries was accepted, or is between the two halves of its delivery on that very socket |
| AgentOutcomes.RefusedIsNotCarried | internal/api/agent_connect.go:223-232 | In every run, a command whose delivery was refused is carried by no socket |
| AgentOutcomes.CarryExactly | internal/api/agent_connect.go:215-222 | In every run, a delivery is carried by exactly the socket that holds the endpoint's slot, and by none while the slot is empty |
| AgentOutcomes.SendExactly | internal/api/agent_connect.go:223-232 | With fewer than eight frames in the channel a delivery is accepted and still carried; with eight it is not accepted and no longer carried |
| AgentOutcomes.AdmitExactly | internal/api/agent_connect.go:139-162 | A socket is admitted exactly if the slot is free or held by the incumbent it replaces, and no other slot or socket changes |
| AgentOutcomes.LeaveExactly | internal/api/agent_connect.go:164-170 | A socket that leaves frees exactly its own slot and keeps what it carries |
| AgentOutcomes.UnwindExactly | internal/api/agent_connect.go:70-79 | An unwind turns exactly what the socket carried into what it has left to settle |
| AgentOutcomes.AnsweredExactly | internal/api/agent_connect.go:63-67 | Once its answer is written the socket carries everything but the command it named |
| AgentOutcomes.GiveUpExactly | internal/api/agent_connect.go:85-94 | Only a stopping server gives up what a socket has left to settle |
| AgentRegistry.PassLeavesRefused | internal/api/agent_connect.go:96-106 | After a settling pass a socket's list is exactly what the store refused of it |
| AgentRegistry.PassSettles | internal/api/agent_connect.go:96-106 | After a settling pass every listed command the store did not refuse has an outcome |
| AgentRegistry.Server.SettleCommand | internal/store/commands.go:222-233 | Writes the reported outcome to an unsettled command of the endpoint, and changes no other command |
| AgentRegistry.Server.SettleCarried | internal/api/agent_connect.go:96-106 | The pass as it loops is those settling steps in order, returns exactly the refused ids, and keeps the invariant |
| AgentRegistry.Server.AddConn | internal/api/agent_connect.go:139-149 | Registers the socket exactly when its endpoint is free, else names the incumbent and changes nothing |
| AgentRegistry.Server.ReplaceConn | internal/api/agent_connect.go:154-162 | Hands the slot over exactly when it is free or held by the named incumbent |
| AgentRegistry.Server.RemoveConn | internal/api/agent_connect.go:164-170 | Frees the slot only if this socket holds it; no other endpoint's slot changes |
| AgentRegistry.Server.CarryOnConn | internal/api/agent_connect.go:215-222 | The locked half of a delivery: the registered socket, if any, carries the command |
| AgentRegistry.Server.SendOnConn | internal/api/agent_connect.go:223-232 | The other half: accepted exactly when the channel, shared with every other frame, had room, else no longer carried |
| AgentRegistry.Server.Deliver | internal/api/agent_connect.go:196-209 | Any other frame takes a place in the same channel exactly when there is room |
| AgentRegistry.Server.Unanswered | internal/api/agent_connect.go:70-79 | Takes exactly what the socket carried as its list to settle, in any order, and leaves it carrying nothing |
| AgentRegistry.Server.EndSession | internal/api/agent_connect.go:460-477 | After a session's end every command its socket carried has an outcome, except exactly those the store refused, which are on its list |
| EndpointKeys.ExactlyOneApproved | internal/store/agent_rotation.go:22-100 | In every run, from approval to revocation an endpoint has exactly one approved key and at most one under review |
| EndpointKeys.ExactlyOneIdentity | internal/store/agent_session.go:33-69 | At every moment of every run exactly one fingerprint passes the handshake while the endpoint lives, and none once it is revoked or its enrollment expired |
| EndpointKeys.RetiredStaysRetired | internal/store/agent_rotation.go:55-96 | A retired key is retired after every continuation and never passes again |
| EndpointKeys.OnlyAcknowledgementAdmits | internal/store/agent_rotation.go:84-100 | The only step after which a fingerprint passes that did not pass before is an operator acknowledging that key while it was under review |
| EndpointKeys.ApprovedUntilSucceeded | internal/store/agent_rotation.go:84-100 | The key that authenticates stops only by revocation, or by acknowledging a successor that then passes |
| EndpointKeys.RevokedIsFinal | internal/store/endpoints.go:397-408 | After revocation no continuation revives the endpoint or any of its keys |
| EndpointKeys.NoRotationWhileDuplicated | internal/store/agent_rotation.go:48-54 | While a duplicate connection stands unacknowledged no step adds a key |
| KeyRules.KeyAddedExactly | internal/store/agent_rotation.go:22-80 | On every reachable endpoint a step adds a key if and only if it is a well-formed rotation to a new fingerprint, signed by the one key that passes the handshake, on an endpoint that accepts, with no duplicate connection standing and no key under review for less than seven days; the key is under review as of now, every earlier pending key is retired and no other changes |
| KeyRules.RotationRefusals | internal/store/agent_rotation.go:22-70 | Which refusal a rotation gets: its form, its signer or the endpoint, a duplicate connection, a key under review, a known fingerprint |
| KeyRules.AcknowledgeExactly | internal/store/agent_rotation.go:84-100 | An acknowledgement is taken if and only if its key is under review for less than seven days on an endpoint that accepts; then it is the approved key and every other one is retired |
| KeyRules.ApproveExactly | internal/store/endpoints.go:355-382 | An approval is taken if and only if the enrollment is pending for at most a day and the key is its key under review; then exactly that key is approved and the inventory starts empty |
| KeyRules.TerminateExactly | internal/store/endpoints.go:384-408 | A rejection ends exactly a pending endpoint and a revocation any that is not revoked: every key is retired and the inventory is gone |
| KeyRules.ReportExactly | internal/store/agent_session.go:108-135 | A report is taken if and only if it is at most a mebibyte, stamped at most an hour ahead, newer than what is stored, and the endpoint accepts; it makes the endpoint active and replaces the snapshot unless it is empty |
| KeyRules.MarksExactly | internal/store/agent_session.go:175-179 | Only an active endpoint goes offline, and events come and go one at a time |
| KeyRules.IdentityExactly | internal/store/agent_session.go:33-69 | A fingerprint passes exactly if it is the approved key of an endpoint that accepts or the first key of one pending for at most a day; a rotated key is under review for seven days |
| EndpointKeys.EndpointRow.RotateEndpointKey | internal/store/agent_rotation.go:22-80 | The transaction updates the rows exactly as the rotate step, answers its refusals in their order, and changes nothing when it refuses |
| EndpointKeys.EndpointRow.AcknowledgeEndpointKey | internal/store/agent_rotation.go:84-100 | Succeeds exactly for a young key under review on an accepting endpoint, which becomes the only key that is not retired |
| EndpointKeys.EndpointRow.ApproveEndpoint | internal/store/endpoints.go:355-382 | The transaction updates the rows exactly as the approve step, with its refusals |
| EndpointKeys.EndpointRow.Terminate | internal/store/endpoints.go:384-408 | Rejection and revocation update the rows exactly as their steps |
| EndpointKeys.EndpointRow.AcceptInventorySnapshot | internal/store/agent_session.go:108-135 | Applied exactly when the report is within the bounds, the endpoint accepts and the generation is newer |
| InventoryOrder.LargestGenerationWins | internal/store/agent_session.go:108-135 | Timely reports on an accepting endpoint, in any order and repeated, leave the largest generation stored |
| InventoryOrder.OrderFreeExactly | internal/store/agent_session.go:108-135 | On every reachable accepting endpoint, with one snapshot per generation, the stored snapshot is the same for every order of delivery if and only if the newest report has a snapshot or no report newer than the stored one has |
| InventoryOrder.FullReportsAreOrderFree | internal/api/agent_connect.go:784-787 | Reports that all carry a snapshot, as the server's caller sends them, store the same snapshot in every order of delivery |
| InventoryOrder.EmptySnapshotDependsOnOrder | internal/store/agent_session.go:129-134 | Two reports, the newer without a snapshot, store different snapshots in the two orders |
| InventoryOrder.SnapshotNeverOlder | internal/store/agent_session.go:124-134 | No sequence of reports replaces the stored snapshot by one of an older generation |
| InventoryOrder.GenerationWithinSkew | internal/store/agent_session.go:99-115 | In every run the stored generation is at most an hour ahead of the latest clock reading |
| InventoryOrder.HonestReportAccepted | internal/store/agent_session.go:99-126 | So a report stamped with the current time is accepted again within an hour and a second, whatever was accepted before |
| LogLines.ChunkingIsInvisible | internal/api/log_handlers.go:329-377 | For every cutting into chunks of a stream with no over-long line, the writer ends where cutting the whole stream at LF, CR and CR LF and emitting its lines in order would |
| LogLines.FeedIsWhole | internal/api/log_handlers.go:329-377 | Reading byte by byte, with a CR waiting across a boundary for its LF, is cutting the whole text at its breaks |
| LogLines.StreamIsItsLines | internal/api/log_handlers.go:329-454 | A stream within the bounds ends as its lines that match the search, then its unended rest whether or not it matches, then why it stopped |
| LogLines.UnendedLineIsShown | internal/api/log_handlers.go:443-447 | A search that matches nothing still shows a line the container did not end |
| LogLines.BoundsExactly | internal/api/log_handlers.go:382-393 | The bounds are spent exactly when the lines read, shown or not, exceed them in number or bytes |
| LogLines.NothingLost | internal/api/log_handlers.go:329-377 | With no assumption on lengths, the shown texts and what is pending are the bytes read without CR and LF, a prefix of them once the bounds are spent, and what is pending stays under the longest line allowed |
| LogLines.SearchOnlyHides | internal/api/log_handlers.go:379-393 | A search hides lines and changes nothing else: not what is read, what it costs, nor any notice |
| EventStream.ReadsBackExactly | internal/api/log_handlers.go:395-440 | Parsing the response by sections 9.2.5 and 9.2.6 of the WHATWG HTML Standard gives its lines as message events and notices as notice events, in order, if and only if no notice holds a line break |
| EventStream.FollowedLogReadsBack | internal/api/log_handlers.go:169-231 | At every moment of serving a followed log, for every container output and whatever gaps, keepalives, withdrawals, limits and ends come in between, what was written reads back exactly, the agents' closing reasons holding no line break |
| EventStream.ReaderSeesTheLog | internal/api/log_handlers.go:329-454 | A reader of a followed log within its bounds sees exactly the matching lines as printed, the unended rest, and the end |
| EventStream.BrokenNoticeIsCutShort | internal/api/log_handlers.go:419-428 | A notice with a line feed in it does not read back |
| LogResponse.LogWriter.Write | internal/api/log_handlers.go:329-377 | The loop over a chunk, line by line, computes the same writer as reading it byte by byte and splitting an over-long rest |
| LogResponse.LogWriter.TakeLine | internal/api/log_handlers.go:358-375 | One turn of the loop consumes a line and its break, CR LF as one, leaving the rest to be read as before |
| LogResponse.LogWriter.EmitLine | internal/api/log_handlers.go:382-393 | Counts the line, shows it if the search keeps it, and says whether the bounds are spent |
| LogResponse.LogWriter.WriteLine | internal/api/log_handlers.go:395-406 | The bytes of the response stay the rendering of its items, whatever the text holds |
| LogResponse.LogWriter.WriteNotice | internal/api/log_handlers.go:419-429 | The bytes of the response stay the rendering of its items |
| LogResponse.LogWriter.Gap | internal/api/log_handlers.go:410-414 | A notice naming the dropped bytes, exactly when there were any, as the handler's step has it |
| LogResponse.LogWriter.WriteKeepalive | internal/api/log_handlers.go:434-440 | A comment in a followed response, nothing in a plain one |
| LogResponse.LogWriter.Finish | internal/api/log_handlers.go:443-454 | The unended rest, then why the stream stopped |
| LogResponse.PlainReadsBack | internal/api/log_handlers.go:395-406 | The shown lines of a plain response are recovered by cutting it at its breaks |
| LogServing.LinesOfJoined | internal/api/log_handlers.go:329-377 | Whatever breaks end them, LF, CR or CR LF, the lines of a text are the lines it was put together from, and its rest what follows the last break |
| LogServing.LimitedStream | internal/api/log_handlers.go:382-393 | A stream that exceeds 10000 lines or 4194304 bytes, however it was cut into chunks, shows the matching lines up to and with the one that spends the bounds, then the notice that says so, and takes nothing more |
| LogServing.LongLineIsSplit | internal/api/log_handlers.go:340-356 | Text without a break joins what is pending; at 65536 bytes it is said to be split and shown as a line if the search keeps it, and until then nothing is shown |
| LogServing.ChunkIsServed | internal/api/log_handlers.go:206-210 | A chunk is written after the drops before it are told, and ends the request exactly when that spends it |
| LogServing.RecheckIsServed | internal/api/log_handlers.go:192-205 | A recheck ends the request exactly when access was withdrawn or the time is up, and says which; otherwise it only keeps the stream alive |
| LogServing.EndIsServed | internal/api/log_handlers.go:443-454 | The end tells the last drops, shows what is pending, and says that and why the stream ended |
| LogServing.NothingAfterTheEnd | internal/api/log_handlers.go:169-231 | Once the handler is done nothing more is written |
| LogServing.FollowerSeesTheLog | internal/api/log_handlers.go:169-454 | The reader of a log followed to its end within the bounds sees exactly its matching lines, its unended rest and the end, however it was cut |
| LogServing.PlainReadsAll | internal/api/log_handlers.go:395-429 | A plain response cut at its breaks is its lines and the server's words marked with the request's token, in order |
| LogStreams.CountersExact | internal/api/log_streams.go:61-101 | In every run of opens and releases, repeated or not, each counter equals the number of open streams it stands for, holds no entry for none, and stays within its limit |
| LogStreams.RefusedExactly | internal/api/log_streams.go:61-70 | An actor is refused for its own limit exactly when it holds a stream on the endpoint, and for the endpoint's exactly when it holds none there and the endpoint serves four |
| LogStreams.RefusedOnlyByFourOthers | internal/api/log_streams.go:61-70 | The endpoint's limit refuses an actor only while four others hold one stream each |
| LogStreams.OneStreamPerActor | internal/api/log_streams.go:61-70 | No actor ever holds two streams on an endpoint |
| LogStreams.ReleasedOnce | internal/api/log_streams.go:85-101 | Releasing a stream again changes no counter, whatever was opened or released in between |
| LogStreams.PairKeyInjective | internal/api/log_streams.go:58 | A counter key stands for one endpoint and one actor, endpoint ids holding no NUL |
| LogFlow.BytesConserved | internal/api/log_streams.go:145-171 | In every interleaving of deliverers and reader, each of whose operations is its own step, chunks are read in the order queued, and bytes arrived plus drops the agent reported equal bytes read plus queued plus refused and not yet counted plus gaps told plus drops untold, exactly below 2^63 and modulo 2^64 beyond |
| LogFlow.DeliverIsItsActs | internal/api/log_streams.go:145-157 | Undisturbed, a delivery is its report, its offer to the queue and the count of what was refused |
| LogFlow.DeliverExactly | internal/api/log_streams.go:145-157 | A chunk is queued behind fewer than thirty-two others, and else its bytes join the untold drops, after those the agent reported |
| LogFlow.LogStream.DeliverChunk | internal/api/log_streams.go:145-157 | Queues the chunk or counts it as dropped, without blocking |
| LogFlow.LogStream.TakeGap | internal/api/log_streams.go:171 | Returns and clears the drops not yet told |
| LogFlow.LogRegistry.OpenStream | internal/api/log_streams.go:61-82 | Updates streams and both counters exactly as the open step, with its refusals in their order, and keeps the counters exact |
| LogFlow.LogRegistry.ReleaseStream | internal/api/log_streams.go:85-101 | Updates streams and both counters exactly as the release step, keeps the counters exact, and ends the stream without a reason |
| LogFlow.LogRegistry.Find | internal/api/log_streams.go:106-113 | Finds exactly the endpoint's own open stream of that id |
| LogFlow.LogRegistry.CloseMatching | internal/api/log_streams.go:129-141 | Ends exactly the open streams that match, and never overwrites an earlier reason |
| ValidationTick.OneAtATime | internal/api/validations.go:86-120 | In every run, at every moment at most four rows run and no two of one organization, and each organization's rows start in order |
| ValidationTick.NoneTwice | internal/api/validations.go:86-120 | In every run no row is started more often than it is pending |
| ValidationTick.AllStarted | internal/api/validations.go:86-120 | A tick that ended without being stopped started every pending row |
| ValidationTick.PassedOverAtMost | internal/api/validations.go:88-95 | In every run, from any moment an organization is eligible until its turn, at most n - 1 rows of others are started, n being the organizations with work |
| ValidationTick.NeverStuck | internal/api/validations.go:86-120 | Until it ends, a tick can start a row or one of those running can finish |
| TickOrder.StartsExactly | internal/api/validations.go:86-120 | In every run the tick starts a row exactly while it is not stopped, fewer than four rows run, and some organization has a pending row and none running |
| TickOrder.StartIsNearest | internal/api/validations.go:87-102 | In every run a start takes the oldest row not yet started of a waiting organization, the one fewest turns from its own |
| TickOrder.TurnsInOrder | internal/api/validations.go:79-84 | The organizations take their turns in the order their first rows are pending |
| ValidationTick.RunTick | internal/api/validations.go:79-121 | The tick as it loops always returns, with nothing running, having started every row unless stopped, and what it did is one of the runs |
| ValidationTick.GroupByOrg | internal/api/validations.go:79-84 | The loop groups the rows by organization, in the order of first appearance, each queue in order |
| ValidationTick.Workers.PickOrg | internal/api/validations.go:88-95 | The inner loop finds the first organization from the turn on that is idle and has rows, and the turn after it |
| ValidationTick.Workers.TryStart | internal/api/validations.go:87-102 | Starts the row whose turn it is exactly when a worker is free and one is eligible |
| LoginBackoff.AtMostElevenAnHour | internal/api/server.go:261-335 | In every run without a success or an eviction of the key, any twelve checks admitted for it span an hour at least |
| LoginBackoff.ElevenIsReached | internal/api/server.go:314-335 | Eleven checks within an hour are reached: the bound is exact |
| LoginBackoff.WithinCap | internal/api/server.go:314-362 | In every run the map holds at most its cap |
| LoginBackoff.DelaySurvivesFlood | internal/api/server.go:345-362 | Making room never ends a delay being served while any entry is not serving one |
| LimiterRules.DelayTable | internal/api/server.go:261-335 | Four failures are free, then one, two, four and eight minutes, and a quarter of an hour from the ninth |
| LimiterRules.LoginExactly | internal/api/server.go:314-362 | A login is checked exactly if its key has no entry or its delay is over; it counts one failure more, or one if there is none or its delay ended over an hour ago, and starts that delay; no other entry changes but those making room drops |
| LimiterRules.SuccessExactly | internal/api/server.go:337-341 | A success clears its own key and no other |
| LoginBackoff.Limiter.BeginLogin | internal/api/server.go:314-335 | Admits exactly when the key is not backing off, and updates the map exactly as the step with a fair victim |
| LoginBackoff.Limiter.MakeLoginRoom | internal/api/server.go:345-362 | Drops what is forgotten, then one entry that is not backing off if any is not, and leaves room |
| LoginBackoff.Limiter.PickVictim | internal/api/server.go:353-361 | The scan ends on an entry that is not backing off, if there is one |
| LoginBackoff.Limiter.LoginSucceeded | internal/api/server.go:337-341 | Forgets the key |
| AttemptWindows.IntervalAllowsLessThanTwice | internal/api/server.go:228-236 | In every run, for a key with one limit and window and not evicted, any 2 * limit allowed attempts span more than a window |
| AttemptWindows.IntervalReachesBound | internal/api/server.go:228-236 | For every limit and window a run reaches 2 * limit - 1 allowed attempts within one window's length: the bound is exact |
| AttemptWindows.WindowAllowsLimit | internal/api/server.go:372-378 | In every run one counted window allows at most the limit |
| AttemptWindows.WithinCap | internal/api/server.go:228-255 | In every run the map holds at most its cap |
| LimiterRules.AttemptExactly | internal/api/server.go:228-255 | An attempt opens a window if the key has none or its window is over and else counts one more, allowed or not; it is allowed exactly within the limit, and no other window changes but those making room drops |
| AttemptWindows.Attempts.AllowIn | internal/api/server.go:228-236 | Counts the attempt exactly as the step and says whether it is within the limit |
| AttemptWindows.Attempts.FreeSlot | internal/api/server.go:242-255 | Drops every expired window, then one live entry if the map is still full |
| RegistrySlots.CountsAddUp | internal/api/image_check_handlers.go:56-79 | In every run of takes and releases the organizations' counts add up to the pool's occupancy, none above two and the pool at most eight |
| RegistrySlots.RefusedOnlyByFour | internal/api/image_check_handlers.go:56-79 | An organization holding none is refused exactly when the pool is full, and then at least four others hold slots |
| RegistrySlots.ReleaseUndoesTake | internal/api/image_check_handlers.go:56-79 | Releasing a slot just taken restores the pool |
| LimiterRules.SlotExactly | internal/api/image_check_handlers.go:56-70 | A slot is taken exactly if the organization holds fewer than two and the server fewer than eight |
| LimiterRules.ReleaseExactly | internal/api/image_check_handlers.go:71-79 | A release gives back one slot, and the organization's entry goes with its last |
| RegistrySlots.Slots.TakeSlot | internal/api/image_check_handlers.go:56-70 | Takes a slot exactly when the quota and the pool allow it |
| RegistrySlots.Slots.ReleaseSlot | internal/api/image_check_handlers.go:71-79 | Gives back one slot of the organization and one of the pool |
| DatabaseParts.RoundTripExactly | internal/backup/split.go:32-134 | What the cutting makes of an oversized snapshot is numbered from zero without a gap and is the snapshot in order, and the join accepts it if and only if there are at most a thousand parts |
| DatabaseParts.Restored | internal/backup/split.go:32-134 | Cutting and joining return the snapshot itself up to a thousand parts, and refuse it beyond |
| DatabaseParts.JoinDatabase | internal/backup/split.go:72-134 | Accepts exactly the sets of one to a thousand parts numbered from zero without a gap, with no database and no unfinished join beside them, and writes their contents in order; each refusal exactly when it applies |
| DatabaseParts.PartsAreTheSnapshot | internal/backup/split.go:32-43 | Parts are numbered in order, none empty or over the limit, and together they are the snapshot |
| DatabaseParts.FewestParts | internal/backup/split.go:36-41 | Every part but the last is full |
| DatabaseParts.NamesInOrder | internal/backup/split.go:38 | Below a thousand, the order of the names is the order of the numbers |
| DatabaseParts.ThousandAndOneParts | internal/backup/split.go:91-96 | A snapshot of 1001 parts is cut and never joined again |
| DatabaseParts.DatabaseMembers | internal/backup/split.go:32-43 | The cutting loop makes exactly those members |
| MigrationReport.EveryAxisCovered | internal/migration/migration.go:117-180 | Every service has a finding on each of the eight axes |
| MigrationReport.ReadyExactly | internal/migration/migration.go:165-172 | A report is ready exactly when every finding of every service is supported |
| MigrationReport.ReadyFromInput | internal/migration/migration.go:117-329 | A report is ready if and only if every service uses only its own verified volumes with a standing choice, no host network, no port bound to a host address, no restart policy the cluster lacks, was inspected with nothing that blocks, and everything it would drop is acknowledged |
| MigrationReport.ReadyMeansInspected | internal/migration/migration.go:278-301 | A ready report inspected every service, by an agent that reports health unless the image's health check was acknowledged |
| MigrationReport.ChoicesOnlyEase | internal/migration/migration.go:134-150 | More acknowledgements and volume choices keep every finding's axis and code, in order, and never raise its class |
| MigrationReport.StaysReady | internal/migration/migration.go:134-170 | A ready report stays ready when choices are added |
| MigrationClasses.VolumeExactly | internal/migration/migration.go:190-216 | A volume is blocked exactly if it is a bind mount, mounted by two services, or not verified, and else supported exactly if its choice stands; the code says which, and the detail names the target of a bind mount and else the volume |
| MigrationClasses.SharedExactly | internal/migration/migration.go:122-130 | A named volume counts as shared exactly if two services mount it |
| MigrationClasses.NetworkExactly | internal/migration/migration.go:240-250 | A service on the host's network is blocked and one on several is noted; references to other services are to be acknowledged |
| MigrationClasses.PortsExactly | internal/migration/migration.go:255-273 | A published port is blocked exactly if it is bound to a host address; without one, other services make it a question |
| MigrationClasses.ProbeExactly | internal/migration/migration.go:278-301 | A health check is dropped with an acknowledgement, and unknown to an agent that does not report it |
| MigrationClasses.CodeExactly | internal/migration/migration.go:302-315 | Each inspection code is dropped with an acknowledgement if it is a resource limit or a read-only root, another axis's if it is the image's or the network's, and else blocks |
| MigrationClasses.BlockedExactly | internal/migration/migration.go:117-329 | A service is blocked if and only if it has a bind, shared or unverified volume, is on the host's network, has a port bound to a host address or a restart policy the cluster lacks, or its inspection reports a code the cluster has no place for |
| MigrationReport.Analyze | internal/migration/migration.go:117-180 | The analysis reports every service once, sorted by name, and is ready exactly when every service is |
| MigrationReport.CountUsers | internal/migration/migration.go:122-130 | Counts for each named volume the services that use it, each once |
| MigrationReport.StorageOf | internal/migration/migration.go:190-216 | The loop over volumes finds exactly the storage findings |
| MigrationReport.PortsOf | internal/migration/migration.go:255-273 | The loop over ports finds exactly the port findings |
| MigrationReport.SortCodes | internal/migration/migration.go:302-315 | The loop over inspection codes sorts them into exactly the findings of each axis |
| MigrationReport.InspectedOf | internal/migration/migration.go:278-329 | Finds exactly the findings of the four axes that need an inspection |
| MigrationReport.WorstOf | internal/migration/migration.go:165-170 | The most severe class among the findings |

## Left out

- HTTP handlers, JSON, routing, status codes and MCP tools: plumbing around the modelled cores.
- Cryptography, password hashing, TOTP, OIDC, OAuth and SAML: inputs where a step needs their verdict.
- WebSocket transport, timers and the ping that tells a dropped peer from a busy one: who may replace whom is an input.
- The unlocked gap between the connected check and the offline write when a socket ends: no claim is made about the endpoint's offline state.
- Direct commands, which have their own settling calls: only commands delivered over a socket are modelled.
- The validation a succeeded apply opens and the image checks it clears: rows no modelled step reads.
- Building a deployment frame, secrets and registry credentials: only whether the frame is accepted.
- The exact blockers of a removal (shared volumes, unmapped containers) and of a preflight: one boolean each.
- Organizations and environments as scopes of store queries: one scope is modelled.
- Validation verdicts and rollbacks: the tick schedules rows without looking inside them.
- ValidationTick.RunTick: a row whose organization id is empty, which the store never writes and the tick reads as no organization at all, is outside it.
- The log stream's 64-bit drop counter is modelled with its wrap-around; other counters of the source cannot reach their width within their bounds and are unbounded here.
- The migration checklist, the fixed assumptions, Docker's volume-name grammar and the destination's service names: the last two are inputs, the others add only easy members.
- Exec and inspection admission, policy admission and the permission tables: limits of the same kind as those modelled.
- YAML import, the registry client, the web front end, the installer and the backup capsule client.
