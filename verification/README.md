# Verified model of the security control plane

This project models the deterministic, stateful parts of the control plane in Dafny and proves what they promise over
every call and every run:

- the **identity resolver**, a union-find that merges whole entities, computes exactly the connected components of
  "mentioned in one event" and loses no event count;
- **signed containment** as a protocol of two parties: the controller's ledger of commands, the text that is signed, the
  replay tracker, the guard in the protected application, and both parties together under loss, repetition and reordering;
- the **attack-sequence detector**, whose pruned window is the full observation log cut to the window;
- the **incident ledger**, whose two stores both summarise one list of cases;
- the **hot state** and its count rules, which forget as they go and answer as if they had kept everything, and the
  **rule engine**, whose ledger holds exactly one signal for each rule condition that its whole history satisfies;
- the **context graph**, whose pruning by age is exact for exactly those names of entities and applications that do not
  read like an edge;
- the **correlation engine**, which puts resolver, detector and graph behind one call: exactly which events of an entity
  its alert looks at, when others have been booked under ids that no longer exist;
- the **policy engine**, the **advisory gate** above it, and the **telemetry queue** of the agent.

What each operation does is said twice and proved equal: by the functions its method is verified against, and by lemmas
that speak about inputs and answers alone, such as `Guard.AcceptedRefuses`, `Conditions.SignalsAre` or
`Policy.PermittedIff`.

Components that change their state in place are classes. Each of their methods is proved equal to a function of the old
state, and the theorems are about runs of these functions. Time is an integer number of nanoseconds and every reading of
the clock is a parameter. Fresh UUIDs and nonces are parameters too. A call under a lock is one atomic step.
`dafny verify dfyconfig.toml` checks everything.

## Files

| file | content |
|---|---|
| `Basics.dfy` | optional values, bounded integers, Rust string operations, sorting, sums over maps |
| `Identity.dfy`, `IdentityTheorems.dfy`, `Survivors.dfy` | the resolver, its theorems over runs, and which ids it gives and keeps |
| `Commands.dfy` | containment commands and their canonical text |
| `Nonce.dfy`, `Guard.dfy`, `Manager.dfy`, `Protocol.dfy` | replay tracker, guard, controller, and all of them together |
| `Capabilities.dfy`, `Sequence.dfy`, `Stages.dfy` | capabilities, the attack-sequence detector, and what makes an attack |
| `Events.dfy`, `HotState.dfy`, `Rules.dfy` | security events and signals, the hot state, and the rules over it |
| `Incidents.dfy`, `Engine.dfy`, `Conditions.dfy` | the incident ledger and the rule engine, theorems from events to incidents, and what raises each signal |
| `Graph.dfy`, `Traces.dfy`, `EdgeIds.dfy`, `GraphTheorems.dfy` | the context graph, what an event leaves in it, the ids of its edges, its theorems over runs |
| `Collisions.dfy`, `Lookalikes.dfy`, `Pruning.dfy` | which edges events record, events that share an id, and the exact condition for pruning |
| `Profiles.dfy` | what an entity says about itself, and its name and times |
| `Lineage.dfy`, `Correlation.dfy`, `SplitAlert.dfy` | how canonical ids live and die, the correlation engine, and an attack it does not notice |
| `Policy.dfy`, `Advisory.dfy` | policy engine, advisory gate with its history |
| `Queue.dfy` | the agent's bounded queue and its worker |

Resolver, detector, graph and agent each look at few fields of a security event; each has a record of these fields, and
rules and incidents share that of `Events.dfy`. The events of `Correlation.dfy` contain the first three records.

## Where the code does not do what one would expect

The model follows the code. Each of these points is stated by a lemma, with the exact condition where there is one.

- Severity can drop on a second signal, against the comment "escalate" at `crates/engine/src/incident.rs:83`:
  `Incidents.SeverityDropsIff`, and `Incidents.SeverityDrops` for an example.
- The detector's alert looks for a high-impact step since tracking began, not only in the window
  (`crates/correlator/src/sequence.rs:131-133`): `Stages.AlertsOnFirstAttack`.
- An event that names a blank user besides another identifier makes its entity a user without a name
  (`crates/correlator/src/identity.rs:207-214`): `Survivors.NewEventFounds`.
- An entity keeps the first-seen time of the event that founded it even if a later event has an earlier timestamp, and the
  entity of an application is last seen at the event that came last, even an older one
  (`crates/correlator/src/identity.rs:135`): `Profiles.TimesAre`, `Profiles.AppTimesAre`.
- A throttled, restricted or isolated target with the prefix "session:" restricts no session, since sessions are looked up
  without it (`crates/agent-sdk/src/guard.rs:76-80`): `Guard.AcceptedRefuses`.
- A target can have two pending incidents: `Incidents.OnePendingIff` says after which calls, and
  `Incidents.ReopeningDoubles` is a run that gets there by reopening a succeeded incident.
- Contained and resolved incidents stay in the active map, against the comment at `crates/engine/src/evaluator.rs:199`:
  no status change takes a target out of it, `Incidents.RuleEngine.UpdateIncidentStatus`.
- When no rule matches, the default of whichever bundle the hash map lists first decides: `Policy.OutcomeIsOrderFreeIff`.
- A scope `P/*` also matches text that continues P without a slash, and widening it to `P/**` loses matches when P begins
  with `*.`: `Policy.GlobMeaning`, `Policy.WideningIsMonotoneIff`.
- The signed text of a command is ambiguous without conditions on its parts: `Commands.UnmistakableIff`,
  `Commands.CanonicalTextCollisions`, `Commands.BrokenRecipeIsAmbiguous`. A capability command that names no capability
  can be presented to the guard as one that names "none": `Protocol.NamelessCapabilityExceeds`.
- The ids of graph edges are ambiguous for entities and applications whose names read like an edge, and for entities
  whose names begin with "app:"; and then pruning drops recent edges: `EdgeIds.PlainIff`, `Pruning.PruningIsExactIff`.
- When an entity absorbs another, what the detector knew of the absorbed one stays behind under an id that never comes
  back (`crates/correlator/src/lib.rs:77-80`), so an attack that is complete only across the two raises no alert:
  `Correlation.AlertIff`, `SplitAlert.AttackGoesUnnoticed`.
- The guard strips every leading `ip:` of a blocked target and the controller recognises one: `Protocol.BlockIsRecognisedIff`.
  Throttled, restricted and isolated targets appear in the guard's session table: `Protocol.RevokedSessionAgrees`.
- A command first delivered after its rollback is enforced by the guard: `Protocol.DeliveryExceedsIff`,
  `Protocol.LateDeliveryExceeds`.
- A clock that falls by one nanosecond more than the slack, 839 seconds for the guard, lets a command in twice:
  `Nonce.ReplayFreeIff`, `Nonce.GuardSlackIsSharp`.
- The worker's parting post at the end of the program never has anything to send: `Queue.PartingPostIsIdle`.

## Model

| member | source | states |
|---|---|---|
| Identity.IdentityResolver.constructor | crates/correlator/src/identity.rs:88-93 | a new resolver knows no alias and no entity |
| Identity.IdentityResolver.MergeInto | crates/correlator/src/identity.rs:180-191 | one entity disappears into another and every alias that pointed to it follows; nothing else changes |
| Identity.IdentityResolver.PickHighest | crates/correlator/src/identity.rs:165-176 | the scan returns the first matched id of the highest entity type |
| Identity.IdentityResolver.MergeMatched | crates/correlator/src/identity.rs:178-193 | the loop absorbs all matched entities but the highest, one after the other |
| Identity.IdentityResolver.LinkEvent | crates/correlator/src/identity.rs:197-229 | all aliases of the event point to its entity, which takes up the event's details and becomes a user if one is named |
| Identity.IdentityResolver.ResolveAndUpdate | crates/correlator/src/identity.rs:128-232 | the whole call: both maps and the returned id, with the fallback, the founding, the single match and the merge |
| Identity.IdentityResolver.NoteCapabilities | crates/correlator/src/lib.rs:58-66 | inferred capabilities are added to a live entity |
| Identity.IdentityResolver.GetByAlias | crates/correlator/src/identity.rs:238-241 | the live entity that the alias points to, if both exist |
| IdentityTheorems.RunIsSound | crates/correlator/src/identity.rs:128-232 | in every run aliases point to live entities, known aliases are the seen ones, and every entity summarises exactly the events it owns: counts, linked ids, applications, capabilities, first and last times |
| IdentityTheorems.SameEntityIffConnected | crates/correlator/src/identity.rs:142-201 | a seen alias has one canonical id with another if and only if a chain of events sharing aliases connects them |
| IdentityTheorems.KnownIffSeen | crates/correlator/src/identity.rs:197-201 | the alias map knows exactly the aliases of the events so far |
| IdentityTheorems.ChainIsOneEntity | crates/correlator/src/identity.rs:142-201 | all aliases along a chain of linked events have one canonical id |
| IdentityTheorems.SameEntityIsConnected | crates/correlator/src/identity.rs:142-201 | aliases with one canonical id are connected by a chain |
| IdentityTheorems.StepAliases | crates/correlator/src/identity.rs:178-201 | after one event exactly its own aliases and those of the entities it matched point to the resolved id, and all others stay |
| IdentityTheorems.EventsAreConserved | crates/correlator/src/identity.rs:55-71 | the event counts of the live entities sum to the number of events resolved, through any merges |
| IdentityTheorems.TallyMerged | crates/correlator/src/identity.rs:55-71 | after a merge the surviving entity owns exactly the events of both |
| IdentityTheorems.TallyUnmerged | crates/correlator/src/identity.rs:186-190 | a merge leaves the events of all other entities where they were |
| IdentityTheorems.LinkedIdsAreAliases | crates/correlator/src/identity.rs:204-225 | a non-blank user, session, container or address is linked to a live entity if and only if its alias points there |
| IdentityTheorems.TypeFollowsUsers | crates/correlator/src/identity.rs:207-214 | a live entity has type User if and only if users are linked to it |
| IdentityTheorems.LiveIdsAreRooted | crates/correlator/src/identity.rs:150-161 | a live entity stands for an application or is named after an alias that points to it |
| Survivors.AliasIff | crates/correlator/src/identity.rs:96-124 | the aliases of an event are its user, session, container and address as far as they are given and not blank, with their prefixes and kinds |
| Survivors.NewEventFounds | crates/correlator/src/identity.rs:128-161 | in every history an event of unknown identifiers resolves to its user, else its container, else its session, else its address, else its application, and the entity has that kind and name |
| Survivors.MergeKeepsStrongest | crates/correlator/src/identity.rs:162-193 | in every history an entity is absorbed only by one of the same or a stronger kind, user before container before session before address, and of one kind the id that comes first stays |
| IdentityTheorems.FoundingStep | crates/correlator/src/identity.rs:150-161 | an event with only unknown aliases founds an entity under an id that no live entity has, and keeps all invariants |
| IdentityTheorems.MatchingStep | crates/correlator/src/identity.rs:162-229 | an event with known aliases merges what they point to and keeps all invariants |
| IdentityTheorems.FallbackStep | crates/correlator/src/identity.rs:130-139 | an event without aliases is booked on its application's entity, keeps all invariants and touches no alias |
| Commands.CanonicalBytes | crates/common/src/containment.rs:103-134 | the loop over the parameter map, in whatever order it comes, yields the one canonical text of the command |
| Commands.CanonicalTextIsDeterministic | crates/common/src/containment.rs:110-117 | the canonical text is the same for every order in which the parameter map is listed |
| Commands.CanonicalTextDetermines | crates/common/src/containment.rs:103-134 | delimited commands have one text if and only if they agree in all signed fields, a missing capability counting as "none" |
| Commands.CanonicalTextInjective | crates/common/src/containment.rs:103-134 | among commands without ambiguous parts the text determines all signed fields |
| Commands.TextFixesPrinted | crates/common/src/containment.rs:103-134 | whatever command is presented under the text of a command without line breaks, it agrees with it in id, action, target, printed capability, printed parameters, TTL, nonce, incident, times and recipe |
| Commands.UnmistakableIff | crates/common/src/containment.rs:103-134 | a command without line breaks shares its text with no other command at all if and only if it names a capability other than "none" and its parameters have at most one equals sign |
| Commands.TextIdentifiesIff | crates/common/src/containment.rs:108 | among delimited commands only, a command shares its text with no other if and only if it names a capability other than "none" |
| Commands.BrokenRecipeIsAmbiguous | crates/common/src/containment.rs:119-132 | a line break in the recipe lets the text be read as a command with another target |
| Commands.CanonicalTextCollisions | crates/common/src/containment.rs:115-132 | different commands with one text: capability "none", a line break in a field, a semicolon in a value |
| Commands.JoinParamsInjective | crates/common/src/containment.rs:111-117 | the parameter text determines keys and values when keys hold no "=" or ";" and values no ";" |
| Commands.DecimalInjective | crates/common/src/containment.rs:126 | the printed TTL determines the TTL |
| Commands.TextReads | crates/common/src/containment.rs:103-134 | the canonical text is these eleven labelled lines, with the parameters as pairs in ascending order of keys and "none" for what is missing |
| Commands.DecimalReads | crates/common/src/containment.rs:126 | the TTL is printed in decimal digits without leading zeros |
| Nonce.NonceTracker.constructor | crates/common/src/crypto.rs:118-124 | a new tracker remembers nothing and retains for 15 minutes |
| Nonce.NonceTracker.CheckAndRecord | crates/common/src/crypto.rs:127-150 | skew, eviction, replay and recording: the answer and the nonces kept, for every input |
| Nonce.ReplayNeedsClockFall | crates/common/src/crypto.rs:132-149 | a nonce with one issue time is accepted twice only if the clock fell by more than retention minus skew minus one second |
| Nonce.NoReplay | crates/common/src/crypto.rs:109-150 | while the clock falls by at most that slack no command is accepted twice |
| Nonce.ReuseIsFarApart | crates/common/src/crypto.rs:132-149 | with a nondecreasing clock two acceptances of one nonce lie further apart than the slack |
| Nonce.SlackIsSharp | crates/common/src/crypto.rs:132-149 | for all limits a run whose clock falls by one nanosecond more than the slack accepts a command twice |
| Nonce.ReplayFreeIff | crates/common/src/crypto.rs:109-150 | no run on a clock that falls by at most a given amount accepts a command twice if and only if the amount is within the slack |
| Nonce.GuardSlackIsSharp | crates/agent-sdk/src/guard.rs:24 | for the guard's 60 seconds of skew the slack is 839 seconds, and one nanosecond more admits a replay |
| Nonce.RememberedOrStale | crates/common/src/crypto.rs:140-148 | an accepted nonce stays recorded until the clock has reached its issue time plus the retention |
| Nonce.VerdictIff | crates/common/src/crypto.rs:127-150 | a nonce is accepted if and only if it was issued less than the skew and one second from now and is not remembered with an issue time after the cutoff; otherwise the error says which |
| Nonce.RememberedIff | crates/common/src/crypto.rs:127-150 | in every run the tracker remembers exactly the nonces it accepted and no later showing in time came late enough to evict |
| Guard.ContainmentGuard.constructor | crates/agent-sdk/src/guard.rs:21-29 | a new guard restricts nothing and tolerates 60 seconds of skew |
| Guard.ContainmentGuard.ApplyCommand | crates/agent-sdk/src/guard.rs:32-89 | key, signature, replay, expiry, then the table: the outcome and all tables and nonces afterwards |
| Guard.ContainmentGuard.RollbackAction | crates/agent-sdk/src/guard.rs:92-113 | the keys that a rollback clears, per action |
| Guard.ContainmentGuard.IsIpBlocked | crates/agent-sdk/src/guard.rs:116-129 | yes exactly for a live entry; an expired one is struck |
| Guard.ContainmentGuard.IsSessionRevoked | crates/agent-sdk/src/guard.rs:132-145 | yes exactly for a live entry; an expired one is struck |
| Guard.ContainmentGuard.IsCapabilityRevoked | crates/agent-sdk/src/guard.rs:148-160 | yes exactly for a live entry; an expired one is struck |
| Guard.ContainmentGuard.IsRequestAllowed | crates/agent-sdk/src/guard.rs:163-185 | allowed exactly when none of the three keys has a live entry; the checks stop at the first that has |
| Guard.MissedKeepsLive | crates/agent-sdk/src/guard.rs:169-183 | striking expired entries in an earlier check does not change the answer of a later one |
| Guard.TablesAgree | crates/agent-sdk/src/guard.rs:57-160 | over every run each table agrees with the history of accepted commands and rollbacks, up to entries whose time has passed |
| Guard.CheckAnswers | crates/agent-sdk/src/guard.rs:116-160 | a check says yes if and only if the last accepted command or rollback for its key was a command whose expiry lies ahead |
| Guard.ExpiryFreesRequests | crates/agent-sdk/src/guard.rs:163-185 | once every accepted command has expired every request is allowed, whatever was rejected |
| Guard.RequestForgets | crates/agent-sdk/src/guard.rs:116-185 | a request looks at its address, session and capability in turn until one refuses it, and forgets exactly the entries it looks at whose time has passed |
| Guard.GuardTracks | crates/agent-sdk/src/guard.rs:32-54 | in every run of the guard its tracker is that of the authentic commands presented, expired or not |
| Guard.GuardTakesOnce | crates/agent-sdk/src/guard.rs:32-54 | in every run in which the clock falls by at most 839 seconds the guard takes no command twice, whatever comes between |
| Guard.AcceptedIff | crates/agent-sdk/src/guard.rs:32-54 | a command is accepted if and only if it bears the controller's key and a good signature, was issued less than 61 seconds from now, and its nonce is not remembered; it takes effect if and only if it has not expired |
| Guard.AcceptedRefuses | crates/agent-sdk/src/guard.rs:57-185 | once a command has taken effect a request is refused if and only if it comes from the blocked address, in the revoked session, for the revoked capability of the target, or in a session named like the target of the other actions; or was refused before |
| Guard.RestrictionLasts | crates/agent-sdk/src/guard.rs:57-185 | the restriction lasts exactly until the command expires |
| Guard.AllowedIff | crates/agent-sdk/src/guard.rs:163-185 | a request is allowed if and only if none of the three tables holds its address, its session, or its session with its capability, unexpired |
| Guard.RollbackFrees | crates/agent-sdk/src/guard.rs:92-113 | a rollback takes back the address, the session or all capabilities of its target, and nothing else |
| Manager.ContainmentManager.constructor | crates/engine/src/containment/mod.rs:30-35 | a new manager has no commands |
| Manager.ContainmentManager.Dispatch | crates/engine/src/containment/mod.rs:48-82 | the new command, signed over its canonical text, is filed under its id; nothing else changes |
| Manager.ContainmentManager.Rollback | crates/engine/src/containment/mod.rs:85-112 | unknown, rolled-back and expired commands are refused; an active one is rolled back and returned |
| Manager.ContainmentManager.SweepExpired | crates/engine/src/containment/mod.rs:115-133 | exactly the active commands past their expiry become Expired, and their ids are returned, each once |
| Manager.ContainmentManager.IsRevokedOrBlocked | crates/engine/src/containment/mod.rs:136-188 | each of the three queries says yes if and only if a command in force matches it |
| Manager.ContainmentManager.GetCommands | crates/engine/src/containment/mod.rs:191-204 | the listing holds all commands, or all in force, each once |
| Manager.DispatchedIs | crates/engine/src/containment/mod.rs:48-82 | the dispatched command has every field that was asked for, is active, and expires when exactly its time to live has passed |
| Manager.SessionRevokedIff | crates/engine/src/containment/mod.rs:136-152 | a session is revoked if and only if a command neither rolled back nor expired revokes it, by its name with or without "session:" |
| Manager.IpBlockedIff | crates/engine/src/containment/mod.rs:155-169 | the same for an address, with or without "ip:" |
| Manager.CapabilityRevokedIff | crates/engine/src/containment/mod.rs:172-188 | a capability is revoked for an entity if and only if such a command revokes this capability for a target that occurs in the name of the entity |
| Manager.ShownIff | crates/engine/src/containment/mod.rs:191-204 | a listing shows exactly the commands neither rolled back nor expired, or all |
| Manager.StatusesAre | crates/engine/src/containment/mod.rs:85-133 | rollback and sweep change exactly the statuses they should, and nothing else |
| Manager.SweepIsUnobservable | crates/engine/src/containment/mod.rs:115-204 | two runs that differ only in sweeps answer all queries and the active listing alike |
| Manager.SweepsLeaveAlike | crates/engine/src/containment/mod.rs:115-133 | a run and the same run without sweeps differ only in statuses of commands past their expiry |
| Manager.AlikeAnswers | crates/engine/src/containment/mod.rs:136-204 | such ledgers answer all queries and the active listing alike |
| Manager.TerminalStays | crates/engine/src/containment/mod.rs:85-133 | an expired or rolled-back command never changes again |
| Protocol.AcceptedWasDispatched | crates/agent-sdk/src/guard.rs:34-48 | if the guard lets an unexpired command take effect, with any text in its fields, then it agrees with a dispatched one that is active in all that the signed text shows; and an expired one still agrees with a dispatched one |
| Protocol.ReadingKeepsKey | crates/agent-sdk/src/guard.rs:57-79 | however such a text is read, the guard files the command where the dispatched one is filed, or nowhere |
| Protocol.RunIsSound | crates/agent-sdk/src/guard.rs:32-160 | in every fair run each entry of the guard is backed by a command of the controller that is active or whose expiry has passed |
| Protocol.GuardNeverExceeds | crates/agent-sdk/src/guard.rs:32-160 | whatever the guard enforces, the controller has a command in force that asks for it; any command may be presented, forged, stale, repeated or rolled back, as long as no rolled-back command takes effect for the first time |
| Protocol.RefusedIsCommanded | crates/agent-sdk/src/guard.rs:32-185 | whenever the guard refuses a request, the controller has a command in force that restricts this very request |
| Protocol.BlockIsRecognisedIff | crates/engine/src/containment/mod.rs:163 | the controller recognises a block by the guard's cleaned address if and only if the target has at most one "ip:" |
| Protocol.BlockedIpAgrees | crates/engine/src/containment/mod.rs:155-169 | if the guard blocks an address so does the controller, when targets carry at most one "ip:" |
| Protocol.RevokedCapabilityAgrees | crates/engine/src/containment/mod.rs:172-188 | if the guard revokes a capability so does the controller |
| Protocol.RevokedSessionAgrees | crates/agent-sdk/src/guard.rs:63-78 | a session revoked by the guard is revoked by a command in force, or shares its name with a throttled, restricted or isolated target |
| Protocol.RevocationIsRecognisedIff | crates/engine/src/containment/mod.rs:144-145 | the controller recognises a revocation by the guard's cleaned session name if and only if the target has at most one "session:" |
| Protocol.RevokedSessionAnswers | crates/engine/src/containment/mod.rs:136-152 | if the guard revokes a session so does the controller, when targets carry at most one "session:" and nothing of that name is throttled, restricted or isolated |
| Protocol.DeliveryEnforces | crates/agent-sdk/src/guard.rs:32-89 | once a command in force has arrived in time with a good signature and a new nonce, every request it restricts is refused until it expires |
| Protocol.DeliveryExceedsIff | crates/agent-sdk/src/guard.rs:32-89 | one delivery makes the guard exceed the controller if and only if the guard accepts and files the command and no command in force asks for what it is filed under |
| Protocol.OnlyLateDeliveryExceeds | crates/agent-sdk/src/guard.rs:32-89 | after a fair run a delivery that makes the guard exceed the controller is one of a rolled-back command |
| Protocol.LateDeliveryExceeds | crates/agent-sdk/src/guard.rs:51-62 | a run of dispatch, rollback and first delivery after which the guard refuses what the command restricts while the controller answers no to every query |
| Protocol.NamelessCapabilityExceeds | crates/agent-sdk/src/guard.rs:68-73 | a run of dispatch and delivery in which a capability command without a capability is presented as one with the capability "none" and requests for it are refused while the controller answers no |
| Sequence.CrossAppSequenceDetector.EvaluateEvent | crates/correlator/src/sequence.rs:57-180 | the entity's new progress and the alert with the matched events; other entities stay |
| Sequence.CrossAppSequenceDetector.PruneStale | crates/correlator/src/sequence.rs:186-191 | exactly the entities not updated within the window are forgotten, and counted |
| Sequence.TrackRefines | crates/correlator/src/sequence.rs:78-145 | with ordered timestamps stages and apps equal the full log cut to the window, and the alert flag says whether the condition was ever met |
| Sequence.AlertIffFirstAlarm | crates/correlator/src/sequence.rs:135-175 | the alert is raised exactly at the first event that meets the condition, so at most once |
| Sequence.RunTracksLifetimes | crates/correlator/src/sequence.rs:66-76 | each entity is tracked as if it were alone, from the last prune that forgot it |
| Sequence.LateralEntersNewApp | crates/correlator/src/sequence.rs:107-115 | a lateral movement enters an application that is new among the observations in its window, of which there is at least one |
| Sequence.DetectorRefines | crates/correlator/src/sequence.rs:57-191 | in every run the pruned stages and apps of a tracked entity are those of its full log cut to the window |
| Sequence.DetectorAlertsIff | crates/correlator/src/sequence.rs:57-191 | in every run an event alerts if and only if it is the first of its lifetime with three observations and two apps in the window and a high-impact step since tracking began |
| Stages.EventAppends | crates/correlator/src/sequence.rs:78-133 | an event appends an observation of reconnaissance if and only if it failed or was answered 401, 403 or 404; of high impact if and only if it did not and has one of the three capabilities; of lateral movement if and only if it is one of the other successes and enters an application new in a window that is not empty; and nothing in exactly the remaining case |
| Stages.AlarmIsAttack | crates/correlator/src/sequence.rs:135-145 | the alarm condition says of the events themselves: three noted in the window, in two applications, and one of high impact ever |
| Stages.AlertsOnFirstAttack | crates/correlator/src/sequence.rs:57-180 | over every run the alert comes exactly when an entity's events first are an attack, and names the events noted in the window, in order |
| Stages.HighestStageIs | crates/correlator/src/sequence.rs:131-133 | the detector keeps the highest stage an entity has reached since tracking began |
| Incidents.RuleEngine.EvaluateEvent | crates/engine/src/evaluator.rs:57-78 | the six rules in order, each signal processed before the next rule: hot state, risk, ledger, signals returned and notifications sent |
| Incidents.RuleEngine.FindInHistory | crates/engine/src/evaluator.rs:192 | the first incident with the id, or none |
| Incidents.RuleEngine.ProcessSignal | crates/engine/src/evaluator.rs:89-165 | the weight joins the entity's risk; the pending incident of the target takes the signal in both stores, or a new one is opened in both; they keep agreeing, and the incident is sent to subscribers |
| Incidents.RuleEngine.UpdateIncidentStatus | crates/engine/src/evaluator.rs:186-213 | the status changes in both stores, which keep agreeing, and no target leaves the active map; the answer says whether the id is known, and a known incident is sent to subscribers |
| Incidents.AddSignalSummarises | crates/engine/src/incident.rs:71-91 | step by step the incident stays the summary of all it was told: saturated sum of weights, last 50 events, severity by risk band |
| Incidents.ToldIs | crates/engine/src/evaluator.rs:96-150 | a signal joins the latest case of the user, or else the address, or else the application of its event, if that is open or under investigation; otherwise it opens a case; nothing else changes |
| Incidents.StatusSetIs | crates/engine/src/evaluator.rs:186-213 | a status change reaches the first case with the id and nothing else |
| Incidents.SummaryIs | crates/engine/src/incident.rs:71-91 | weight, severity by 25, 50 and 100, signals and the last fifty events of a case, in numbers |
| Incidents.SignalsAreConserved | crates/engine/src/evaluator.rs:89-165 | the history holds as many signals as were ingested |
| Incidents.StepKeepsOnlyLatestPending | crates/engine/src/evaluator.rs:118-206 | that only the latest incident of a target is pending is kept by a call if and only if it does not reopen a superseded one |
| Incidents.OnePendingIff | crates/engine/src/evaluator.rs:118-206 | in a run no target ever has two pending incidents if and only if no call gives a pending status while another incident of the target is pending, or signals a target whose pending incident is not its latest |
| Incidents.ReopeningDoubles | crates/engine/src/evaluator.rs:192-206 | a run of four calls after which a target has two pending incidents |
| Incidents.OnePendingPerTarget | crates/engine/src/evaluator.rs:118-161 | while no superseded incident is reopened a target never has two Open or Investigating incidents |
| Incidents.SeverityDropsIff | crates/engine/src/incident.rs:83-90 | a signal lowers the severity if and only if it is the one that takes an incident opened at a higher severity to 25 or more; later never |
| Incidents.SeverityDrops | crates/engine/src/incident.rs:83-90 | a critical incident of weight 10 becomes medium after a signal of weight 20 |
| HotState.MemoryHotState.RecordHit | crates/engine/src/state/mod.rs:81-103 | old hits leave at the front, the hit joins at the back, and the length is returned; other keys stay |
| HotState.MemoryHotState.CountInWindow | crates/engine/src/state/mod.rs:105-125 | the number of stored hits between the bounds of the window |
| HotState.MemoryHotState.RecordDistinct | crates/engine/src/state/mod.rs:127-145 | expired items leave, the item is kept with its new expiry, and the size is returned |
| HotState.MemoryHotState.CountDistinct | crates/engine/src/state/mod.rs:147-159 | the number of stored items that have not expired |
| HotState.MemoryHotState.GetEntityRisk | crates/engine/src/state/mod.rs:161-176 | the stored score until its expiry, then 0 |
| HotState.MemoryHotState.AddEntityRisk | crates/engine/src/state/mod.rs:178-202 | the score starts again after its expiry and adds up with saturation before it |
| HotState.MemoryHotState.ResetKey | crates/engine/src/state/mod.rs:204-215 | the key leaves all three stores |
| HotState.WindowIsSuffix | crates/engine/src/state/mod.rs:91-101 | over every run the deque of a key is the list of all its hits without those before the last window, for windows that are not negative |
| HotState.WindowIsDeque | crates/engine/src/state/mod.rs:91-101 | for every window, also a negative one, the deque is the last hit behind the earlier ones that the last window keeps |
| HotState.LastCountIsExact | crates/engine/src/state/mod.rs:81-103 | for every window, also a negative one, the count returned for a hit is itself and the number of all earlier hits ever recorded in its window, also at the saturating bounds |
| HotState.HitCountIsExact | crates/engine/src/state/mod.rs:81-103 | for a window that is not negative the count returned for a hit at t is the number of all hits ever recorded in [t - window, t] |
| HotState.QueryCountIsExact | crates/engine/src/state/mod.rs:105-125 | a later query counts all hits ever recorded in its window |
| HotState.DistinctCountIsExact | crates/engine/src/state/mod.rs:127-159 | both counts are the number of items recorded less than their time to live ago; a record also counts its own item |
| HotState.RunDistinctCount | crates/engine/src/state/mod.rs:127-159 | the same in every run over many keys with resets |
| HotState.RiskIsSumSinceGap | crates/engine/src/state/mod.rs:195-200 | the risk is the saturated sum of the points since the last pause of at least the time to live |
| HotState.RunRiskReading | crates/engine/src/state/mod.rs:161-202 | in every run over many entities with resets a reading is that sum, and 0 exactly from the end of the last time to live |
| Rules.Evaluate | crates/engine/src/rules/mod.rs:62-545 | each of the six rules, with any 64-bit window, negative ones included, and any thresholds: what it records in the hot state and which signal it raises |
| Rules.FiresKept | crates/engine/src/rules/mod.rs:83-87 | what one rule records does not change whether another signals |
| Rules.HitsAreTimes | crates/engine/src/rules/mod.rs:83-87 | the hits under a rule's key are the rule's own events from that source |
| Rules.PathsAreRecords | crates/engine/src/rules/mod.rs:172-180 | the routes under a source's key are those it failed to find |
| Rules.WindowCounts | crates/engine/src/rules/mod.rs:243-263 | the count a rule compares is 1 and the number of its earlier events from that source in its window, since its key was last reset |
| Rules.FiresIff | crates/engine/src/rules/mod.rs:62-373 | for every window and threshold a rule fires if and only if its event brings the count of its events from that source in the window to the threshold, or for enumeration the distinct routes; only the rule's own events from that source have to be in order |
| Rules.DefaultFiresIff | crates/engine/src/rules/mod.rs:31-38 | the same with the default fields: 10, 20 or 25 distinct, 15 and 25 in a minute |
| Rules.PathsTtlIs | crates/engine/src/rules/mod.rs:179 | routes are remembered for the whole seconds of the window, cut off towards zero for a negative window too |
| Conditions.AppliesIff | crates/engine/src/rules/mod.rs:67-510 | which events each of the six rules looks at, by their action, status, endpoint, sensor, type and role |
| Conditions.CountIs | crates/engine/src/rules/mod.rs:83-87 | what a rule counts are exactly the events of the source that it looks at, in the window and since the key was last reset |
| Conditions.MissedIs | crates/engine/src/rules/mod.rs:172-180 | what the enumeration rule remembers are exactly the routes the source has missed in the last minute since the key was last reset |
| Conditions.RaisesOn | crates/engine/src/evaluator.rs:57-78 | in every history the engine raises a rule's signal if and only if the events so far meet the rule's condition in numbers |
| Conditions.SignalsAre | crates/engine/src/evaluator.rs:57-78 | an event is answered with exactly the signals whose conditions it meets, in order, with their names, severities, weights and the event's id |
| Engine.StoresAreThoseOfRules | crates/engine/src/evaluator.rs:57-87 | in every history of events, ingested signals, status changes and resets the windows and routes are those of the rules alone |
| Engine.RaisesIff | crates/engine/src/evaluator.rs:57-78 | in every such history the engine raises a rule's signal if and only if the whole history so far satisfies the rule's condition; only the rule's events from that source have to be in order |
| Engine.LedgerHoldsAllAlarms | crates/engine/src/evaluator.rs:57-206 | over any interleaving of events, ingested signals, status changes and resets the incidents together hold exactly as many signals as rule conditions were satisfied and signals ingested |
| Engine.EntityRiskReading | crates/engine/src/evaluator.rs:109-113 | the risk of an entity reads as the saturated sum of the weights of its signals, raised or ingested, since the last hour without one or reset, and as 0 an hour after the last |
| Graph.MemoryContextGraph.EnsureNode | crates/correlator/src/graph.rs:67-87 | a known node counts one more hit and its last time never falls; an unknown one is added |
| Graph.MemoryContextGraph.RecordEdge | crates/correlator/src/graph.rs:89-119 | the same for an edge, with its weight |
| Graph.MemoryContextGraph.RecordEvent | crates/correlator/src/graph.rs:121-248 | all nodes and edges an event touches, in order |
| Graph.MemoryContextGraph.RecordCapabilities | crates/correlator/src/graph.rs:218-234 | a node and an edge for each capability, in order |
| Graph.MemoryContextGraph.GetSubgraph | crates/correlator/src/graph.rs:251-273 | exactly the edges at the entity, and the live nodes at their ends |
| Graph.MemoryContextGraph.PruneExpired | crates/correlator/src/graph.rs:284-293 | nodes and edges before the cutoff go, and edges that lose an end; the removed nodes are counted |
| Traces.EdgeIff | crates/correlator/src/graph.rs:121-248 | which edges an event records, by its type, application, endpoint, status, resource, capabilities and address |
| Traces.NodeIff | crates/correlator/src/graph.rs:121-248 | which nodes it records, with category and caption |
| Traces.EdgesOnce | crates/correlator/src/graph.rs:121-248 | it records at most one edge of each relation, and one EXERCISES edge for each capability |
| Traces.NodesFollow | crates/correlator/src/graph.rs:67-87 | hit count, first and last time of each node after any touches; untouched nodes stay |
| Traces.EdgesFollow | crates/correlator/src/graph.rs:89-119 | count, weight, first and last time of each edge after any touches; untouched edges stay |
| Traces.NewEdgeIs | crates/correlator/src/graph.rs:104-118 | a new edge has the ends and the relation of the first touch under its id |
| Traces.WordsAre | crates/correlator/src/graph.rs:97 | the words for relations and capabilities, and the weights |
| EdgeIds.EdgeIdInjective | crates/correlator/src/graph.rs:97 | edge ids tell apart all edges that events record, if entities do not look like applications and the sources are plain: no entity continues like an edge, no application continues what another exposes |
| EdgeIds.PlainIff | crates/correlator/src/graph.rs:97 | for every source and relation the edges share no id with recordable edges of a shorter source if and only if the source is plain |
| GraphTheorems.RunIsTied | crates/correlator/src/graph.rs:121-293 | in every run, whatever the names and the order of events, no edge dangles |
| GraphTheorems.SubgraphsAreClosed | crates/correlator/src/graph.rs:251-273 | every subgraph contains both ends of each of its edges |
| GraphTheorems.RunIsSound | crates/correlator/src/graph.rs:67-248 | in every run in which no two recorded edges share an id, whatever the names, no edge is younger than its ends, even with events out of order, and its weight is its count times the constant of its relation |
| GraphTheorems.PruneIsExact | crates/correlator/src/graph.rs:284-293 | in every such run pruning keeps exactly the edges not older than the cutoff |
| GraphTheorems.PlainNamesKeepApart | crates/correlator/src/graph.rs:97-248 | no two edges of a run share an id if the entities do not look like applications and the names of entities and exposing applications are plain |
| Collisions.CanRecordIff | crates/correlator/src/graph.rs:121-248 | an edge has the shape that the theorems on edge ids quantify over if and only if some event records it |
| Collisions.CollisionIsInexact | crates/correlator/src/graph.rs:97-103 | two events of which the second records an edge under the id of an edge of the first: pruning drops the recent edge |
| Lookalikes.LookalikeCollides | crates/correlator/src/graph.rs:97-103 | for every entity name that begins with "app:" there are two such events whose other names are plain |
| Pruning.PruningIsExactIff | crates/correlator/src/graph.rs:284-293 | for every set of entity names and every set of application names: pruning is exact in all runs with these and otherwise plain names if and only if all of them are plain and no entity looks like an application |
| Pruning.OddEntityBreaks | crates/correlator/src/graph.rs:97-103 | every entity name that is not plain or looks like an application has a run of two events in which pruning drops a recent edge |
| Pruning.OddAppBreaks | crates/correlator/src/graph.rs:97-103 | and so has every application name that is not plain |
| Pruning.OddCanonicalId | crates/correlator/src/graph.rs:284-293 | a canonical id that continues like a call of another makes pruning inexact |
| Pruning.OddAppName | crates/correlator/src/graph.rs:284-293 | the name of an application that continues what another one exposes makes pruning inexact |
| GraphTheorems.TouchesAccount | crates/correlator/src/graph.rs:67-119 | touching nodes and edges that share no ids adds to hits and visit counts exactly what is touched |
| GraphTheorems.EventCounts | crates/correlator/src/graph.rs:121-248 | an event makes one visit for its entity and hits the entity once |
| GraphTheorems.VisitsAccountForHits | crates/correlator/src/graph.rs:121-293 | if no two edges of the run share an id, an entity's ACCESSES and AUTHENTICATES_ON counts sum to at most its hits, and to exactly its hits while nothing is pruned |
| Lineage.StepEntities | crates/correlator/src/identity.rs:128-232 | one event makes the id it resolves to live and the other ids it matches disappear; all others stay |
| Lineage.AbsorbedIsForever | crates/correlator/src/identity.rs:128-232 | an absorbed id never lives again and no later event resolves to it |
| Lineage.BookedIffAlive | crates/correlator/src/identity.rs:128-232 | of the events of a living entity exactly those were resolved to its id whose id has not been absorbed |
| Lineage.OneEntityIffConnected | crates/correlator/src/identity.rs:142-201 | two events with aliases belong to one entity if and only if a chain of shared aliases connects them |
| Profiles.FactsAreTold | crates/correlator/src/identity.rs:55-72 | in every history an application, capability, process, address, user, session or container is on a living entity if and only if some event of its component told it; without an identifier an event tells only its application and its capabilities |
| Profiles.CountIsEvents | crates/correlator/src/identity.rs:128-235 | the event count of a living entity is the number of events of its component |
| Profiles.NameIs | crates/correlator/src/identity.rs:203-219 | a known entity takes the type User and the name of the first user that an event names besides an identifier, and keeps both; nothing else, not even a merge, changes its type or name |
| Profiles.OthersStay | crates/correlator/src/identity.rs:128-235 | an event changes no other entity that outlives it |
| Profiles.TimesAre | crates/correlator/src/identity.rs:65-70 | an entity was first seen at the earliest event that founded a part of it, and last at the latest of its events, or when a founding event was processed if that was later |
| Profiles.AppTimesAre | crates/correlator/src/identity.rs:130-139 | an application's entity was first seen when its first event was processed and last at the event that came last, be it the latest or not |
| Correlation.CorrelationEngine.constructor | crates/correlator/src/lib.rs:31-37 | a new engine is empty, with an hour for the graph and ten minutes for the detector |
| Correlation.CorrelationEngine.ProcessEvent | crates/correlator/src/lib.rs:45-86 | resolution, inferred capabilities, graph and detector in order: the three states afterwards, the id and the alert |
| Correlation.InferredIff | crates/correlator/src/capability.rs:35-109 | which capabilities an event is taken to exercise, each once and in which order |
| Correlation.ViewsAre | crates/correlator/src/lib.rs:45-80 | which parts of an event the resolver, the graph and the detector are given, and that all three get the capabilities it shows |
| Correlation.RunIsComponents | crates/correlator/src/lib.rs:45-86 | over every history the engine is its three components, each fed with the ids that the resolver gave at the time |
| Correlation.TrackedIsSurviving | crates/correlator/src/lib.rs:45-86 | what the detector has seen of a living entity are exactly its events that were not booked on an id absorbed since |
| Correlation.AlertIff | crates/correlator/src/lib.rs:45-86 | an event raises the alert if and only if it is the first at which the events of its entity that were not booked on an id absorbed since are an attack |
| Correlation.EntityAlertIff | crates/correlator/src/lib.rs:45-86 | for an entity of which no event was booked on an absorbed id, the alert comes exactly when all its events first are an attack |
| SplitAlert.AttackGoesUnnoticed | crates/correlator/src/lib.rs:77-80 | three events of one entity that together are an attack, of which none raises the alert |
| Correlation.EnginePruneIsExact | crates/correlator/src/graph.rs:284-293 | behind the resolver pruning is exact as long as no canonical id and no exposing application has a mark in its name |
| Policy.CapabilityPolicyEngine.AddBundle | crates/engine/src/policy/mod.rs:87-90 | the bundle is filed under its id, replacing an earlier one |
| Policy.CapabilityPolicyEngine.RemoveBundle | crates/engine/src/policy/mod.rs:93-96 | the bundle is gone, and the answer says whether it was there |
| Policy.CapabilityPolicyEngine.FindMatch | crates/engine/src/policy/mod.rs:149-150 | the first matching rule of a list, if there is one |
| Policy.CapabilityPolicyEngine.Evaluate | crates/engine/src/policy/mod.rs:112-231 | allowed if and only if no applicable deny rule matches and an allow rule matches or the first bundle defaults to allow; the named bundle and rule are the first that explain it |
| Policy.OutcomeIsOrderFreeIff | crates/engine/src/policy/mod.rs:199-200 | the outcome is the same for every order of the hash map if and only if some rule matches or all applicable bundles have one default |
| Policy.PermittedIff | crates/engine/src/policy/mod.rs:112-231 | a query is permitted if and only if no rule of a bundle for its application or for all denies its capability, or all, on a scope that matches its resource, and one allows it or the first such bundle defaults to allow |
| Policy.OtherCapabilitiesDoNotMatter | crates/common/src/policy.rs:77-79 | rules about other capabilities, added or removed anywhere, change no outcome |
| Policy.UnnamedIsDenied | crates/engine/src/policy/mod.rs:172-231 | without a rule that allows the capability or all, and without a default to allow, the query is denied |
| Policy.DecisionAccounts | crates/engine/src/policy/mod.rs:112-231 | a decision with a rule names the first rule that hits in the first bundle for the application with one, and its policy; one without is made where no rule hits, under the first such bundle, or under "none" without any |
| Policy.DenyRuleOnlyDenies | crates/engine/src/policy/mod.rs:146-170 | a further deny rule takes away exactly the permissions it matches |
| Policy.DeepGlobMeaning | crates/common/src/policy.rs:95-98 | "P/**" matches exactly what starts with P |
| Policy.GlobMeaning | crates/common/src/policy.rs:99-105 | "P/*" matches P and one path segment after any number of slashes; only a P beginning with "*." matches anything else |
| Policy.PlainMeaning | crates/common/src/policy.rs:87-113 | "*" matches everything, "*.S" what ends in ".S", other patterns only themselves |
| Policy.WideningIsMonotoneIff | crates/common/src/policy.rs:94-105 | widening "P/*" to "P/**" keeps all matches if and only if P does not begin with "*." |
| Policy.WideningNeverPermits | crates/engine/src/policy/mod.rs:146-170 | so widening such a deny scope never turns a denial into a permission |
| Advisory.AdvisoryManager.constructor | crates/engine/src/advisory/gate.rs:22-32 | the minimum confidence is the given one if it lies in [0.1, 1.0], and otherwise the nearer bound |
| Advisory.AdvisoryManager.Validate | crates/engine/src/advisory/gate.rs:44-194 | a command is dispatched if and only if the confidence suffices and policy permits; it has the recommendation's action, target, capability, parameters and incident, and lives for the suggested time or five minutes |
| Advisory.AdvisoryManager.ValidateAndEnact | crates/engine/src/advisory/mod.rs:98-106 | recommendation and outcome are appended to the history |
| Advisory.PassesIff | crates/engine/src/advisory/gate.rs:51-131 | a recommendation passes if and only if it is confident enough and policy permits the capability it names, or that of its action, on the resource among its parameters, or on its target |
| Advisory.NamedPolicyAccounts | crates/engine/src/advisory/gate.rs:51-131 | a validation names "safety-confidence-gate" when confidence is too low, and otherwise the policy that accounts for its outcome |
| Advisory.LedgerMatchesHistory | crates/engine/src/advisory/mod.rs:98-106 | when only the gate dispatches, the ledger's ids are exactly the ids of authorised entries, all distinct |
| Advisory.CommandsPassedTheGate | crates/engine/src/advisory/gate.rs:51-193 | every command in the ledger, field by field, carries out a recommendation that passed under the policies of its moment, and is signed for that |
| Queue.Agent.RecordEventNonBlocking | crates/agent-sdk/src/lib.rs:131-133 | the event is queued, handed over, or dropped and counted |
| Queue.Agent.ReceiveWithTimeout | crates/agent-sdk/src/lib.rs:156-174 | an event starts a batch, a time-out leads to a post of what there is, the end to the parting post |
| Queue.Agent.FillOnce | crates/agent-sdk/src/lib.rs:159-164 | another event joins the batch until it is full or the queue empty |
| Queue.Agent.PostBatch | crates/agent-sdk/src/lib.rs:177-189 | the batch is posted once, whatever the answer, and cleared |
| Queue.RunIsSound | crates/agent-sdk/src/lib.rs:141-191 | in every interleaving the accepted events are, in order, the posted ones, the batch and the queue, within their bounds; and the dropped ones are the refused |
| Queue.EveryEventIsSomewhere | crates/agent-sdk/src/lib.rs:131-191 | each recorded event is in exactly one of dropped, queued, batch or posted |
| Queue.WorkerLeavesNothing | crates/agent-sdk/src/lib.rs:141-191 | when the worker has gone every accepted event was posted exactly once, in order of acceptance |
| Queue.BatchesFill | crates/agent-sdk/src/lib.rs:156-189 | in every interleaving a batch is posted only when it is full or the queue was found empty while it was being filled |
| Queue.FillingIs | crates/agent-sdk/src/lib.rs:159-164 | a turn of the inner loop takes the next event and goes on, or ends the filling with a full batch or an empty queue |
| Queue.PartingPostIsIdle | crates/agent-sdk/src/lib.rs:169-174 | the worker's batch is empty whenever it waits, so its parting post sends nothing |
| Queue.DroppedIffFull | crates/agent-sdk/src/lib.rs:131-133 | in every run an event is dropped if and only if the queue is full and the worker does not take it by hand from a queue without capacity; a dropped event changes nothing else, any other joins the end of what is held |
| Queue.WaitingIs | crates/agent-sdk/src/lib.rs:149-174 | each step of the worker has its place; waiting, it takes the first event if there is one, and otherwise waits on or, once the sending end is closed, leaves |

## Left out

- HTTP and WebSocket interfaces, metrics, start-up and tracing: input and output around the modelled state.
- `RedisHotState`, the advisory worker and its HTTP call, control plane modes A and B: remote systems, or a flag without effect on the modelled calls.
- eBPF programs, sensor adapters, event validation and persistence filters: foreign code or field mapping.
- Capability inference is a function of the event; detector, graph and resolver are proved for every list of capabilities.
- Interleavings inside `process_event`, which takes its four locks one after the other: the engine processes one event after the other.
- Ed25519: signing is a function and verification a relation; that signatures cannot be forged is a condition of the protocol theorems.
- RFC 3339 and UUID printing: functions that are assumed injective and free of line breaks. Text is not encoded to bytes.
- The instant printed is the instant compared; sub-nanosecond fractions and time zones do not exist in the model.
- Subscribers receive what is sent in the order of the calls; the capacity of the broadcast channel and slow subscribers are left out. The time and the wording of signals are left out.
- Other lists of rules than the default six: their windows and thresholds are free, their order is not.
- Titles, descriptions and rationales of incidents, signals, decisions and validations.
- The baseline bundle of `with_default_policies`: constants only.
- Arithmetic beyond 64 bits in expiry times and counters. Risk scores and window bounds saturate as in the code.
- Floating point: edge weights are counted in half units, confidence is a real number; NaN does not occur.
- Entities, nodes, edges and incidents are owned by the maps that hold them, so they are values, and an update in place replaces the value in the map.
- The controller's queries `is_session_revoked`, `is_ip_blocked` and `is_capability_revoked` are one method, since they are one loop with three conditions.
- A call that reads the clock several times reads it once in the model, except for the two readings in `update_incident_status`.
- The agent's channel: its hand-over of an event from a producer to the waiting worker, which only a channel of capacity 0 needs, is a flag of the producer's step.
- Python and Node emitters, which repeat the queue, and the frontend.
- Sequence.DetectorAlertsIff: needs the timestamps of one entity to be in order and a window that is not negative; with events out of order the pruned window may have lost observations that the log still holds.
- HotState.HitCountIsExact: needs hits in order of time and one window per key, which is not negative, like HotState.QueryCountIsExact; the rules use one window, and HotState.LastCountIsExact covers negative ones.
- GraphTheorems.PruneIsExact: needs that no two edges of the run share an id; Pruning.PruningIsExactIff says for which names this is so.
- Advisory.AdvisoryManager.ValidateAndEnact: is one step, where the source takes three locks one after the other, for policies, ledger and history; a policy change or a rollback between them, and a command that is dispatched but not yet in the history, are not captured.
- Engine.RaisesIff: needs the events that the rule counts for the source to be in order of their time, and for enumeration of the clock, like Rules.FiresIff; nothing is asked of other rules and sources.
- Correlation.AlertIff: needs the timestamps of the entity's events to be in order, like Sequence.DetectorAlertsIff.
- Protocol.GuardNeverExceeds: needs a nondecreasing clock, fresh command ids, signatures that cannot be forged, dispatched commands without line breaks and with a capability to revoke, each rollback mirrored on the guard in the same step, and no rolled-back command that takes effect on the guard for the first time. Of commands that the guard rejects, or that have expired, nothing is asked. Commands.BrokenRecipeIsAmbiguous, Protocol.NamelessCapabilityExceeds and Protocol.LateDeliveryExceeds show why.
