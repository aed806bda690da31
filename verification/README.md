# Verification of the access-point server: event log, recovery, rooms and battles

The access-point server of *fenghuo* keeps two kinds of state: rooms, where players gather, choose teams and bind
devices, and battles, where they score hits. Both are event-sourced. A client submits an envelope; the runtime looks
for duplicates, checks the sequence of the source, applies the event to a copy of the state, appends the envelope to
the log file of its room or battle, and only then commits and publishes. A new process rebuilds everything by reading
all log files, sorting the records by acceptance number, and replaying them.

This project models that design and proves what it is for: no accepted event is lost or counted twice, whether the disk
fails, the process restarts, or it dies between append and commit, and the states that it keeps obey the rules of the
game.

## Structure

| file | content |
|---|---|
| `Basics`, `Ordering`, `Sums` | results and error codes, 32-bit integers; string order and the key order of maps; sums over keys |
| `Wire` | JSON trees, field readers, envelopes, log records, and their round trips |
| `Battle`, `BattleProtocol`, `BattleTheorems` | the battle rules, updated in place and specified by `Battle.Apply`; decoding; what holds over every run of a battle |
| `Room`, `RoomProtocol`, `RoomTheorems` | the same three parts for rooms |
| `History`, `BattleHistory`, `RoomHistory`, `RoomVerdict` | battles and rooms as their histories tell them: what each part of the state is, which event is accepted next, and why the others are refused |
| `HitOrder` | the order of hits does not matter, over whole runs |
| `Decoding`, `DecodingErrors` | exactly which envelopes decode, to which event, and with which error the others are refused |
| `EventSourcing`, `EventLog`, `Recovery`, `Replies`, `Crashes` | the protocol of both runtimes as one state machine over any domain, the sharded log, the recovery theorems, what every submission is answered, and processes that die in the middle of a submission |
| `Store`, `ApRuntime`, `RoomRuntime` | the store and the two runtimes as classes, proved against that state machine |
| `Batch`, `Bootstrap`, `BootstrapTheorems`, `Traffic`, `StartCommand` | starting the battle of a room: the server's loop, when it succeeds, what it makes, how it can be resumed, and the command that calls it once |
| `Startup` | every open room can be started, by submissions that the room runtime accepts |
| `Notify`, `Mirror` | player status, which players are told about a room event, and a client that follows what is published |
| `Worlds` | the domain results in every state that a runtime can reach; recovery of both runtimes |

The handlers of the source change a battle or a room in place. They are methods of `Battle.BattleMachine` and
`Room.RoomMachine`, and their contracts fix the whole new state by a function on values (`Apply`); the theorems are
about that function. What an event does and when it is refused is fixed a second time, without that function, by the
history of accepted events: by the last event that wrote each part, by sums over the run, and by a table of refusals
(`BattleHistory`, `RoomHistory`, `RoomVerdict`). In the same way `ApRuntime.Runtime` and `RoomRuntime.Runtime` are proved to do exactly one step of
`EventSourcing.Submit`, and every theorem about `EventSourcing.Run` speaks about them. A world in `EventSourcing` holds
the live state, the log files, and two ghosts: the global order of acceptance, and everything published so far.

## Where the code falls short of its purpose

* **Recovery needs well-formed envelopes.** Submission does not check what reading back checks: the schema version, and
  that the ids are not empty. Envelopes that arrive as JSON text were parsed and are well formed
  (`Wire.ParsedEnvelopeIsStorable`), but the server builds room envelopes itself and takes an empty `source_id` from a
  request as it is. Such an event is accepted, and then the restart fails (`Worlds.RestartCanFail`). In the model, where
  every subject has a file of its own, a restart succeeds exactly when every logged envelope is well formed
  (`Recovery.RunSound`, `Recovery.RestartRecovers`), so the theorems about runs ask for well-formed submissions.
* **Ids become file names unchecked.** This is outside the model, which has no paths. In the code recovery also needs
  every id to be a plain file name: the room id `../b` is well formed and accepted
  (src/server/server.cpp:953-966), its line goes to `b.jsonl` beside the battle logs
  (src/storage/jsonl_event_store.cpp:239), and the battle store then fails on a line without `battle_id`.
* **Nobody is told of an event whose process died before the commit.** The event is durable, but neither the next process
  nor the answer to a re-send publishes it (`Crashes.CrashedEventStays`).
* **A stopped battle setup is not resumed.** The setup of a battle can be called again and then finishes as if it had
  never stopped (`BootstrapTheorems.StartResumes`, `Traffic.StartResumesAmidTraffic`), but nothing in the server does so:
  it is called only when the start of a room is accepted (src/server/server.cpp:1088-1095 and 1278-1281), not for a
  duplicate and not at boot, and no later start of the room is accepted (`StartCommand.StartedOnce`). After a disk
  failure in the setup the room stays active without its battle. So does every room that is started after a setup that
  succeeded, since its own setup is then refused as stale (`Traffic.NextRoomRefused`).
* **An unbind is not announced to the player who loses the device.** The payload names the device only, and the device
  names nobody any more (`Notify.SilentUnbind`). `Notify.MissedExactly` shows that nothing else is ever missed.

The documentation and the code differ in two points, and the model follows the code. The event-loop document
(apps/rfd/0002-ap-v0-event-loop.md:158) allows a "not found" answer for an event of an unknown battle; the code applies
the event to an empty battle, so a join or a start creates the battle and any other event is a conflict. The same
document (lines 159-161) compares duplicates byte by byte; the code compares the canonical JSON of the envelopes.

## Model

| member | source | states |
|---|---|---|
| `Recovery.RunRecovers` | src/ap_runtime/runtime.cpp:24-97 | Recovery: a run of well-formed submissions, accepted, duplicate, rejected or failed on the disk, with restarts anywhere, never fails, and a restart at its end gives exactly the same live state, log and publications. |
| `Recovery.RestartRecovers` | src/ap_runtime/runtime.cpp:24-43 | In any sound world reading back and replaying succeeds if and only if every logged envelope is well formed, and then rebuilds states, duplicate table, sequence table and acceptance counter exactly. |
| `Recovery.RunSound` | src/ap_runtime/runtime.cpp:24-97 | Every run of any submissions that has not failed keeps the invariant, and it can be restarted next if and only if every logged envelope is well formed. |
| `Recovery.RestartsInvisible` | src/room_runtime/runtime.cpp:24-98 | A run with restarts anywhere gives the same replies, state, log and publications as the run with the restarts left out. |
| `Recovery.ExactlyOnce` | src/ap_runtime/runtime.cpp:48-90 | Re-sends of accepted events, failed writes and restarts, inserted anywhere and any number of times, leave the state, the files, the order and numbers of records and the publications as in the clean run, and all other operations get the replies of the clean run. |
| `Crashes.CrashesAreSubmissions` | src/ap_runtime/runtime.cpp:82-94 | A run in which processes also die between append and commit never fails and ends with the live state, files and log of the run in which those submissions came to their end; what was published is the same without the records of dying processes. |
| `Crashes.CrashedEventStays` | src/room_runtime/runtime.cpp:83-95 | An event whose process died after the append is in the log and state of the next process, was not published, and its re-send is answered as a duplicate and changes nothing. |
| `Recovery.SequenceDiscipline` | src/ap_runtime/runtime.cpp:37-39 | Over all runs, of well-formed submissions or not, acceptance numbers are 1 to n, event ids in the log are distinct, each source's sequences increase, and the sequence table holds the last, which is the greatest, of each source. |
| `Recovery.SubmitSound` | src/ap_runtime/runtime.cpp:45-97 | Whatever its outcome, a submission keeps the invariant: the live state is the replay of the log, each file holds the records of its subject, the tables are those of the log, the publications are those of the log; the log grows by nothing but the submitted envelope. |
| `Replies.EveryReply` | src/ap_runtime/runtime.cpp:45-97 | Over every run the log decides each reply: a logged event is a duplicate; a known id with other content, or a passed sequence, is a conflict; what cannot follow the subject's own records is refused with the very error of the rules; a failing disk is a storage failure; all else is accepted, logged with the next number and published. Unless accepted, the reply shows the current state and nothing changes. |
| `Recovery.DurableBeforeVisible` | src/ap_runtime/runtime.cpp:82-94 | Over every run, with restarts: what was published is the log, record by record in its order, each with the state that replaying the log up to that record gives its subject. |
| `Recovery.Projection` | src/ap_runtime/runtime.cpp:31-40 | A log replays if and only if the records of each subject do on their own, and each state is the fold of the subject's own records. |
| `Recovery.InterleavingsAgree` | src/ap_runtime/runtime.cpp:99-117 | Any interleaving of a log that keeps the order within each subject replays too, to the same states and the same duplicate table. |
| `EventLog.ShardedLogMerge` | src/storage/jsonl_event_store.cpp:187-224 | Whatever the order of the files and whatever sorted permutation the sort picks, merging the files of a numbered log gives exactly the order of acceptance. |
| `EventLog.ReadBack` | src/storage/jsonl_event_store.cpp:175-225 | Reading back the files of a numbered log succeeds if and only if every record is readable, and then gives the log. |
| `EventLog.AppendKeepsShards` | src/storage/jsonl_event_store.cpp:149-165 | Appending a record to the file of its subject keeps the files those of the log: each holds exactly its subject's records, in order. |
| `EventLog.SortedPermutationUnique` | src/storage/jsonl_event_store.cpp:221-223 | A log with consecutive numbers is the only sorted permutation of its records. |
| `EventSourcing.SortByAcceptance` | src/storage/jsonl_event_store.cpp:221-223 | The result is sorted by acceptance number and holds the same records as often. |
| `Wire.EnvelopeRoundTrip` | src/protocol/event.cpp:272-377 | The stored form of an envelope parses if and only if the envelope is well formed and decodes, and then parses to the same envelope. |
| `Wire.ParsedEnvelopeIsStorable` | src/room/protocol.cpp:408-471 | What parsing accepts is well formed, decodes, and can be stored and read again. |
| `Wire.ParsedExactly` | src/protocol/event.cpp:272-335 | A tree parses to e if and only if it carries each field of e under its literal key, in version 0, with ids that are not empty and an object as payload, and e decodes. |
| `Wire.RecordRoundTrip` | src/storage/jsonl_event_store.cpp:28-79 | A written log line parses if and only if its envelope does, and then to the same record with its times and number. |
| `Wire.RecordParsedExactly` | src/storage/jsonl_event_store.cpp:28-79 | A line reads as r if and only if it carries the envelope, both times and the number of r, and the envelope decodes. |
| `Wire.Round` | src/protocol/event.cpp:46-59 | The nearest integer, halves away from zero. |
| `Basics.Wrap32` | src/protocol/event.cpp:36-44 | Narrowing keeps the value modulo 2^32 and leaves 32-bit values alone. |
| `Store.JsonlEventStore.Append` | src/storage/jsonl_event_store.cpp:140-173 | For a disk that writes whole lines or nothing: either one line is added at the end of the subject's file and no other file changes, or nothing changes and a storage failure is returned. |
| `Store.JsonlEventStore.ReadFile` | src/storage/jsonl_event_store.cpp:206-218 | Reading one file after others gives the records of all lines so far, or the error of the first bad line. |
| `Store.JsonlEventStore.ReadAll` | src/storage/jsonl_event_store.cpp:175-225 | The loops over files and lines and the sort compute `ReadAll`, the specification that the log theorems are about. |
| `ApRuntime.Runtime.ApplyEnvelope` | src/ap_runtime/runtime.cpp:99-117 | The outcome of applying the event to a copy; no battle changes, whether the event is refused or not. |
| `ApRuntime.Runtime.ReplayRecords` | src/ap_runtime/runtime.cpp:24-43 | The loop leaves the state of `Replay`, also when it stops at a record that does not apply. |
| `ApRuntime.Runtime.Examine` | src/ap_runtime/runtime.cpp:48-73 | Duplicate and conflict before stale before the rules, without any change. |
| `ApRuntime.Runtime.Commit` | src/ap_runtime/runtime.cpp:87-90 | All four fields take in the record; the ghost log and history grow by it. |
| `ApRuntime.Runtime.SubmitEvent` | src/ap_runtime/runtime.cpp:45-97 | One step of `Submit` on state, disk, log and publications, with its reply; publishes if and only if the event is accepted; keeps the world sound. |
| `ApRuntime.Boot` | apps/apd/main.cpp:83-93 | A new process on an old store comes up if and only if every logged envelope is well formed, and is then in the world where the old one stopped. |
| `RoomRuntime.Runtime.ApplyEnvelope` | src/room_runtime/runtime.cpp:100-114 | The outcome of applying the event to a copy; no room changes. |
| `RoomRuntime.Runtime.ReplayRecords` | src/room_runtime/runtime.cpp:24-43 | The loop leaves the state of `Replay`, also when it stops early. |
| `RoomRuntime.Runtime.Examine` | src/room_runtime/runtime.cpp:48-74 | Duplicate and conflict before stale before the rules, without any change. |
| `RoomRuntime.Runtime.Commit` | src/room_runtime/runtime.cpp:88-91 | All four fields take in the record; the ghost log and history grow by it. |
| `RoomRuntime.Runtime.SubmitEvent` | src/room_runtime/runtime.cpp:45-98 | One step of `Submit` on state, disk, log and publications, with its reply; publishes if and only if the event is accepted; keeps the world sound. |
| `RoomRuntime.Boot` | apps/apd/main.cpp:94-104 | A new process on an old store comes up if and only if every logged envelope is well formed, and is then in the world where the old one stopped. |
| `Worlds.BothRecover` | apps/apd/main.cpp:83-104 | Recovery and invisible restarts for the battle and the room runtime as they are. |
| `Worlds.BattleParsed` | src/protocol/event.cpp:304-332 | The battle runtime reads e from a tree if and only if the tree carries e with its `battle_id` and e carries some battle event. |
| `Worlds.RoomParsed` | src/room/protocol.cpp:440-468 | The room runtime reads e from a tree if and only if the tree carries e with its `room_id` and e carries some room event. |
| `Worlds.RestartCanFail` | src/server/server.cpp:947-966 | A room creation from a request with an empty source id and an empty room code, as the server builds it, is accepted, and the restart after it fails. |
| `Worlds.BattlesReached` | src/ap_runtime/runtime.cpp:88 | Every battle in every world of every run of any submissions, restarts included, is the outcome of accepting the decoded events of its own log records one by one, all of which name it, and satisfies the battle invariant. |
| `Worlds.RoomsReached` | src/room_runtime/runtime.cpp:89 | Every room in every world of every run of any submissions bears its id, is the outcome of accepting the decoded events of its own log records one by one, and satisfies the room invariant. |
| `Battle.BattleMachine.CheckBattle` | src/core/battle.cpp:14-26 | Names an empty battle and refuses an event of another one. |
| `Battle.BattleMachine.ApplyPlayerJoined` | src/core/battle.cpp:32-49 | In the lobby a new player enters with 100 health, alive, without ammunition or counts, and a new team with score 0; otherwise a conflict that at most names the battle. |
| `Battle.BattleMachine.ApplyBattleStarted` | src/core/battle.cpp:51-64 | From the lobby the battle becomes active with mode and start time; otherwise a conflict that at most names the battle. |
| `Battle.BattleMachine.ApplyShot` | src/core/battle.cpp:74-91 | In an active battle a known player counts one more shot and has the reported ammunition; otherwise a conflict. |
| `Battle.BattleMachine.ApplyHit` | src/core/battle.cpp:93-117 | In an active battle the target loses health down to 0 and lives on exactly with health left, then attacker and team count one more hit, also when a player hits itself; otherwise a conflict. |
| `Battle.BattleMachine.ApplyPlayerState` | src/core/battle.cpp:119-137 | In an active battle a known player takes the reported health and ammunition and is alive only with health; otherwise a conflict. |
| `Battle.BattleMachine.ApplyBattleEnded` | src/core/battle.cpp:139-152 | An active or paused battle ends at the time of the event; otherwise a conflict. |
| `Battle.BattleMachine.ApplyBattlePaused` | src/core/battle.cpp:154-164 | An active battle pauses; otherwise a conflict. |
| `Battle.BattleMachine.ApplyBattleResumed` | src/core/battle.cpp:166-176 | A paused battle becomes active; otherwise a conflict. |
| `Battle.BattleMachine.ApplyEvent` | src/core/battle.cpp:201-208 | Each event reaches its handler; the outcome is `Apply`. |
| `BattleTheorems.ReachableInvariant` | src/core/battle.cpp:32-176 | In every reachable battle the teams are those of the players, each score is the sum of its players' hit counts, health is never negative, alive implies positive health, and the timestamps are set exactly when the phase says so. |
| `BattleHistory.BattleIsHistory` | src/core/battle.cpp:14-176 | Every reachable battle is what its events say: phase, mode and times as of the last start, pause, resumption and end; ammunition as of the last shot or override; health as last set less the damage since, cut at 0; counts of shots and hits; the name first given. |
| `BattleHistory.HistoryDecides` | src/core/battle.cpp:20-176 | In every reachable battle the next event is accepted if and only if its history allows it - hits, shots and overrides only while the last phase event is a start or resumption - and otherwise it is a conflict. |
| `BattleHistory.PhaseOfRun` | src/core/battle.cpp:59-173 | From any battle, the phase after a run is that of its last start, pause, resumption or end. |
| `BattleTheorems.ScoresCountHits` | src/core/battle.cpp:87-114 | Over every run the total score is the number of accepted hits and the total shot count the number of accepted shots. |
| `BattleTheorems.HealthClosedForm` | src/core/battle.cpp:110-111 | Without state overrides a player's health is max(0, 100 less all damage accepted against the player), and alive means positive health. |
| `BattleTheorems.HitDoesNotOverflow` | src/core/battle.cpp:110 | The 32-bit subtraction of the damage cannot overflow in a reachable battle. |
| `BattleTheorems.HitBlock` | src/core/battle.cpp:93-117 | A block of hits is accepted if and only if each hit fits the battle before the block; its effect on every player and team is a closed form of the sums of damage and counts. |
| `HitOrder.HitOrderIrrelevant` | src/core/battle.cpp:93-117 | From every battle with the invariant, over runs without state overrides: a run with its hits reordered among all other events is accepted if and only if before each hit the last phase event is a start or resumption, and then players, teams, phase and times are the same. |
| `HitOrder.HitsMayTradePlaces` | src/core/battle.cpp:93-117 | Over whole runs without state overrides, hits may trade places, whatever stands between them: the run is still accepted and all but the latest event id is the same. |
| `HitOrder.HitsAside` | src/core/battle.cpp:32-176 | A run is accepted if and only if it is accepted without its hits and each hit fits where it stands; hits change nothing but health, hit counts and scores. |
| `HitOrder.RunTallied` | src/core/battle.cpp:110-112 | Without state overrides the health, the aliveness and the hit count of every player are closed forms of the damage and hits of the run, from any battle with the invariant. |
| `HitOrder.AcceptedOfOneBattle` | src/core/battle.cpp:14-26 | The accepted events of a run that name a battle all name the same one. |
| `BattleTheorems.Lifecycle` | src/core/battle.cpp:32-176 | Over any run the phase rank never decreases, id, roster, teams, mode and start time are fixed after the lobby, and an ended battle accepts nothing. |
| `Decoding.BattleDecoding` | src/protocol/event.cpp:107-364 | An envelope decodes to a battle event if and only if it is of the event's type and carries each of its fields; all other envelopes are refused. |
| `DecodingErrors.BattleErrors` | src/protocol/event.cpp:20-364 | An envelope that does not decode to a battle event is refused with the error of the first field, in reading order, that is missing or wrong, or as an unknown type. |
| `Decoding.RoomDecoding` | src/room/protocol.cpp:132-515 | The same for the thirteen room events, with optional fields and the list of teams. |
| `DecodingErrors.RoomErrors` | src/room/protocol.cpp:21-515 | The same for room events, with the first bad team of a creation. |
| `DecodingErrors.EnvelopeErrors` | src/protocol/event.cpp:272-335 | A tree that is not an envelope is refused with the error of the first check that fails, in order, down to the event itself. |
| `DecodingErrors.RecordErrors` | src/storage/jsonl_event_store.cpp:28-79 | A line that is not a record is refused with the error of its envelope, or as a parse error. |
| `Decoding.TeamsRead` | src/room/protocol.cpp:132-161 | The team list decodes if and only if every item carries its team, in order. |
| `Room.RoomMachine.CheckRoom` | src/room/room.cpp:19-27 | Refuses events before the creation and of other rooms. |
| `Room.RoomMachine.CheckTeamCapacity` | src/room/room.cpp:95-104 | Refuses unknown and full teams. |
| `Room.RoomMachine.CollectTeams` | src/room/room.cpp:123-137 | The loop over the teams computes `GatherTeams`, with the error of the first bad team and the 32-bit sum. |
| `Room.RoomMachine.ApplyRoomCreated` | src/room/room.cpp:106-158 | Only an uncreated room can be created, with positive maximum and distinct non-empty teams whose 32-bit capacity sum covers it; every field is set; any error leaves the room unchanged. |
| `Room.RoomMachine.ApplyPlayerJoined` | src/room/room.cpp:160-192 | In an open room with a place left, a new player with a free module takes a free seat of a team, unready; any error, with its code in the order of the checks, leaves the room unchanged. |
| `Room.RoomMachine.ApplyPlayerLeft` | src/room/room.cpp:194-209 | In an open room the player alone is taken out; bindings and positions stay. |
| `Room.RoomMachine.ApplyTeamChanged` | src/room/room.cpp:211-233 | In an open room the player moves to a team with a free seat; staying in the same team needs none. |
| `Room.RoomMachine.ApplyReadyChanged` | src/room/room.cpp:235-250 | In an open room the readiness of one player is set and nothing else. |
| `Room.RoomMachine.ApplyDeviceRegistered` | src/room/room.cpp:252-286 | In an open room a new device with metrics in range is added, online and unbound. |
| `Room.RoomMachine.ApplyDeviceHeartbeat` | src/room/room.cpp:288-313 | In every phase a known device takes the reported values and keeps what is not reported; metrics out of range are refused. |
| `Room.RoomMachine.ApplyDeviceBound` | src/room/room.cpp:315-344 | In an open room an unbound device is bound to a player without a device and is online. |
| `Room.RoomMachine.ApplyDeviceUnbound` | src/room/room.cpp:346-365 | In an open room a bound device is released and nothing else changes but the time it was seen. |
| `Room.RoomMachine.ApplyPositionUpdated` | src/room/room.cpp:367-409 | In an open or active room the position of a player is set from the device bound to that player, with a normalised heading and no negative velocity. |
| `Room.RoomMachine.ApplyRoomStarted` | src/room/room.cpp:411-435 | An open room with players who are all ready becomes active with its battle; otherwise the error and an unchanged room. |
| `Room.RoomMachine.ApplyRoomEnded` | src/room/room.cpp:437-447 | An active room ends; otherwise a conflict. |
| `Room.RoomMachine.ApplyRoomClosed` | src/room/room.cpp:449-462 | A room that is neither active nor closed is closed; otherwise a conflict. |
| `Room.RoomMachine.ApplyEvent` | src/room/room.cpp:497-505 | Each event reaches its handler; the outcome is `Apply`. |
| `RoomTheorems.ReachableInvariant` | src/room/room.cpp:106-462 | In every reachable room: roster within the maximum, every team within its cap and existing, modules distinct, no player with two devices, bound players and position owners have joined at some time, position sources are registered, metrics from 0 to 100, headings from 0 up to 360, a started room has a battle and a non-empty roster that is all ready. |
| `RoomTheorems.InvariantKept` | src/room/room.cpp:464-493 | Every accepted decoded event keeps that invariant, with the joining player added to the history. |
| `RoomHistory.RoomIsHistory` | src/room/room.cpp:106-462 | Every reachable room is what its events say: settings and teams as created; phase as of the last creation, start, end or close; roster by the last join or leave; team, readiness, online flag, metrics, binding, times and position as last written; heading the same direction as reported. |
| `RoomVerdict.HistoryDecides` | src/room/room.cpp:19-462 | In every reachable room the next event is accepted if and only if the history gives no reason to refuse it, and otherwise it is refused with exactly the error that the history gives, check by check. |
| `RoomTheorems.GatheredTeams` | src/room/room.cpp:123-140 | The 32-bit sum may wrap, but is congruent to and never above the true capacity, so the capacity check is sound. |
| `RoomTheorems.HeadingInRange` | src/room/room.cpp:80-86 | A normalised heading lies in [0, 360), over the reals. |
| `RoomHistory.NormalizedDirection` | src/room/room.cpp:80-86 | The normalised heading lies in [0, 360) and differs from the reported one by whole turns. |
| `RoomTheorems.TeamsPartition` | src/room/room.cpp:41-46 | The team counts add up to the number of players. |
| `RoomTheorems.Joinable` | src/room/room.cpp:160-192 | In every reachable open room some team takes every new player with a new or no module if and only if the room is not full. |
| `RoomTheorems.FreeTeam` | src/room/room.cpp:95-104 | Pigeonhole: a room that is not full has a team that is not full. |
| `RoomTheorems.StartFromRoster` | src/room/room.cpp:235-250 | An open room with players becomes active after one event for each unready player and the start, all accepted. |
| `RoomTheorems.Startable` | src/room/room.cpp:411-435 | Every reachable open room can be brought to the active phase by accepted events, as many as it has unready players and at most three more. |
| `Startup.OpenRoomStarts` | src/room_runtime/runtime.cpp:45-98 | In every world of every run of the room runtime each open room can be brought to the active phase by well-formed submissions that the runtime accepts one by one, at most three more than there are unready players. |
| `RoomTheorems.Lifecycle` | src/room/room.cpp:288-462 | Over any run the phase rank never decreases, the created settings never change, roster, bindings and battle are fixed after the open phase, and a closed room accepts heartbeats only, which change nothing else. |
| `RoomProtocol.ReadTeamSpecs` | src/room/protocol.cpp:132-161 | The loop over the items gives all teams in order, or the error of the first bad item. |
| `Bootstrap.ApServer.StartBattleFromRoom` | src/server/server.cpp:722-769 | The loop over the players and the start do to the runtime exactly what submitting the plan does, up to the first event that is neither accepted nor a duplicate, and return its error. |
| `StartCommand.CommandHandler.HandleStart` | src/server/server.cpp:1087-1099 | Submits the start to the room runtime and sets up the battle if and only if it was accepted; both runtimes and the outcome are those of `StartRoom`. |
| `StartCommand.AcceptedSetsUp` | src/server/server.cpp:1087-1099 | Over every run of both runtimes: when a start is accepted its room is active with the named battle, and the battle runtime has been given the plan of the room as it now is, up to the first event that did not pass, whose error is reported; when it is not accepted the battles are unchanged. |
| `StartCommand.StartMakesBattle` | src/server/server.cpp:1274-1287 | Over every run: an accepted start with a new battle id, new event ids and working disks reports no error if and only if the source is unused and every player has a module, and then the battle of the room has been made and the log has grown by the plan. |
| `StartCommand.StartedOnce` | src/server/server.cpp:1087-1115 | Over every run of both runtimes: after a start command was accepted for a room, every later start command for that room is a duplicate or refused and changes nothing, so a battle is set up at most once and a setup that stopped is not taken up again. |
| `StartCommand.PastOpenForGood` | src/server/server.cpp:1274-1282 | Over every run of both runtimes a room that has left the open phase stays so, and start commands for it have no effect. |
| `BootstrapTheorems.PlanShape` | src/server/server.cpp:729-760 | For n players there are n+1 well-formed events for the room's battle, with sequences 1 to n+1 and pairwise distinct event ids. |
| `BootstrapTheorems.PlanSpelled` | src/server/server.cpp:182-200 | Each event of the plan word by word: type, id, source `ap-room-start`, sequence, time, and every payload field. |
| `BootstrapTheorems.StartsExactlyWhen` | src/server/server.cpp:722-769 | For a started room, a new battle id, new event ids and a working disk, the bootstrap succeeds if and only if no earlier bootstrap event was accepted and every player has a module; then the battle is active with the room's players, names, teams and modules, everyone alive at 100 health, no score, and the log has grown by exactly the plan. |
| `BootstrapTheorems.ReachableStarted` | src/room/room.cpp:431-432 | Every reachable room with a battle is such a started room. |
| `BootstrapTheorems.SourceTaken` | src/server/server.cpp:194 | Once an event of the bootstrap source was accepted, the bootstrap of a room is refused as a conflict and changes nothing, unless the first event of its plan is among the accepted ones. |
| `BootstrapTheorems.ModuleNeeded` | src/protocol/event.cpp:125-128 | The bootstrap cannot succeed if a player of the room has no module, whatever the disk does. |
| `BootstrapTheorems.StartResumes` | src/server/server.cpp:729-768 | If the bootstrap stops anywhere on a failing disk, even with a restart, calling it again ends as one uninterrupted call: same live state, publications, records, order and outcome. |
| `Traffic.StartResumesAmidTraffic` | src/server/server.cpp:729-768 | The same for the battle and its records when other sources submit for other battles in between, with restarts and failing disks. |
| `Traffic.StartIdempotent` | src/server/server.cpp:743-768 | Calling the bootstrap again at any time after it succeeded changes nothing, whatever was submitted since, also to the same battle. |
| `Traffic.NextRoomRefused` | src/server/server.cpp:194 | After one bootstrap succeeded, and whatever was submitted since, the bootstrap of any room whose first event was not accepted is refused and changes nothing. |
| `Batch.Resumable` | src/ap_runtime/runtime.cpp:49-65 | Any list of submissions that stopped on a failing disk can be repeated from its start with the result of one uninterrupted attempt. |
| `Notify.RoomPlayerIdsForEvent` | src/server/server.cpp:358-388 | The ids are sorted, without repetition, and exactly: the player of the payload, the player bound to the payload's device after one of the four device events, and everyone after a start, end or close. |
| `Notify.BoundDevice` | src/server/server.cpp:239-247 | The device found for a player is the one bound to the player, and none is found if there is none. |
| `Notify.StatusExactly` | src/server/server.cpp:292-316 | In a reachable room a player has a status if and only if in the roster, and it is st if and only if each field of st is what roster, phase, battle and position of the room say, and st names a device, with its online flag, exactly if that device is bound to the player. |
| `Notify.MissedExactly` | src/server/server.cpp:292-388 | In every reachable room an accepted event changes a player's status without telling the player if and only if it unbinds that player's device and does not name the player in its payload. |
| `Notify.SilentUnbind` | src/server/server.cpp:1052-1055 | An unbind as the server builds it is accepted in a reachable room, and the player is not told. |
| `Mirror.MirrorAgrees` | src/server/server.cpp:292-388 | Over every run of the room runtime, with restarts and failing disks, without unannounced unbinds in the room: a client that applies only the published statuses holds a status for exactly the players of the live room, and it shows what roster, bindings, positions, phase and battle of that room say. |
| `Mirror.UnbindFreeMirrorAgrees` | src/server/server.cpp:366-376 | The same for every run without unbind events, with no further condition. |
| `Notify.MirrorUpToDate` | src/server/server.cpp:358-388 | The same for the accepted envelopes of one room, whoever delivers them. |
| `Notify.UnbindFreeAnnounced` | src/server/server.cpp:366-369 | Runs without unbind envelopes are among those. |
| `Ordering.SortedKeys` | src/server/server.cpp:380-386 | The keys of a map in strict lexicographic order, each once. |
| `Ordering.Lexicographic` | src/server/server.cpp:385 | The string order compares the first characters that differ; a prefix comes first. |
| `Ordering.StrictlySortedUnique` | src/server/server.cpp:385-386 | Sorting and removing duplicates has only one possible outcome. |

## Left out

- Store.JsonlEventStore.Append: a write that fails late may leave its line in the file although a failure is returned; the contract promises that nothing is left, because what a file holds after a failed flush is up to the file system.
- HTTP routing, WebSocket sessions, threads, sockets, command line and user interfaces: input and output around the modelled core.
- Mutexes: each submission and each replay is one atomic step; nothing is said about deadlocks between the two runtimes' callbacks.
- Files: the disk is a map from ids to lines, and an append adds one line or none. Partly written lines, failures of reading, unreadable directories, ids that are not plain file names (see the room id `../b` above), and blank lines are not modelled. The order of files is that of the ids, not of the file names; by `EventLog.ShardedLogMerge` it can only change which error of a damaged log is reported first.
- JSON text: documents are trees. Printing and parsing of text, and the copy of the parsed text that an envelope carries (`raw`), are not modelled; equality of canonical JSON is equality of envelopes.
- Sorting algorithm: the library's sort is an insertion sort here; the merge theorem covers every sorted permutation.
- Texts: strings are sequences of characters; encodings and their validity are not modelled.
- Numbers: sequences, acceptance numbers, scores, counts and times are unbounded integers, so the limits of 64 bits and of 32-bit score counters are not modelled; narrowing to 32 bits where the source reads an `int` or adds team capacities is.
- Floating point: coordinates, headings, velocities and damage are reals. Rounding of doubles and the checks for infinite values are not modelled.
- Clocks: the times of receipt and acceptance are parameters, and no result depends on them.
- Messages of errors: only the error codes are modelled. The fallback error for a refusal without an error is left out, since every refusal has one.
- Sinks: one sink that is always present, instead of an optional or a composite one.
- Health in status messages: `alive` and `health` come from the battle runtime; only the part of a status that comes from the room is modelled, and the choice of players after a battle event is not.
- Listings: the list of all rooms, the search of a room by its battle, and the summaries sent to consoles would only add easy members.
