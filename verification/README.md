# Verified model of the coordinator and its protocol library

A Dafny model of the parts of this repository whose correctness is hardest to see from one
function: the coordinator's membership and install protocol, the settings merge, roster
pagination with its publisher, and the small algebras and printers they rest on.
`dafny verify dfyconfig.toml` checks the whole project.

## How it is organised

| files | what they hold |
|---|---|
| `Ordering`, `EckIdentity` | the latest-event order, key version union and the current version |
| `SettingsMerge`, `SettingsLaws`, `SettingsEdits`, `SettingsMeaning` | the per-event settings document, its merge and its edits, and what they say in the document's own fields |
| `Membership` | one event's members as durable state, each handler as a plan of effects, attempts and runs |
| `Coordinator` | the handlers themselves, step by step, each proved to perform a prefix of its plan |
| `MembershipOrder`, `MembershipSafety`, `MembershipRotation` | what holds over every run |
| `MembershipHazards` | where those guarantees end: exactly which steps break them, and how such states are reached |
| `MembershipOutcomes` | which commands run at all, and what each, performed to its end, does |
| `Wrappers`, `Sequences`, `Text`, `Json`, `RosterText`, `WireText` | shared shapes, numerals, the roster payload as JSON text, and that text read by its standards |
| `Packing`, `RosterPages`, `RosterLaws` | greedy packing, split and merge |
| `RosterPublisher`, `RosterCoalescer`, `SubjectLock`, `PairClaims` | the page cache, the coalescer, the promise-chain lock, pair claims |
| `Install` | grants, restores, suspensions, config updates and detaches of one event |
| `Coordinate`, `RosterAddress`, `EventPage`, `EventConfig`, `EventConfigReading` | coordinates, roster addresses, menu interleaving, the 31600 tag codec and how its tags read |

A membership handler is a list of effects computed from the state it starts in. An attempt
performs a prefix of that list, the whole of it when nothing fails; the rumor is marked seen
only then. A run is any sequence of attempts, revocation sets, handovers, hierarchy re-issues and
evictions of idle join requests, so crashes, duplicates, reordering and retries are all runs. A publish whose acknowledgement is lost is an
attempt that ends right after the effect that landed.

## Assumptions

- Authors are authenticated, hashes and fingerprints are parameters; a theorem that needs them
  distinct says so. A rumor id names its contents.
- A command's time is the one it is ordered by: within the clock allowance clamping does nothing.
  Expiry, how a join's proofs resolve and whether the roster admits a member are inputs of each
  attempt.
- Handlers of one event do not interleave with each other, nor with the hierarchy sweep, which takes
  no lock at all. The subject lock only orders one member's commands; `InterleavedRevokeLeaks` and
  `ReissueLeaks` show what already happens between whole handlers.
- The revoke theorem asks that no other rotation starts, no other command on that member is
  accepted, and no handover or hierarchy re-issue re-grants while that member is still listed as
  approved, until the revoke is done. The safety theorem excludes exactly the three steps of
  `StepKeepsAllSafeIff`.
- A membership run lies within one installation of the event: a detach forgets recorded rotations
  and the keys, a re-install unites the keys with those granted, a retention sweep drops every row
  and revocation, and a command to an event not installed is dropped. A restart re-sorts the key
  list, which changes nothing once it is sorted (`RestartKeepsTheList`).
- A full pending queue is thinned inside a join, before that join's own row is written; the thinning
  is a step of its own, and whether the queue is still full is an input of the join.
- A detach is one step, and so are the two consecutive store writes of an install. What a grant's
  revocation set does to members is a step of the membership model; in the install model it is one
  point at which an install may stop.
- Strings are sequences of Unicode scalar values, compared code point by code point. The original
  compares UTF-16 code units; the order is the same on the hexadecimal ids and fingerprints it is
  used for, and may differ on the text of two notes with equal stamps. Lone surrogates do not occur.
- The current version's id is taken to be the maximum id held; `CurrentIdIsMaxId` proves it for
  positive ids.
- The entry-size bound concerns integers that print in plain decimal, below 10^21.
- In the config codec number parsing and printing, URL classification and language normalisation
  are parameters with the stated laws; tag names are a datatype.

## What turned out not to hold

- A roster page that lands without being recorded (its legacy copy fails, or its acknowledgement is
  lost) is skipped, and so served stale, if the roster returns to the recorded text
  (`HalfRecordedGoesStale`; exactly when: `AgreementKeptIff`).
- A grant installed while the event is suspended does not clear the suspension; the next retry ends
  a newer install (`StaleSuspensionEndsTheInstall`), and a generation overtaken or detached can be
  installed again (`OutlivedSuspensionGoesBack`; exactly when: `StepKeepsIff`).
- A grant whose revocation set throws is stored while an older install of the event goes on serving
  with its own keys; the next key it mints overwrites the stored list (`OldInstallOverwritesIff`),
  and the granted config ends the grant (`OldInstallDetachesTheNew`; exactly when: `LiveIsRowIff`).
- A member whose revocation stands can be left approved with nothing in progress to finish it, in
  exactly three ways (`StepKeepsAllSafeIff`): a reprocess newer than an unfinished revoke takes its
  place (`ReprocessLosesARevoke`); the retry of an unfinished revoke arrives expired and is dropped
  (`ExpiredRetryLosesARevoke`); or a revocation set stops between the tombstone and the demotion of
  a member no other command is in progress on, until it is written again.
- Between the attempts of a revoke, its member can be sent the new key: by another member's revoke
  (`InterleavedRevokeLeaks`), or by the hierarchy sweep (`ReissueLeaks`; exactly which steps do:
  `RegrantsIff`, `SentAKeyIff`).
- The settings merge is described as associative without conditions. Merging two documents first is
  harmless for a list exactly when the result holds no removal stamped below its base and no more
  live removals than the cap (`RegroupingIsHarmlessIff`; `BelowBaseDiverges` and
  `OverTheCapResurrects` show both failures). It commutes exactly when notes keyed by something
  other than a pubkey agree (`MergeCommutesIff`).

## Model

| member | source | states |
|---|---|---|
| `Ordering.SupersedesIsTotal` | packages/protocol/src/ordering.ts:20-37 | Of two events with different ids exactly one supersedes the other, and an event never supersedes itself. |
| `Ordering.SupersedesTransitive` | packages/protocol/src/ordering.ts:20-37 | Superseding is transitive. |
| `Ordering.RevisionSupersedesIsStrictTotalOrder` | packages/protocol/src/ordering.ts:66-70 | The revision order is irreflexive, total on distinct keys and transitive. |
| `Ordering.SupersedesMeans` | packages/protocol/src/ordering.ts:20-37 | One event supersedes another exactly when its time is later, or equal and its id smaller; a missing time is 0. |
| `Ordering.RevisionSupersedesMeans` | packages/protocol/src/ordering.ts:66-70 | The higher revision supersedes, then the later time, then the smaller id. |
| `Ordering.StrLessMeans` | packages/protocol/src/ordering.ts:20-37 | One string is smaller exactly when, at the first difference, it ends or has the smaller character. |
| `Ordering.PickLatest` | packages/protocol/src/ordering.ts:40-44 | The loop returns None exactly for an empty list, otherwise a listed event as late as any and, of those as late, with no greater id than another. |
| `Ordering.LatestIsUnique` | packages/protocol/src/ordering.ts:40-44 | Two readers of the same events, in any order, pick events with the same id and time. |
| `EckIdentity.UnionEck` | packages/protocol/src/eck-identity.ts:73-77 | The loops compute the specified union: first occurrences by (id, key), stably sorted. |
| `EckIdentity.UnionListsAll` | packages/protocol/src/eck-identity.ts:73-77 | A union is the strictly sorted listing of exactly what its lists hold; a second key under an id survives. |
| `EckIdentity.UnionHoldsBoth` | packages/protocol/src/eck-identity.ts:73-77 | Whatever the fingerprints, a union holds what either side holds and nothing else. |
| `EckIdentity.UnionIsASemilattice` | packages/protocol/src/eck-identity.ts:61-77 | As a sequence the union commutes, associates and is idempotent, when fingerprints tell held keys apart. |
| `EckIdentity.CanonicalEck` | packages/protocol/src/eck-identity.ts:80-84 | The scan computes the specified current version. |
| `EckIdentity.CanonicalIsBest` | packages/protocol/src/eck-identity.ts:80-84 | The current version is held, has the highest id, and no key of that id has a lower fingerprint. |
| `EckIdentity.CanonicalIsOfSets` | packages/protocol/src/eck-identity.ts:80-84 | Two holders of the same set agree on the current version, whatever their order. |
| `EckIdentity.CanonicalOfUnion` | packages/protocol/src/eck-identity.ts:73-84 | The current version of a union is the better of the two current versions. |
| `EckIdentity.CurrentIdIsMaxId` | packages/protocol/src/eck-identity.ts:80-84 | With positive ids the current version's id is the maximum id held. |
| `EckIdentity.MintIsCanonical` | packages/coordinator/src/coordinator.ts:5433-5447 | A version minted at the maximum id plus one is current, whatever was held. |
| `EckIdentity.EckCollisionIds` | packages/protocol/src/eck-identity.ts:87-91 | The loops list exactly the ids held under two keys, ascending. |
| `EckIdentity.MintIsFresh` | packages/coordinator/src/coordinator.ts:5433-5447 | Minting collides with nothing, loses no older key and adds no collision. |
| `EckIdentity.RestartKeepsTheList` | packages/coordinator/src/coordinator.ts:1613-1614 | A key list once sorted comes back from a restart as it was, and minting keeps it sorted. |
| `EckIdentity.CandidatesAreTheNamedKeys` | packages/protocol/src/eck-identity.ts:119-123 | The candidates are exactly the held keys the tag names, the current one of that id first. |
| `SettingsMerge.NormalizeList` | packages/protocol/src/settings-merge.ts:62-68 | The loops read a list field into its entries: listed ones present, stamped and unlisted ones as tombstones. |
| `SettingsMerge.MergeMaps` | packages/protocol/src/settings-merge.ts:88-94 | The loop merges two fields key by key, an unnamed key being absent as of its document's base. |
| `SettingsMerge.WriteDocument` | packages/protocol/src/settings-merge.ts:96-121 | The loops write the specified document: the one emission order, the kept tombstones, the base. |
| `SettingsMerge.MergePerEventSettings` | packages/protocol/src/settings-merge.ts:128-139 | The whole merge is the specified one. |
| `SettingsMerge.EditPerEventSettings` | packages/protocol/src/settings-merge.ts:150-162 | The whole edit is the specified one. |
| `SettingsMeaning.MergeIsLastWriterWins` | packages/protocol/src/settings-merge.ts:58-139 | Read off the two documents' own fields, legacy or not: the later stamp decides whether a key is listed, being listed wins a tie, the greater text wins between notes of one stamp; the winning stamp is written, a removal's only above the later base and unless 200 newer ones are. |
| `SettingsMeaning.MergeKeepsTheRest` | packages/protocol/src/settings-merge.ts:96-139 | Notes under anything but a pubkey are kept from both sides, the first one's text where both have one; lists run from the oldest stamp to the newest, ties by key. |
| `SettingsMeaning.EditStamps` | packages/protocol/src/settings-merge.ts:150-162 | An edit is stamped now or, if the document is ahead, just past what it held and its base; every other stamp and the base stay. |
| `SettingsMeaning.TrimMeans` | packages/protocol/src/settings-merge.ts:157-160 | Trimming takes blanks off both ends and nothing else, until neither end is blank. |
| `SettingsLaws.WriteRespectsView` | packages/protocol/src/settings-merge.ts:96-121 | The written document depends only on what is said about each key. |
| `SettingsLaws.Reread` | packages/protocol/src/settings-merge.ts:58-121 | Writing and reading back gives every field back, but for the tombstones the write dropped. |
| `SettingsLaws.LosslessIff` | packages/protocol/src/settings-merge.ts:96-121 | A write read back says the same about every key if and only if in no field a removal is stamped below the base or the live removals exceed the cap. |
| `SettingsLaws.WinAssociates` | packages/protocol/src/settings-merge.ts:81-86 | The choice between two entries is associative. |
| `SettingsLaws.MergeKeepsInvariant` | packages/protocol/src/settings-merge.ts:128-139 | Every merge keeps every stamp at or above the document's base. |
| `SettingsLaws.MergeCommutesIff` | packages/protocol/src/settings-merge.ts:128-139 | Merging commutes if and only if the notes keyed by something other than a pubkey agree on common keys. |
| `SettingsLaws.MergeStep` | packages/protocol/src/settings-merge.ts:128-139 | Publishing and reading back a merge gives the view of the merge, while the tombstones fit. |
| `SettingsLaws.EvalIsBest` | packages/protocol/src/settings-merge.ts:81-139 | After any history of merges each key reads as the best of what the source documents say. |
| `SettingsLaws.ReplicasConverge` | packages/protocol/src/settings-merge.ts:8-13 | Histories over the same documents, in any order, grouping and repetition, publish the same document. |
| `SettingsLaws.MergeIsItsView` | packages/protocol/src/settings-merge.ts:123-139 | A merged document is rewritten unchanged. |
| `SettingsEdits.EditKeepsInvariant` | packages/protocol/src/settings-merge.ts:150-162 | Every edit keeps every stamp at or above the document's base. |
| `SettingsEdits.EditBeatsItsDocumentIff` | packages/protocol/src/settings-merge.ts:141-162 | For every document: merging an edit with the document it was made on, in either order, gives the edit if and only if it adds, or the document holds fewer than a capful of removals stamped later than it, or what it removes was stamped below the base. |
| `SettingsEdits.EditSurvivesIff` | packages/protocol/src/settings-merge.ts:101-112 | An edit is in the written document unless it is a removal older than a capful of removals already held. |
| `SettingsEdits.EditSurvivesWithinCap` | packages/protocol/src/settings-merge.ts:96-121 | A removal is in the written document while the tombstones fit the cap. |
| `SettingsEdits.EditDoesWhatItSays` | packages/protocol/src/settings-merge.ts:150-162 | An edit flips exactly the entry it names and no other of any list. |
| `SettingsEdits.NoteEditDoesWhatItSays` | packages/protocol/src/settings-merge.ts:157-160 | A note edit stores the trimmed text, clears the note when nothing is left, and touches no other note. |
| `SettingsEdits.LegacyIsAWholeWrite` | packages/protocol/src/settings-merge.ts:24-29 | Merging a legacy document written at T keeps exactly the entries stamped after T and its view of the rest, add-wins on a tie, in either order. |
| `SettingsEdits.RegroupingIsHarmlessIff` | packages/protocol/src/settings-merge.ts:88-139 | For any two documents and any list: merging the two first and any third later lists what the three views say, whatever the third, if and only if the merge of the two has no removal stamped below its base and its live removals fit the cap. |
| `SettingsEdits.RepeatingIsHarmlessIff` | packages/protocol/src/settings-merge.ts:88-139 | For any document and any list: merging it with itself changes nothing anyone will see if and only if it has no removal stamped below its base and its live removals fit the cap. |
| `SettingsEdits.ListMergeAssociates` | packages/protocol/src/settings-merge.ts:88-139 | For any three documents the two groupings list the same whenever neither of the merges made first is lossy in that way. |
| `SettingsEdits.BelowBaseDiverges` | packages/protocol/src/settings-merge.ts:58-94 | A concrete document below its base: repeating it drops an entry added after the removal. |
| `SettingsEdits.OverTheCapResurrects` | packages/protocol/src/settings-merge.ts:101-112 | Past the tombstone cap a written document forgets a removal, in any list, that a stale copy then undoes. |
| `MembershipOrder.LatestCommandWins` | packages/coordinator/src/coordinator.ts:5355-5374 | Over every run, duplicated, reordered, failing and retried: the starts of one member's commands strictly increase, a rumor restarts only until it completes or is overtaken, a completed one never starts again. |
| `MembershipOrder.EveryRunIsOrdered` | packages/coordinator/src/coordinator.ts:5355-5374 | The same over every run from the moment an event is installed. |
| `MembershipOrder.GateFacts` | packages/coordinator/src/coordinator.ts:5355-5374 | A rumor that passes the gate is at least as new as every start of its member and was never completed. |
| `MembershipOrder.PlanShape` | packages/coordinator/src/coordinator.ts:5189-5345 | Every handler starts nothing, or starts its own command exactly once and first. |
| `MembershipOrder.ExecKeepsOrder` | packages/coordinator/src/coordinator.ts:1944-1989 | Every attempt, however far it gets, keeps the ordering invariant. |
| `MembershipSafety.RevocationStands` | packages/coordinator/src/coordinator.ts:2858-2863 | A revoked member who is not approved stays so and is sent no key by any step but an admitted organizer approve. |
| `MembershipSafety.RevocationStandsOverRuns` | packages/coordinator/src/coordinator.ts:3394-3399 | The same over every run: joins in all modes, withdrawals that erase the row, revocation sets, handovers, other members' revokes. |
| `MembershipSafety.RevokeHarmless` | packages/coordinator/src/coordinator.ts:5499-5511 | Another member's revoke does not re-grant a shut-out member. |
| `MembershipSafety.JoinHarmless` | packages/coordinator/src/coordinator.ts:2837-2863 | No join, whatever its proofs and the approval mode, re-admits a shut-out member. |
| `MembershipSafety.AdoptHarmless` | packages/coordinator/src/coordinator.ts:3629-3651 | A handover adopts no shut-out member. |
| `MembershipSafety.SeedKeepsIff` | packages/coordinator/src/coordinator.ts:1739-1751 | A grant's revocation set, however far it gets, keeps every member's invariant if and only if it does not stop between a tombstone and the demotion of a member no command is in progress on. |
| `MembershipSafety.BootstrapKeeps` | packages/coordinator/src/coordinator.ts:3629-3708 | A handover, however far it gets, keeps every member's invariant. |
| `MembershipSafety.WithdrawEnds` | packages/coordinator/src/coordinator.ts:2580-2641 | A withdrawal that completes leaves its member not approved. |
| `MembershipSafety.AdminApproveEnds` | packages/coordinator/src/coordinator.ts:5197-5239 | An approve that completes leaves its member approved with the revocation lifted. |
| `MembershipSafety.StepKeepsAllSafeIff` | packages/coordinator/src/coordinator.ts:5136-5345 | Every step, however far it gets, keeps every member's invariant (a standing revocation of someone still approved has a command in progress that will be delivered again, and a completed command has left what it says), except exactly: a reprocess that completes over such a revocation, a revocation set so cut, and that command coming back expired. |
| `MembershipSafety.SafeThroughoutIff` | packages/coordinator/src/coordinator.ts:5136-5345 | From a safe state every state on the way is safe if and only if no step of the run is one of those three. |
| `MembershipSafety.ReachableStatesAreSafe` | packages/coordinator/src/coordinator.ts:5340-5345 | In every state such a run reaches, a revoked member with nothing in progress is not approved, and the newest command, once complete, has left the status it says. |
| `MembershipSafety.EveryOrderlyRunIsSafe` | packages/coordinator/src/coordinator.ts:5136-5345 | The same over every such run from the moment an event is installed. |
| `MembershipHazards.OvertakenForGood` | packages/coordinator/src/coordinator.ts:5355-5374 | A command overtaken by a newer start on its member is refused in every later state. |
| `MembershipHazards.ReprocessLosesARevoke` | packages/coordinator/src/coordinator.ts:5124-5131 | From a safe state: a revoke cut after its tombstone, then a newer reprocess, leave the member revoked yet approved with nothing unfinished, and the revoke does nothing in any later state. |
| `MembershipHazards.ExpiredRetryLosesARevoke` | packages/coordinator/src/coordinator.ts:5168-5174 | From a safe state: a revoke cut after its tombstone, then its retry past the horizon, leave the member revoked yet approved with nothing in progress, and the revoke does nothing in any later state. |
| `MembershipRotation.HeadKeeps` | packages/coordinator/src/coordinator.ts:5419-5447 | Recording the rotation precedes installing it: a retry resumes it, and once through exactly one version was added. |
| `MembershipRotation.MeanwhileKeeps` | packages/coordinator/src/coordinator.ts:5391-5447 | Joins, approvals, non-rotating withdrawals, revocation sets and evictions between attempts, and handovers and hierarchy re-issues while the member is not listed as approved, leave the rotation as it is. |
| `MembershipRotation.OneRotationPerRevoke` | packages/coordinator/src/coordinator.ts:5391-5511 | Through any crashes and retries, and any bystander steps among those, a revoke adds at most one version, the maximum id plus one; once done exactly one, which is current, and its member got no key but the old ones. |
| `MembershipRotation.EveryRevokeRotatesOnce` | packages/coordinator/src/coordinator.ts:5391-5447 | The same for a revoke first delivered in any state a run from an install reaches. |
| `MembershipRotation.EveryoneElseIsRegranted` | packages/coordinator/src/coordinator.ts:5494-5511 | The attempt that completes has sent the whole key list to everyone approved. |
| `MembershipHazards.RegrantsIff` | packages/coordinator/src/coordinator.ts:5499-5502 | Exactly which steps re-grant a member whose revocation stands while still listed as approved: a handover, a hierarchy re-issue, an accepted revoke of another, an accepted withdrawal of another that rotates, an accepted live approve of the member. |
| `MembershipHazards.SentAKeyIff` | packages/coordinator/src/coordinator.ts:5499-5502 | Such a member is sent a key by a step if and only if it is one of those and gets as far as that grant. |
| `MembershipHazards.InterleavedRevokeLeaks` | packages/coordinator/src/coordinator.ts:5499-5502 | From a safe state: a revoke of one member cut after its new version is installed, then a whole revoke of another, send the first member the list with both new versions. |
| `MembershipHazards.ReissueLeaks` | packages/coordinator/src/coordinator.ts:6121-6146 | A revoke cut after its new version is installed, then a hierarchy re-issue, send the member being removed the list with the new version. |
| `MembershipRotation.RetriesAreUninterrupted` | packages/coordinator/src/coordinator.ts:1944-1989 | Retries of the revoke alone, in any number and however far each gets, meet the theorem's condition. |
| `MembershipOutcomes.WithdrawalDoesWhatItSays` | packages/coordinator/src/coordinator.ts:2565-2642 | A withdrawal that ends erases or revokes the row, completes, and neither records nor lifts an organizer revocation. |
| `MembershipOutcomes.DepartureRotates` | packages/coordinator/src/coordinator.ts:2600-2642 | An approved member's departure, or one with its rotation recorded, adds a version and sends everyone still approved the whole list; any other touches no key and sends none. |
| `MembershipOutcomes.GateStartsIff` | packages/coordinator/src/coordinator.ts:5355-5374 | An unseen, unexpired command starts if and only if nothing is recorded for its member, or it is the recorded one and unfinished, or it is another and later, or of one time with the smaller id. |
| `MembershipOutcomes.NothingElseRuns` | packages/coordinator/src/coordinator.ts:5168-5174 | A command that does not start, was seen before or has expired does nothing. |
| `MembershipOutcomes.RevokeDoesWhatItSays` | packages/coordinator/src/coordinator.ts:5419-5486 | A revoke that ends leaves the revocation standing, the row revoked and the command complete. |
| `MembershipOutcomes.RevokeRotates` | packages/coordinator/src/coordinator.ts:5419-5511 | A revoke that ends added one version, the recorded or a fresh one, deleted the member's entry under the version current before, and sent everyone still approved the whole list. |
| `MembershipOutcomes.ApproveAdmitsOrRefuses` | packages/coordinator/src/coordinator.ts:5197-5239 | An approve that ends: someone approved already, or with room, or unknown but well-formed below the cap and with room, ends approved, unrevoked and sent the whole list; anyone else keeps revocation and row, a new one pending, uncompleted unless the key is malformed. |
| `MembershipOutcomes.ApproveNeverExposes` | packages/coordinator/src/coordinator.ts:5222-5239 | However far an approve gets, nobody becomes approved under a standing revocation, and a key is sent only once they are approved. |
| `MembershipOutcomes.JoinAdmitsIff` | packages/coordinator/src/coordinator.ts:2837-3157 | Mode by mode, from the proofs, the row, the recorded command and the cap: when a join is dropped, when it ends approved with the whole list sent (in manual mode only by the organizer's own self-join or a member-of proof), and otherwise whether the row waits, stays or is gone. |
| `MembershipOutcomes.JoinOfTheKnown` | packages/coordinator/src/coordinator.ts:2858-2873 | A join of an approved member changes no status and sends the list again; one of someone revoked by the organizer does nothing. |
| `MembershipOutcomes.SeedDoesWhatItSays` | packages/coordinator/src/coordinator.ts:1739-1751 | A revocation set leaves exactly those it lists revoked, demotes those of them approved, and touches nobody else. |
| `MembershipOutcomes.AdoptWithinCap` | packages/coordinator/src/coordinator.ts:3629-3651 | A handover approves only listed members without a standing revocation and never past the cap. |
| `MembershipOutcomes.AdoptInOrder` | packages/coordinator/src/coordinator.ts:3629-3651 | A listed member without a standing revocation is passed over only at the cap, and then nobody after them is adopted. |
| `MembershipOutcomes.BootstrapDoesWhatItSays` | packages/coordinator/src/coordinator.ts:3629-3708 | After adopting, a handover sends everyone approved the whole list and changes nothing else. |
| `MembershipOutcomes.ReissueDoesWhatItSays` | packages/coordinator/src/coordinator.ts:6121-6146 | A due hierarchy re-issue sends everyone approved the whole list; one not due does nothing. |
| `MembershipOutcomes.EvictDoesWhatItSays` | packages/coordinator/src/coordinator.ts:2265-2271 | An eviction drops exactly the idle members still pending. |
| `Coordinator.InTurn` | packages/coordinator/src/coordinator.ts:1944-1989 | A handler in two parts performs a prefix of the first, or all of it and a prefix of the second. |
| `Coordinator.EventCoordinator.BeginCommandOp` | packages/coordinator/src/store/db.ts:2073-2084 | Progress is kept for the same rumor and dropped for another. |
| `Coordinator.EventCoordinator.PurgeAttendee` | packages/coordinator/src/store/db.ts:2962-2985 | A purge removes the row and keeps the revocation and the command watermark. |
| `Coordinator.EventCoordinator.BeginOrderedOperation` | packages/coordinator/src/coordinator.ts:5355-5374 | The gate runs a command exactly when nothing is recorded, or it is the recorded one unfinished, or it is newer than the recorded one; and as the model says. |
| `Coordinator.EventCoordinator.GrantAndPublish` | packages/coordinator/src/coordinator.ts:3390-3415 | Performs a prefix of the grant plan; nothing for a revoked member. |
| `Coordinator.EventCoordinator.Rotate` | packages/coordinator/src/coordinator.ts:5419-5447 | Resumes the recorded rotation, or records one before installing it. |
| `Coordinator.EventCoordinator.RegrantApproved` | packages/coordinator/src/coordinator.ts:5499-5511 | The loop performs a prefix of re-granting everyone approved when it started. |
| `Coordinator.EventCoordinator.RevokeAttendee` | packages/coordinator/src/coordinator.ts:5391-5564 | Performs a prefix of the revoke plan. |
| `Coordinator.EventCoordinator.HandleAdmin` | packages/coordinator/src/coordinator.ts:5141-5346 | Performs a prefix of the command's plan, in the source's order. |
| `Coordinator.EventCoordinator.HandleWithdrawal` | packages/coordinator/src/coordinator.ts:2565-2642 | Performs a prefix of the withdrawal's plan. |
| `Coordinator.EventCoordinator.HandleJoinLocked` | packages/coordinator/src/coordinator.ts:2837-3157 | Performs a prefix of the join's plan, in every approval mode; what that plan comes to is `JoinAdmitsIff`. |
| `Coordinator.EventCoordinator.SeedRevocations` | packages/coordinator/src/coordinator.ts:1739-1751 | The loop performs a prefix of seeding the revocation set. |
| `Coordinator.EventCoordinator.BootstrapHandover` | packages/coordinator/src/coordinator.ts:3629-3708 | The loops perform a prefix of adopting a roster and re-granting. |
| `Coordinator.EventCoordinator.ReissueParentProofs` | packages/coordinator/src/coordinator.ts:6121-6146 | Performs a prefix of re-granting the snapshot of approved members, when the link is due. |
| `Coordinator.EventCoordinator.EvictStale` | packages/coordinator/src/coordinator.ts:2265-2271 | Purges the idle members found pending, a prefix of them when it throws. |
| `Coordinator.EventCoordinator.Attempt` | packages/coordinator/src/coordinator.ts:1952-1960 | One attempt is one step of the state machine; the rumor is marked seen only if the handler returns. |
| `Coordinator.EventCoordinator.ProcessRumorWithRetry` | packages/coordinator/src/coordinator.ts:1944-1989 | The loop stops at the first success, and not before, or when attempts run out, in the state those attempts lead to. |
| `Coordinator.AttemptsAreARun` | packages/coordinator/src/coordinator.ts:1944-1989 | The retry loop's result is a run of the state machine, so the laws over runs apply to it. |
| `Json.QuoteDecodes` | packages/protocol/src/roster.ts:188-190 | A printed string ends where it ends: quoting and escaping are injective, whatever follows. |
| `WireText.QuoteReads` | packages/protocol/src/roster.ts:188-190 | A JSON string reader gives back every quoted string, whatever follows it. |
| `WireText.SizeIsUtf8` | packages/protocol/src/roster.ts:188-190 | The size counted is the number of UTF-8 bytes, and they spell the text. |
| `WireText.PayloadFields` | packages/coordinator/src/coordinator.ts:3860-3866 | A payload's fields by name and in order, the optional ones only when present. |
| `WireText.AttendeeFields` | packages/coordinator/src/coordinator.ts:3881-3886 | An attendee's fields by name and in order. |
| `WireText.ChatKeyFields` | packages/coordinator/src/coordinator.ts:3871-3880 | A chat key's fields by name and in order. |
| `Json.ArraySize` | packages/protocol/src/roster.ts:188-190 | The size of a printed array is the sum of its entries' sizes, one comma between entries. |
| `RosterText.RosterJsonIsInjective` | packages/coordinator/src/coordinator.ts:4022-4025 | Two payloads with the same text are the same payload, so comparing texts compares pages. |
| `RosterText.PayloadSize` | packages/protocol/src/roster.ts:188-190 | A payload's bytes are its envelope's plus its entries'. |
| `RosterText.EntryAtMost` | packages/protocol/src/schemas.ts:1056-1084 | The widest attendee entry the schema accepts stays under 13,000 bytes, escapes included. |
| `Packing.PackList` | packages/protocol/src/roster.ts:233-254 | The packing loop computes the specified groups. |
| `Packing.PackKeepsOrder` | packages/protocol/src/roster.ts:233-254 | Nobody is lost, moved or repeated. |
| `Packing.PackWithinBudget` | packages/protocol/src/roster.ts:233-254 | Every group is within the budget when each entry fits alone. |
| `Packing.GreedyStaysAhead` | packages/protocol/src/roster.ts:223-254 | No in-order split has fewer groups, and one with as many has no shorter last group. |
| `Packing.PackClosesAt` | packages/protocol/src/roster.ts:233-254 | A group is closed only because the next entry would not fit it. |
| `RosterLaws.PageWithinLoad` | packages/protocol/src/roster.ts:236-244 | A real page never exceeds what its group was budgeted at. |
| `RosterLaws.PagesFit` | packages/protocol/src/roster.ts:279-304 | Every page is within the packing target when each entry fits alone. |
| `RosterLaws.SchemaEntriesFit` | packages/protocol/src/schemas.ts:1066-1084 | Everything the schemas accept fits alone. |
| `RosterLaws.FewestPages` | packages/protocol/src/roster.ts:223-254 | The packing uses the fewest pages of any in-order split under the same budget. |
| `RosterLaws.OnePageHoldsFewerThanTheCap` | packages/protocol/src/roster.ts:193-195 | One payload never holds more members than the roster cap. |
| `RosterLaws.GateIsExact` | packages/coordinator/src/coordinator.ts:3931-3940 | With entries that fit alone a split succeeds if and only if the capacity gate passes. |
| `RosterLaws.AtLeastTwoPages` | packages/protocol/src/roster.ts:279-290 | A roster that does not fit one payload is cut in at least two. |
| `RosterLaws.PageClosesWhenFull` | packages/protocol/src/roster.ts:206-254 | A page is closed only when the next entry would take it past 60000 bytes, counted with the widest page count. |
| `RosterLaws.PagesSay` | packages/protocol/src/roster.ts:206-304 | A roster that fits is its own page; otherwise at most 40 version-3 pages, page 0 alone with the group id and the count, each within the encryption's ceiling. |
| `RosterLaws.SplitRefuses` | packages/protocol/src/roster.ts:279-304 | Which of the three refusals a split meets, and exactly when. |
| `RosterLaws.AppendTouchesTwo` | packages/protocol/src/roster.ts:223-232 | Appending a member changes the last page alone, or page 0 and one new page; every other page is identical. |
| `RosterPages.SplitRoster` | packages/protocol/src/roster.ts:279-304 | Returns the pages or the error the source throws, as specified. |
| `RosterPages.RosterPageCount` | packages/protocol/src/roster.ts:260-263 | The number of pages without throwing. |
| `RosterPages.MergeRosterPages` | packages/protocol/src/roster.ts:327-346 | The loops keep first occurrences up to the cap, and page 0's header. |
| `RosterLaws.MembersAreFirsts` | packages/protocol/src/roster.ts:327-346 | A merge keeps of each member the first entry read, in reading order, until 2000 are known. |
| `RosterLaws.MergeSays` | packages/protocol/src/roster.ts:327-346 | A merge is a version-2 payload with page 0's header and no page count. |
| `RosterLaws.MergeInvertsSplit` | packages/protocol/src/roster.ts:306-346 | Merging what a split produced gives the roster back, for exactly the logical rosters that list nobody twice. |
| `RosterLaws.SplitIsStable` | packages/protocol/src/roster.ts:306-312 | Splitting again what was merged reproduces the same pages. |
| `RosterPublisher.Publisher.PublishRoster` | packages/coordinator/src/coordinator.ts:4017-4048 | Sends the pages whose text changed, derived then legacy, recording each; stops where a send throws. |
| `RosterPublisher.SuccessIff` | packages/coordinator/src/coordinator.ts:4017-4048 | After a success the relays hold exactly this roster's pages if and only if they held those it skipped. |
| `RosterPublisher.PublishLeaves` | packages/coordinator/src/coordinator.ts:4017-4048 | For every publish and every page address, derived and legacy: pages before the stop are there if their text changed, of the page it stops at only what landed, and nothing else is touched. |
| `RosterPublisher.AgreementKeptIff` | packages/coordinator/src/coordinator.ts:4024-4044 | Read off the record, the texts and the fates: a publish succeeds exactly when it stops at no page, and keeps an agreeing record so exactly when it stops at none, or at one that did not land or that the record does not have. |
| `RosterPublisher.PublishedReadsBack` | packages/coordinator/src/coordinator.ts:4017-4048 | After a success reading page 0 and the pages it names and merging gives back exactly the roster. |
| `RosterPublisher.EverySuccessReadsBack` | packages/coordinator/src/coordinator.ts:4017-4048 | The same over every run of publishes, shrinking, regrowing and failing half way. |
| `RosterPublisher.HalfRecordedGoesStale` | packages/coordinator/src/coordinator.ts:4026-4040 | A changed roster lands but its legacy copy fails; publishing the recorded roster again succeeds and readers go on reading the changed one. |
| `RosterPublisher.AppendSendsTwo` | packages/coordinator/src/coordinator.ts:4001-4016 | Appending one member to a paginated, published roster sends at most two page addresses. |
| `RosterCoalescer.Coalescer.PublishRosterCoalesced` | packages/coordinator/src/coordinator.ts:3816-3833 | A call marks the roster dirty and joins the runner, or starts one. |
| `RosterCoalescer.Coalescer.PublishSettled` | packages/coordinator/src/coordinator.ts:3821-3829 | The runner goes round again while dirty, else tells its waiters and is removed; also on failure. |
| `RosterCoalescer.CoalescingIsSafe` | packages/coordinator/src/coordinator.ts:3799-3833 | Whoever is told their call succeeded is covered by a publish whose snapshot came after the call; publishes never overlap and never outnumber calls. |
| `RosterCoalescer.EveryoneIsTold` | packages/coordinator/src/coordinator.ts:3816-3833 | Over every run a failed publish rejects exactly the callers not told yet, a successful one resolves exactly those, unless someone called since its snapshot, and then it goes round again. |
| `RosterCoalescer.CallStartsOrJoins` | packages/coordinator/src/coordinator.ts:3816-3833 | A call starts a publish exactly when none is under way, and is waiting either way. |
| `SubjectLock.Locks.WithSubjectLock` | packages/coordinator/src/coordinator.ts:2029-2044 | A caller runs after the chain entry it found and becomes the entry. |
| `SubjectLock.Locks.SettleTail` | packages/coordinator/src/coordinator.ts:2035-2042 | A settled tail prunes the entry only while it is still the last. |
| `SubjectLock.LockIsExclusive` | packages/coordinator/src/coordinator.ts:2023-2044 | Callers of one key never overlap, start in the order they asked, and a pruned entry lets nobody overtake. |
| `SubjectLock.StartsIff` | packages/coordinator/src/coordinator.ts:2029-2034 | A caller starts exactly when it waits and everyone who asked before on its key has settled. |
| `SubjectLock.TailGoesIff` | packages/coordinator/src/coordinator.ts:2035-2042 | A settled caller's key keeps an entry exactly if someone asked behind it; no other key is touched. |
| `SubjectLock.NobodyIsStuck` | packages/coordinator/src/coordinator.ts:2023-2044 | Whoever waits, someone on that key runs or may start, however earlier ones ended. |
| `Install.Installer.InstallGrant` | packages/coordinator/src/coordinator.ts:1463-1584 | The checks on a fresh grant, in their order, with their verdicts and the resulting state. |
| `Install.GrantDoesWhatItSays` | packages/coordinator/src/coordinator.ts:1463-1729 | An admitted grant stores generation and the union of keys under a raised mark, and serves unless its revocations threw; no other grant does anything. |
| `Install.Installer.InstallRestore` | packages/coordinator/src/coordinator.ts:1577-1607 | A restore resumes, suspends or detaches, as `UnfetchableSuspends` and `FetchedDecides` spell out. |
| `Install.UnfetchableSuspends` | packages/coordinator/src/coordinator.ts:1577-1594 | A restore without a config only suspends: row, keys, mark, tombstone and log stay. |
| `Install.FetchedDecides` | packages/coordinator/src/coordinator.ts:1595-1672 | A restore with a config goes live at its generation with every key, if the config names this daemon at it, and otherwise ends the event. |
| `Install.SuspensionOutlastsAnOutage` | packages/coordinator/src/coordinator.ts:1796-1812 | However many retries fetch nothing, the first that fetches a config naming this daemon at the suspended generation ends live at it with every held key. |
| `Install.Installer.InstallAuthorized` | packages/coordinator/src/coordinator.ts:1608-1729 | The key union, the row, the high-water mark and the cleared tombstone; the event is placed in memory only past the grant's revocations, and noted complete only at the end. |
| `Install.Installer.DetachEvent` | packages/coordinator/src/coordinator.ts:5583-5639 | A detach raises the mark, tombstones, and drops custody and live state. |
| `Install.Installer.ApplyConfigUpdate` | packages/coordinator/src/coordinator.ts:7193-7296 | A superseding config is applied, or detaches when it no longer names this coordinator at this generation. |
| `Install.UpdateDoesWhatItSays` | packages/coordinator/src/coordinator.ts:7193-7296 | A live event takes up a newer config naming this daemon at its generation, is ended by a newer one that does not, and ignores any other. |
| `Install.MintAndDetachDoWhatTheySay` | packages/coordinator/src/coordinator.ts:1825-1837 | A minted version joins memory and row alike; a detach command ends a live event. |
| `Install.AdmittedIff` | packages/coordinator/src/coordinator.ts:1465-1584 | A grant is admitted exactly when it is newer than every install and detach, or resumes the unfinished one, and the config names this daemon at its generation with its inbox; it is put off exactly when as current and the config is missing or may not have caught up. |
| `Install.StepKeepsIff` | packages/coordinator/src/coordinator.ts:1463-1626 | Every step keeps the install invariant, except exactly a grant that outlives a suspension: admitted while suspended, at another generation or reaching service. |
| `Install.GenerationsOnlyGrow` | packages/coordinator/src/coordinator.ts:1487-1515 | Over every run installed generations never decrease, strictly exceed every detach before them, and a live event's config names this coordinator at exactly its generation. |
| `Install.OutlivedSuspensionGoesBack` | packages/coordinator/src/coordinator.ts:1796-1812 | Whenever a grant outlives a suspension, the next retry, or a detach and then the next retry, reinstalls an overtaken or detached generation if it fetches a config naming the suspended one. |
| `Install.DetachedForGood` | packages/coordinator/src/coordinator.ts:1487-1515 | A generation once detached is never admitted again, over every later run in which no grant outlives a suspension. |
| `Install.LiveIsRowIff` | packages/coordinator/src/coordinator.ts:1613-1672 | Every step keeps memory and store in agreement, except exactly a grant stored while an older install goes on serving. |
| `Install.KeysOnlyGrow` | packages/coordinator/src/coordinator.ts:1608-1614 | Over every run from an install to a detach in which no grant is stored under an older install, the held (id, key) pairs only grow. |
| `Install.OldInstallOverwritesIff` | packages/coordinator/src/coordinator.ts:1825-1837 | A key minted by an older install left serving keeps the stored keys if and only if that install knew every key of the grant. |
| `Install.OldInstallDetachesTheNew` | packages/coordinator/src/coordinator.ts:7213-7241 | The config the grant was admitted under, reaching that older install as a live update, detaches the event and bars the granted generation in every later state. |
| `Install.StaleSuspensionEndsTheInstall` | packages/coordinator/src/coordinator.ts:1796-1812 | A newer grant over a suspended event leaves the suspension, and the next retry ends the new install whatever it fetches. |
| `Install.StaleSuspensionDetaches` | packages/coordinator/src/coordinator.ts:1595-1603 | If that retry fetches the very config the grant was admitted under, it detaches and bars the granted generation in every later state. |
| `Coordinate.ParseInvertsMake` | packages/protocol/src/coordinate.ts:26-70 | Printing then parsing gives the coordinate back, colons in the identifier included. |
| `Coordinate.MakeInvertsParse` | packages/protocol/src/coordinate.ts:44-70 | An accepted coordinate reprints to itself. |
| `Coordinate.AcceptedIffPrinted` | packages/protocol/src/coordinate.ts:44-70 | Exactly the printed coordinates are accepted. |
| `Text.Hex64Means` | packages/protocol/src/config.ts:283-283 | A canonical public key is 64 lower-case hexadecimal digits. |
| `RosterAddress.LegacyRosterDsToDelete` | packages/coordinator/src/coordinator.ts:5075-5091 | The loops return exactly the space's own legacy pages that no other live space occupies, none for an identifier shaped like a derived base. |
| `RosterAddress.PagesLiveAt` | packages/protocol/src/roster.ts:149-170 | Page 0 lives at the base, page i at the base with its number, for at least one page and at most 40. |
| `RosterAddress.CollidesIff` | packages/protocol/src/roster.ts:112-121 | An identifier is shaped like a derived base when it is 64 hex digits, with nothing or a colon and anything after. |
| `RosterAddress.OnlyDerivedShapesMeet` | packages/protocol/src/roster.ts:119-157 | A page of a 64-hex base is a page of another base only if that base is shaped like a derived one. |
| `RosterAddress.NothingForeignIsDeleted` | packages/coordinator/src/coordinator.ts:5966-5974 | No roster address a space deletes is a page address, derived or legacy, of another live space. |
| `PairClaims.Scorer.ClaimPendingPairs` | packages/coordinator/src/coordinator.ts:4658-4669 | The loop claims exactly the pairs neither scored at their inputs nor in flight, each once. |
| `PairClaims.Scorer.ReleasePairs` | packages/coordinator/src/coordinator.ts:4671-4673 | The loop releases exactly the batch's pairs. |
| `PairClaims.NoPairIsPaidTwice` | packages/coordinator/src/coordinator.ts:4640-4673 | No directed pair at one inputs hash is in two batches at once, none already scored is in one, and nothing stays claimed once no batch runs. |
| `PairClaims.ClaimsExactly` | packages/coordinator/src/coordinator.ts:4658-4669 | A batch claims exactly those of its pairs not scored at these very inputs and not held by another batch. |
| `PairClaims.RecordedStays` | packages/coordinator/src/coordinator.ts:4640-4673 | What a batch recorded is claimed by no later batch, over every run that does not requeue or overwrite its row. |
| `EventPage.MergeByPos` | packages/protocol/src/event-page.ts:93-108 | The sort and the splices compute the specified merge. |
| `EventPage.SplitByPos` | packages/protocol/src/event-page.ts:110-122 | The loop computes the specified split. |
| `EventPage.MergeInvertsSplit` | packages/protocol/src/event-page.ts:83-122 | Merging what a split produced gives the list back, for every merged list. |
| `EventPage.GreatestGoesIn` | packages/protocol/src/event-page.ts:83-108 | A merge is the merge without the greatest private item, the last of equal ones, and that one put in at its position, at the front when negative and at the end when beyond. |
| `EventPage.SplitInvertsMergeIff` | packages/protocol/src/event-page.ts:93-122 | Splitting a merge gives both lists back if and only if the positions ascend, are distinct and in range. |
| `EventPage.MergeKeepsItems` | packages/protocol/src/event-page.ts:93-108 | Whatever the positions, public items keep their order and no item is lost or duplicated. |
| `EventConfig.BuildTags` | packages/protocol/src/config.ts:192-267 | The loops push the specified tags, or report the fault the source throws. |
| `EventConfig.ParseTags` | packages/protocol/src/config.ts:335-449 | The loops read the specified config, or report the error the source throws; what each field reads as is stated in `EventConfigReading`. |
| `EventConfigReading.WordsAreRead` | packages/protocol/src/config.ts:354-368 | Straight off the tags: an accepted word is taken as it is, an absent or unknown one reads as manual, pair, off, not matching, English. |
| `EventConfigReading.NumbersAreRead` | packages/protocol/src/config.ts:301-323 | A usable number is rounded down, anything else reads as 90, 900, 1 or 0; a key version is at least 1. |
| `EventConfigReading.CoordinatorIsRead` | packages/protocol/src/config.ts:376-390 | The coordinator and its generation are read exactly when the first coordinator tag carries a key and a positive integer, and never one without the other. |
| `EventConfigReading.OptionsAreRead` | packages/protocol/src/config.ts:339-461 | Retention and parent are present exactly when their first tag carries a value they accept; identifier, inbox and space kind are what the tags carry. |
| `EventConfigReading.ListsAreRead` | packages/protocol/src/config.ts:391-412 | The lists hold exactly what the tags hold of accepted kind; an interop relay moves to the chat relays. |
| `EventConfigReading.ChildrenAreRead` | packages/protocol/src/config.ts:440-444 | Children are the tagged event coordinates, each once, all of them up to 500. |
| `EventConfigReading.AcceptedIff` | packages/protocol/src/config.ts:335-353 | A config is accepted exactly with an identifier, a well-formed inbox and version 2; which error it meets otherwise. |
| `EventConfigReading.BuildFailsIff` | packages/protocol/src/config.ts:192-267 | A build fails exactly when the space kind, the coordinator's generation, the retention, the parent or the children are not acceptable. |
| `EventConfigReading.RoundTripsIff` | packages/protocol/src/config.ts:192-449 | Building then parsing gives a config back if and only if it is canonical. |
| `EventConfig.ParsedIsCanonical` | packages/protocol/src/config.ts:335-449 | What holds of every parsed config: the relay split, the enums, the coordinator pair, the caps. |
| `EventConfig.ParsedConfigRoundTrips` | packages/protocol/src/config.ts:192-449 | Every parsed config is rebuilt without a fault and parses back to itself. |

## Left out

- Coordinator.EventCoordinator.RevokeAttendee: match lists, talks, the score matrix, jobs and chat removal are publishes without membership state; which retired blinded addresses a deletion names is not modelled, only the version of the directory entry's.
- Coordinator.EventCoordinator.HandleJoinLocked: proof checking, invite claims and the pending-queue count are inputs of the attempt; display names and profile fields are not modelled.
- Coordinator.EventCoordinator.HandleAdmin: recompute, talk moderation and detach commands have other subjects; a reprocess is its effect on the subject's watermark and one publish; the deferral of a suspended event's command changes nothing and is an attempt that performs no effect.
- Coordinator.EventCoordinator.ProcessRumorWithRetry: back-off times, and payloads dropped because they can never parse.
- MembershipRotation.OneRotationPerRevoke: the cap on the number of key versions one grant can carry.
- MembershipSafety.ReachableStatesAreSafe: an approve refused for space is seen without completing, so nothing is claimed of its outcome.
- Install.Installer.InstallAuthorized: relay lists, subscriptions, backfill, billing and chat set-up; how far they get is one input.
- RosterPages.SplitRoster: returning the very same object for a roster that fits is modelled as returning an equal one.
- RosterPublisher.Publisher.PublishRoster: several relays are one; encryption and signing are not modelled, the relays hold page texts.
- RosterAddress.NothingForeignIsDeleted: match-matrix addresses, which follow the same rule with no page suffix.
- SubjectLock.LockIsExclusive: that the composed key of event and subject is injective.
- Roster page record checks against the `a` tag, and the roster's `d` blinding.
- Key-backup merging: a union of custody copies, by the same key union that is modelled here.
- Menu `r` tags, member posts and their encryption.
- Relay transport, subscriptions, boot, timers, SQLite, AI providers, media, MLS, Cashu.
- Configuration validation, command line, logging, the web and Android clients.
