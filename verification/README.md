# crq, modelled and proved in Dafny

crq is a fleet of daemons and command lines that coordinate code-review bots through one
shared state. Every write to that state is an atomic compare-and-swap closure, and the
network calls sit between the writes. This project models four parts of it and proves what
they promise.

**The coordination protocol.** `Rounds.dfy` has the review rounds, their transitions, the
fire slot and the fire guard. `Closures.dfy` says what each compare-and-swap write does to
the state, and what it did, as events. `SharedState.dfy` is the same state as one mutable
object whose methods are proved to do exactly that, and `Workers.dfy` any run of calls on it.
`Protocol.dfy` runs any number of workers
in any order: every observed round, clock reading and decision a worker brings to a write is
arbitrary, so it may be as stale as it likes. A worker's token is one nobody drew before, its
configuration was current at some earlier point of the run, and the edits of one repository
carry distinct stamps. `Runs.dfy` states what holds in every run, `Claiming.dfy` when two
posts of one trigger can be authorized close together, `Identity.dfy` what Seq and head
identify, `Cooldowns.dfy` that a cooldown is waited out. `FireLog.dfy` is the log of fires,
`Retries.dfy` the replay loop of a lost compare-and-swap, `Leadership.dfy` the leader lease,
and `AccountBlocks.dfy` the account-wide review window.

**Review configuration.** `Reviewers.dfy` builds the list of bots a configuration resolves to
and compares two such lists; `ForRepo.dfy` lays a repository's override over the fleet's
configuration.

**Text machines.** `CodeSpans.dfy`, `MarkdownBlocks.dfy` and `SkipMarker.dfy` are the Markdown
scanner that decides whether a pull request opts out of review (CommonMark 0.31.2, sections
2.2, 2.4, 4.1, 4.2, 4.4, 4.5, 5.1, 5.2 and 6.1), and `LineText.dfy` says what the block scanners do
in terms of the characters of the lines. `DismissPath.dfy` renders a path so that the scanner
reads one code span. `Argv.dfy` is the argument printer and parser. `Text.dfy` holds what they
share.

**Small algorithms.** `ProcessTree.dfy` is the process-tree kill, `Sweeps.dfy` the rotating
sweeps, `Findings.dfy` the finding dedupe.

Strings are sequences of Unicode scalar values: every delimiter the source looks for is
ASCII, so its byte loops and the character loops here take the same branches. Times are
integers. `Round.birth` names a round by the Seq it was created with; the source does not
store it, and nothing decides by it.

Where a promise is false of the code, the code is modelled as it is and a lemma shows the
case:

- `sweepQuotaFree` says rotation reaches every queued round; a queue whose length is a
  multiple of four starves every fourth position (`Sweeps.EveryPositionExactly`).
- `sameRound` says a replacement round has a new Seq; a round moved to the front can share its
  Seq and head with a later one, and a Seq identifies, live or archived, exactly when it is
  positive (`Identity.IdentifiesExactly`, `Identity.IdentifiesArchivedExactly`).
- `ClaimCo` says a claim keeps two sweepers from posting the same command; an adopted fire
  claims over a live claim, and nothing else does (`Claiming.ClaimsOverLiveExactly`,
  `Claiming.SpacedExactly`, `Claiming.AdoptedFireClaimsAgain`); and the self-heal closure keeps
  its captured flag when a replay finds the claim taken (`Retries.SelfHealUpdate` says when,
  `Retries.BeatenWorkerPosts` gives a case).
- `AcceptAccountBlock` says a block only ever extends; the retry transition writes without
  asking (`AccountBlocks.ShortenedExactly`).
- The space a code span leaves can join two words into a marker that contains a space, as the
  default one does (`CodeSpans.ProvenanceExactly`, `SkipMarker.SkipsExactly`).
- The identity of a finding joins its parts with a bar, which they may contain
  (`Findings.SharedExactly` and `Findings.OwnIdentityExactly` say when two findings share one,
  `Findings.IdentitiesCollide` gives a case).

## Model

| member | source | states |
|---|---|---|
| `Runs.RecordedOnlyOnItsRound` | internal/crq/service.go:2410-2448 | In every reachable state, a fire that is recorded changes only the round its token was reserved for, which is still reserved, and leaves the slot alone. |
| `Runs.ParkedOnlyItsRound` | internal/crq/service.go:2007-2019 | A failed post parks only the round the posting worker reserved, and frees the slot only if it holds that round and token. |
| `Runs.OneFirePerReservation` | internal/crq/service.go:1973-1987 | Each reservation fires at most once, after the reservation and on the same round. |
| `Runs.FireLogIsTrue` | internal/state/firelog.go:36-95 | In every reachable state the stored fire log is sorted, holds no time more often than fires happened at it, and counts the fires since any time inside the window exactly, up to what the log holds. |
| `FireLog.NotedIsStored` | internal/state/firelog.go:41-95 | Noting fires one by one, sorting and trimming each time, stores what sorting and trimming all of them at once would. |
| `FireLog.StoredIsNoted` | internal/state/firelog.go:67-95 | The log is sorted, bounded, and holds no time more often than it was noted. |
| `FireLog.CountIsExact` | internal/state/firelog.go:98-113 | Counting since any time inside the window counts every fire noted since, up to what the log holds. |
| `Runs.OneReservedRound` | internal/state/state.go:1561-1586 | At most one round is ever reserved, and the fire slot stores its key and token. |
| `Runs.ReservationFindsSlotFree` | internal/crq/service.go:1899-1902 | No reservation, posted or adopted, commits while a round is reserved or fired under the slot's token or a hold of the slot is ahead, and the one that commits takes the slot. |
| `Runs.HeldIsQuiet` | internal/crq/service.go:201-221 | While an operator's or an agent's hold stands, the live round is not reserved and carries no outstanding co-reviewer claim. |
| `Runs.HoldIsABarrier` | internal/crq/service.go:1466-1472 | From the moment any hold commits until it is released, no write of any run reserves, claims or re-stamps a claim for that pull request, and the hold stays. |
| `Runs.GrantsAreUnheld` | internal/crq/service.go:2098-2100 | Every event that authorizes a post names the live round of a pull request that is not held. |
| `Runs.GrantsAreCurrent` | internal/crq/service.go:1899-1902 | In every reachable state, whatever authorizes a post concerns the round its worker read, by Seq and head, and was decided under the configuration that is current, however old the reading; and but for a deferred claim or a self-heal the round waits, is past its cooldowns and is in no fix session. |
| `Claiming.ClaimsAreExclusive` | internal/crq/service.go:2101-2116 | A guarded claim comes at least a claim lifetime after any earlier claim of its round and bot, unless in between a command was recorded, a claim was let go, or an adopted fire stamped an older clock reading. |
| `Claiming.ClaimsOverLiveExactly` | internal/crq/service.go:1929-1934 | In every reachable state a write authorizes a post for a bot whose stored claim is live exactly when it is an adopted fire that commits, names the bot, and finds its claim live. |
| `Claiming.SpacedExactly` | internal/crq/service.go:1929-1934 | In a run all claims of one round and bot with nothing between that ended the first, adopted ones included, are a claim lifetime apart exactly when no adopted fire of the run commits over a live claim or stamps a bot twice. |
| `Claiming.ClaimsFollowHistory` | internal/state/state.go:298-316 | The claim and the command stored for every login of every live or archived round are exactly those the history of grants, commands and releases implies. |
| `Claiming.LateTriggerKeepsCommand` | internal/crq/service.go:2518-2540 | A worker reads a round in one reachable state and reports its post after any further run: if a new command was recorded for the bot since, that command stays, on the live round and on the archived one. |
| `Runs.MarkerNeverOutlivesItsReviewers` | internal/crq/repoconfig.go:495-584 | A completed round that is not marked was decided under a configuration that asked for everything the current one asks for, in every interleaving of edits, stale decisions and enqueues. |
| `Runs.EnqueueDedupesOnlyAnswered` | internal/crq/service.go:529-546 | An enqueue takes a completed head for answered only when no reviewer was added since it was decided. |
| `Runs.AnswersAreCurrent` | internal/crq/feedback.go:1136-1141 | In every reachable state, whatever decides that a head is answered concerns the round its worker had before it, at the head it named, completes that round, and was decided under the configuration that is current. |
| `Cooldowns.CooldownIsWaitedOut` | internal/crq/service.go:1394-1410 | Over any run of writes decided before its end, a parked round is not reserved and stays parked until then for as long as it is live, whatever other rounds, holds, edits and waits do; only a fix session of its own may wake it. |
| `Identity.SeqIdentifies` | internal/crq/service.go:1443-1445 | A round never moved to the front is identified by Seq and head: sameRound accepts no other round for it. |
| `Identity.SeqIsReused` | internal/state/state.go:1243-1257 | For every negative Seq some run gives it out twice at one head, and sameRound accepts the second round for the first. |
| `Identity.IdentifiesExactly` | internal/crq/service.go:1443-1445 | For every Seq a reachable round can hold, sameRound accepts only the round a worker read, in all runs, exactly when the Seq is positive. |
| `Identity.IdentifiesArchivedExactly` | internal/crq/service.go:1451-1458 | For every Seq a reachable round can hold: once the round a worker read is no longer live, archivedRound answers with no other round of any pull request, in all runs, exactly when the Seq is positive. |
| `Claiming.AdoptedFireClaimsAgain` | internal/crq/service.go:1929-1934 | A concrete run in which an adopted fire authorizes a second post for a bot inside a claim lifetime. |
| `Workers.Perform` | internal/state/store.go:313-347 | Every kind of write is a call of a method of the shared object, and leaves it as the step of the run theorems says. |
| `Workers.Run` | internal/state/store.go:313-347 | Whatever calls a run makes on a new object, it holds the state of that run, and the invariant. |
| `Runs.RunKeeps` | internal/state/store.go:313-347 | The invariant holds after any sequence of the writes below, whoever makes them and with whatever stale readings. |
| `Runs.StartOk` | internal/state/state.go:929-931 | The empty state satisfies the invariant. |
| `Protocol.StepKeeps` | internal/state/store.go:313-347 | Every one of the thirty kinds of write keeps the invariant. |
| `Protocol.UnchangedIsCurrent` | internal/crq/reviewers.go:437-454 | With distinct edit stamps, a configuration whose stamp is still recorded is the current one, however old the reading it came from. |
| `Protocol.NarrowedStands` | internal/crq/repoconfig.go:517-553 | An edit that adds nothing leaves every finished answer standing under the new configuration. |
| `Retries.SelfHealUpdate` | internal/crq/service.go:2693-2714 | The self-heal worker posts exactly when its claim landed, or when an earlier attempt was beaten before it found the claim taken. |
| `Retries.ResettingUpdate` | internal/crq/service.go:2094-2117 | With the reset the list-claiming closures start with, the worker acts on exactly the claims and adoptions that landed, and on none when nothing did. |
| `Retries.BeatenWorkerPosts` | internal/crq/service.go:2693-2714 | A self-heal worker can post while another worker's claim stands. |
| `SharedState.Store.EndRound` | internal/state/state.go:1536-1549 | The round leaves the queue, abandoned, for the end of an archive of at most fifty that keeps the newest; every other round and the slot stay. |
| `SharedState.Store.Supersede` | internal/state/state.go:1553-1556 | The old round is archived and a waiting one, without token or claims, takes a Seq above every one given out; every other round and the slot stay. |
| `Rounds.HoldThenClear` | internal/state/state.go:1591-1623 | A hold stands in as the pacing anchor, and clearing it puts the anchor back, exactly unless it cut short a standing hold that was the anchor. |
| `Rounds.NormalizeIsNeutral` | internal/state/state.go:2630-2648 | Normalizing never changes whether the slot is held, and a second time changes nothing. |
| `SharedState.Store.NoteFire` | internal/state/firelog.go:41-95 | The fire is appended, the log sorted and trimmed; it stays bounded and gains no time but this one. |
| `SharedState.Store.ReleaseSlot` | internal/crq/service.go:1431-1436 | A slot stored under this key and token is freed and held by nothing; under any other nothing changes. |
| `SharedState.Store.HoldSlotUntil` | internal/state/state.go:1591-1611 | A taken slot keeps its token and is held at every instant before the deadline; no round changes. |
| `SharedState.Store.Normalize` | internal/state/state.go:2630-2648 | The two records of a hold are folded and a slot nothing holds is dropped; whether the slot is held at that instant does not change. |
| `SharedState.Store.Enqueue` | internal/crq/service.go:500-559 | Which head is refused, deduped, waiting or queued, exactly: only a fired, reviewing, expired or unmarked completed round dedupes its head; a marked completed one waits again under its own Seq, another head gets the next Seq, and anything but a queued answer changes nothing. |
| `SharedState.Store.LowestOrder` | internal/state/state.go:1248-1253 | The least Seq of the live rounds, or zero. |
| `SharedState.Store.Prioritize` | internal/crq/service.go:392-404 | A waiting round gets a Seq below every other; nothing else changes. |
| `SharedState.Store.SupersedeRound` | internal/crq/service.go:1870-1876 | The observed round, if it still stands, is replaced by one at the new head with a Seq above every one given out; otherwise nothing changes. |
| `SharedState.Store.AbandonRound` | internal/crq/service.go:1786-1801 | The observed round, if it still stands, is ended, and the slot freed only if it holds that round's key and token. |
| `SharedState.Store.Cancel` | internal/crq/service.go:2724-2734 | The live round is ended and the slot does not keep its token. |
| `SharedState.Store.Confirm` | internal/crq/confirmation.go:80-111 | A same-head confirmation commits exactly under its guards; a waiting round at that head with a new Seq takes the old one's place, and otherwise nothing changes. |
| `SharedState.Store.DispatchRound` | internal/state/state.go:1922-2000 | A fix session hides or shows a waiting round; on any other only who works on it changes, and no other round. |
| `SharedState.Store.Replace` | internal/crq/service.go:1138-1158 | A dismissal or a fix session leaves a round at its head, replacing one at another head, held or not; no other round and no slot changes. |
| `SharedState.Store.Repair` | internal/crq/service.go:3209-3217 | A completed round at this head is ended; no other round and no slot changes. |
| `SharedState.Store.PostClaimed` | internal/crq/service.go:418-435 | A reservation, or any claim without a recorded command, counts as a post under way. |
| `SharedState.Store.PlaceHold` | internal/crq/service.go:202-220 | A hold commits exactly for its owner, under a capable leader, and with no post under way; no round and no other hold changes. |
| `SharedState.Store.BudgetHold` | internal/crq/service.go:1716-1736 | The budget hold commits exactly on the observed round while the budget is spent and no hold stands. |
| `SharedState.Store.Unhold` | internal/crq/service.go:315-329 | The hold is gone, no other is; whether there was one is reported exactly. |
| `SharedState.Store.ReserveFire` | internal/crq/service.go:1973-1987 | The write wins exactly when no round is reserved or fired under the slot and no hold of it is ahead, the round is the one observed, waiting and due, nothing holds its pull request and its reviewers are those it was decided for; then it is reserved and the slot held, and otherwise nothing changes. |
| `SharedState.Store.AdoptFire` | internal/crq/service.go:1896-1953 | The write commits exactly under its guards; then the round is fired with its command and the slot is taken, and otherwise nothing changes. |
| `SharedState.Store.PostFailed` | internal/crq/service.go:2007-2019 | Exactly a reserved, fired or reviewing round with this token is parked for two minutes, within which it cannot fire, and frees its own slot; otherwise nothing changes. |
| `SharedState.Store.RecordFire` | internal/crq/service.go:2413-2443 | The write records exactly when round and slot still hold the token; then the round is fired with its command, time and deadline, and otherwise nothing changes. |
| `SharedState.Store.ClaimEvery` | internal/crq/service.go:1929-1934 | Every named login is claimed at this reading, no other claim and no command changes. |
| `SharedState.Store.ClaimWhereFree` | internal/crq/service.go:2101-2111 | Exactly the named logins with neither a command nor a live claim are claimed at this reading and reported, in order; every other entry is left alone. |
| `SharedState.Store.RecordPosts` | internal/crq/service.go:2214-2219 | For each login without a command the first comment is recorded; a recorded command, and a login without a comment, is never touched. |
| `SharedState.Store.AdoptPosts` | internal/crq/service.go:2592-2614 | For each login with neither a command nor a live claim the first comment is adopted; every other entry is left alone. |
| `SharedState.Store.ClearClaims` | internal/crq/service.go:2142-2144 | Exactly the named claims are cleared; every other claim and every command stays. |
| `SharedState.Store.ArchivedRound` | internal/crq/service.go:1451-1458 | The newest archived round with the observed Seq and head, whichever pull request it is of. |
| `SharedState.Store.ClaimCoOnly` | internal/crq/service.go:2093-2117 | The answer lists, in order, exactly the logins whose claims authorize co-reviewer-only posts; no other round changes. |
| `SharedState.Store.CoOnlyFailed` | internal/crq/service.go:2136-2163 | The round is parked with its cooldown, or its archived claims cleared; no other round and no slot changes. |
| `SharedState.Store.CoOnlyRecord` | internal/crq/service.go:2177-2223 | A round that can still fire is fired on its first co-reviewer comment without a token; no slot changes. |
| `SharedState.Store.ClaimDeferred` | internal/crq/service.go:2581-2633 | The answers are exactly how many commands are adopted and, in order, exactly the logins whose claims are granted while the primary waits. |
| `SharedState.Store.ClaimSelfHeal` | internal/crq/service.go:2695-2709 | The claim commits exactly against the command it was decided on, on an unheld pull request without a live claim. |
| `SharedState.Store.TriggerFailed` | internal/crq/service.go:2502-2512 | No live round changes; an archived round's claim is cleared. |
| `SharedState.Store.NoteTrigger` | internal/crq/service.go:2529-2535 | The bot's claim is let go; its command becomes the posted one if it is still the one the worker saw, and stays otherwise; no other bot's entry changes. |
| `SharedState.Store.TriggerRecorded` | internal/crq/service.go:2518-2540 | The outcome of a post lands on the observed round, live or archived, and on no other live round. |
| `SharedState.Store.CoReviewWait` | internal/crq/service.go:2368-2391 | The observed round is parked until its co-reviewers answer exactly when it still stands and may fire. |
| `SharedState.Store.Transition` | internal/crq/service.go:1312-1426 | Under the guard of the caller that saw the slot's token or the round, the outcome is applied to the live round, and otherwise nothing changes; no other round changes, and the slot only if it holds this round's key and token. |
| `Closures.CompletesExactly` | internal/crq/service.go:1367-1379 | Completing turns exactly a fired or reviewing round, under the reviewers it was decided for, into the same round completed, and frees the slot it held. |
| `Closures.ExpiresExactly` | internal/crq/service.go:1380-1389 | Expiring turns exactly a reviewing round, under the reviewers it was decided for and with no older writer about, into the same round expired, without a token, and frees the slot it held. |
| `Closures.AcknowledgesExactly` | internal/crq/service.go:1390-1393 | An acknowledgement turns exactly a fired or reviewing round into the same round reviewing, whatever the reviewers, and frees the slot it held. |
| `Closures.RetriesExactly` | internal/crq/service.go:1394-1410 | A retry parks exactly a reserved, fired or reviewing round, under unchanged policy, until the time it names: it waits without a token, cannot fire before then, and frees the slot it held; in a repository turned off it ends the round instead. |
| `Closures.ReleasesExactly` | internal/crq/service.go:1411-1414 | Releasing puts exactly a reserved round, under the reviewers it was decided for, back in the queue without a token and with one attempt more, and frees the slot it held. |
| `Closures.AbandonsExactly` | internal/crq/service.go:1415-1419 | Abandoning ends the round, whatever the reviewers: it leaves the queue for the end of the archive, and the slot it held is free. |
| `SharedState.Store.CompleteWait` | internal/crq/feedback.go:1127-1176 | A wait for another head changes nothing; what changes is this round, completed, or the slot; no other round does. |
| `Closures.WaitEndsExactly` | internal/crq/feedback.go:1127-1176 | Exactly a fired or reviewing round, at the head the waiter names and under the reviewers it was decided for, is completed and frees the slot it held; while an answer is owed and the slot is its own, the slot is instead held for exactly the rest of the in-flight window, and never for less than it was. |
| `SharedState.Store.DedupeRound` | internal/crq/service.go:1825-1850 | The observed round is completed as already reviewed exactly when it may fire under unchanged reviewers. |
| `SharedState.Store.ArchivedClaimed` | internal/crq/enrollment.go:189-203 | An archived round's post counts as under way for one claim lifetime. |
| `SharedState.Store.ClaimedRepo` | internal/crq/enrollment.go:171-184 | Some live or archived round of the repository has a post under way. |
| `SharedState.Store.SameAsBefore` | internal/crq/repoconfig.go:665-670 | Decides whether two configurations name the same reviewers. |
| `SharedState.Store.ReopenOne` | internal/crq/repoconfig.go:528-579 | The same round, never left completed and unmarked: an open one waits again, free of any token, a closed one is marked, and a round that is not completed is left alone. |
| `SharedState.Store.ReopenAll` | internal/crq/repoconfig.go:521-583 | The loop reopens the completed rounds of the repository that are of open pull requests and marks its others, and touches no other round. |
| `SharedState.Store.ReopenedExactly` | internal/crq/repoconfig.go:521-583 | Exactly the completed rounds of the repository change: of an open pull request, one waits again without token, deadline or cooldown; of another, it is marked. |
| `SharedState.Store.ReopenForChangedReviewers` | internal/crq/repoconfig.go:495-584 | Rounds are reopened and marked exactly when the edit names other reviewers and adds something. |
| `SharedState.Store.SetReviewers` | internal/crq/repoconfig.go:170-192 | An edit that would leave nobody required, changes nothing, or finds a post under way is not written; any other replaces the repository's override, or drops an empty one, and reopens rounds exactly when it adds something. |
| `SharedState.Store.ClearReviewers` | internal/crq/repoconfig.go:303-322 | Exactly an override that is there and finds no post under way is dropped, and rounds are reopened exactly when that adds something. |
| `Reviewers.BuildReviewers` | internal/crq/reviewers.go:96-161 | The list is the primary, then the co-reviewers, then whatever else is required, each bot at its first mention. |
| `Reviewers.BuiltExactly` | internal/crq/reviewers.go:96-161 | For any settings the list has distinct bots, holds exactly the participants, is metered exactly at the primary, and reads each entry from its own setting. |
| `Reviewers.EntriesExactly` | internal/crq/reviewers.go:96-161 | Every field of an entry: the primary's are its own, a co-reviewer's those it was first configured with, anyone else's empty; and a bot gates exactly when the required list names it, or it is configured as required. |
| `Reviewers.BuiltInOrder` | internal/crq/reviewers.go:96-161 | The primary comes first, then the co-reviewers in the order they were configured, then the others. |
| `Reviewers.KeyExactly` | internal/dialect/common.go:253-255 | One "[bot]" is taken off the end of a login, and nothing else. |
| `Reviewers.CompareLogins` | internal/crq/repoconfig.go:700-716 | The counting loop decides whether the normalized logins are equal as multisets. |
| `Reviewers.AddedReviewers` | internal/crq/repoconfig.go:802-831 | The loops decide whether the later configuration asks for something new, as stated next. |
| `Reviewers.AddedExactly` | internal/crq/repoconfig.go:802-842 | Something new is asked for exactly when a login becomes required, a reviewer starts to run on an account, or a bot that spends none goes from never to self-heal, from never to always, or from self-heal to always. |
| `Reviewers.AddsNothingToItself` | internal/crq/repoconfig.go:802-831 | "Asks for nothing new" is reflexive on built configurations. |
| `Reviewers.AddsToItself` | internal/crq/repoconfig.go:802-831 | It is not reflexive when a login repeats. |
| `Reviewers.AddsNothingTransitive` | internal/crq/repoconfig.go:802-831 | "Asks for nothing new" is transitive. |
| `Reviewers.SameReviewersReflexive` | internal/crq/repoconfig.go:665-697 | Naming the same reviewers is reflexive. |
| `Reviewers.SameReviewersSymmetric` | internal/crq/repoconfig.go:665-697 | It is symmetric, because logins are distinct. |
| `Reviewers.SameReviewersTransitive` | internal/crq/repoconfig.go:665-697 | It is transitive. |
| `Reviewers.TriggerSettingsOneWay` | internal/crq/repoconfig.go:675-697 | With a repeated login the trigger comparison can hold one way only. |
| `Reviewers.SameReviewersAddNothing` | internal/crq/repoconfig.go:665-716 | Under one primary, naming the same reviewers asks for nothing new. |
| `Reviewers.SameReviewersExactly` | internal/crq/repoconfig.go:665-716 | Two built configurations name the same reviewers exactly when the same bots gate, the same bots run, and each has the same mode and, white space aside, the same command. |
| `ForRepo.ForRepo` | internal/crq/reviewers.go:195-298 | The loops compute the overridden configuration the lemmas below are about. |
| `ForRepo.RequiredFor` | internal/crq/reviewers.go:202-215 | Who gates: the half the override names, less a primary that is off. |
| `ForRepo.EnabledFor` | internal/crq/reviewers.go:217-235 | Who runs: the half the override names, and every known bot that gates. |
| `ForRepo.CoBotsFor` | internal/crq/reviewers.go:237-287 | The fleet's entries that are kept, the silenced primary entry, and the bots the repository brings. |
| `ForRepo.RequiredExactly` | internal/crq/reviewers.go:202-215 | A bot gates exactly when the half that decides names it and it is not a primary that is off. |
| `ForRepo.EnabledExactly` | internal/crq/reviewers.go:217-235 | A bot runs exactly when the half that decides names it, or it gates, is in the registry and is not the primary. |
| `ForRepo.KnownExactly` | internal/crq/reviewers.go:458-468 | The settings of a bot are the operator's first entry for its login or name; without one, the registry's with its command trimmed; and none for a bot in neither. |
| `ForRepo.ReconciledExactly` | internal/crq/reviewers.go:310-326 | An operator's mode stands; else a bot without a command is never asked, one that gates in the registry's mode for that when it has one, and any other in the registry's default mode. |
| `ForRepo.EqualFoldExactly` | internal/crq/reviewers.go:458-468 | Two names are one when they have the same letters in the same places, capitals aside. |
| `ForRepo.ForRepoExactly` | internal/crq/reviewers.go:195-298 | Distinct bots; one metered, the primary, exactly when there is one and it is on; and an entry for every gating bot of the registry. |
| `ForRepo.GateIsRequired` | internal/crq/reviewers.go:289-293 | The gate is exactly the required list: every bot on it reviews, and no other gates. |
| `ForRepo.CoBotsExactly` | internal/crq/reviewers.go:237-287 | Every co-reviewer entry is the one its bot's settings give under the required list, and every enabled known bot has one. |
| `ForRepo.ModesExactly` | internal/crq/reviewers.go:237-287 | Every entry but the primary's is of an enabled bot, has its settings, gates exactly when the required half names it, and is asked in the mode that goes with that. |
| `ForRepo.PrimaryEntryExactly` | internal/crq/reviewers.go:237-262 | The primary's own co-reviewer entry is the fleet's as it is, or one that is never triggered and gates exactly when the required half names the primary. |
| `ForRepo.ForRepoIdempotent` | internal/crq/reviewers.go:195-298 | Applying an override twice gives exactly what applying it once does. |
| `ForRepo.StaysWellFormed` | internal/crq/reviewers.go:367-420 | An override of a well-formed configuration is well formed, so layers stack. |
| `ForRepo.BothHalvesDecide` | internal/crq/fleetsettings.go:509-512 | With both halves overridden, two configurations that differ only in typed defaults have the same reviewers. |
| `ForRepo.FleetDefaultsHidden` | internal/crq/fleetsettings.go:509-512 | Fleet defaults under an override of both halves change no reviewer. |
| `ForRepo.UnderResolved` | internal/crq/reviewers.go:289-297 | An overridden configuration has a list built from its own settings, and the same primary. |
| `Leadership.LeaderStore.RenewLeader` | internal/crq/auto.go:258-284 | The lease after a renewal, and exactly when it is refused. |
| `Leadership.LeaderStore.ReleaseLeader` | internal/crq/auto.go:211-229 | Only the holder's own lease is released. |
| `Leadership.LeasesNeverOverlap` | internal/crq/auto.go:258-284 | Two workers never hold leases that both outlast every clock reading, whatever the lease lengths, heartbeats, releases and steals. |
| `Leadership.SkewMakesTwoLeaders` | internal/crq/auto.go:258-284 | A clock reading ahead of the clock makes two leaders. |
| `Leadership.OneLeaderExactly` | internal/crq/auto.go:258-284 | At every instant at most one worker takes itself for the leader, exactly when no reading is ahead of the clock. |
| `AccountBlocks.Account.RecordObserved` | internal/crq/service.go:1023-1034 | A notice is written exactly when it ends later than the standing window, or ends with it and is newer than the one it came from. |
| `AccountBlocks.Account.ApplyNotice` | internal/crq/service.go:1477-1491 | The window ends where the notice says, none is left, and the watermark moves exactly to a newer comment. |
| `AccountBlocks.Account.RecordCli` | internal/crq/service.go:1201-1240 | The local CLI's refusal is written exactly when it extends the window for the matching account. |
| `AccountBlocks.Account.RecordReading` | internal/crq/service.go:2778-2845 | A reading is dropped exactly when the evidence moved or a conclusive one is still fresh; a running window that ends later stands unless the reading says reviews are left, and keeps its remaining count when the reading has none. |
| `AccountBlocks.ShortenedExactly` | internal/engine/engine.go:285-290 | A running window ends earlier after a write exactly when a probe read that reviews are left, or a retry wrote a notice that ends sooner. |
| `AccountBlocks.WindowNeverShortened` | internal/crq/service.go:1023-1051 | Over any interleaving without such a write, a running window never ends earlier than it did. |
| `AccountBlocks.AppliedIsSpent` | internal/crq/service.go:1057-1071 | Once applied, a notice changes nothing more. |
| `AccountBlocks.OneWritePerNotice` | internal/crq/service.go:1057-1071 | While its window runs, a notice costs at most one write however often it is observed. |
| `Sweeps.Cursor.Advance` | internal/crq/service.go:3373-3381 | The key inspected is the least above the last, or the least; and it is remembered. |
| `Sweeps.EveryKeyInspected` | internal/crq/service.go:3527-3535 | A key present at every sweep is inspected within as many sweeps as there are keys between the cursor and it. |
| `Sweeps.InspectedWithinUniverse` | internal/crq/service.go:3373-3381 | A key present at every sweep is inspected within as many sweeps as the universe has keys, however the others come and go. |
| `Sweeps.Scanner.Sweep` | internal/crq/service.go:874-895 | A sweep observes, in order around the queue, the rounds it does not skip, up to three of them or the first that resolves; and where the next one starts. |
| `Sweeps.EveryPositionExactly` | internal/crq/service.go:874-895 | Over a fixed queue of quota-spending rounds every position is eventually observed exactly when the length is not a multiple of four. |
| `Sweeps.StarvedPosition` | internal/crq/service.go:881-892 | With such a length, the fourth position from the start is never observed. |
| `Findings.DedupeFindings` | internal/crq/feedback.go:1659-1714 | The loop computes the findings the following rows are about. |
| `Findings.Labelled` | internal/crq/feedback.go:1669-1683 | Title and body lose the white space around them, a label the bot put in the body stands for the finding's own, and nothing else changes. |
| `Findings.SurvivorsExactly` | internal/crq/feedback.go:1684-1707 | Whatever comes out asks for something and carries an identity: the one its bot keeps for the bug, which is not settled, or else one of place, wording and thread; a prompt's finding stands at no structured finding's place and at no settled thread's. |
| `Findings.NothingElseLost` | internal/crq/feedback.go:1684-1713 | Any other finding has its identity in the output: one is lost only for asking nothing, for being a prompt's at such a place, or for its bot's identity being settled. |
| `Findings.DedupedExactly` | internal/crq/feedback.go:1659-1714 | Identities are distinct, each kept finding is the first of its identity, order follows the input, and nothing that passes is missed. |
| `Findings.NoPromptShadows` | internal/crq/feedback.go:1661-1690 | No surviving prompt finding shares bot, path and line with a structured finding, nor its place with a settled thread. |
| `Findings.DedupeIdempotent` | internal/crq/feedback.go:1659-1714 | Deduping what was deduped changes nothing. |
| `Findings.SharedExactly` | internal/crq/feedback.go:1692-1707 | A finding without a key of its own shares its identity with another at its place exactly when its title and body also read as another title and body. |
| `Findings.OwnIdentityExactly` | internal/crq/feedback.go:1692-1707 | Of a bot that keeps no keys, a finding has its identity to itself at its place exactly when neither its title nor its body holds a bar. |
| `Findings.IdentityInjective` | internal/crq/feedback.go:1692-1707 | Findings with bars only in their bodies share an identity only when they agree on bot, path, line, title, body and thread. |
| `Findings.IdentitiesCollide` | internal/crq/feedback.go:1692-1707 | Two findings that differ in title and body and share an identity. |
| `Findings.RivalDropped` | internal/crq/feedback.go:1692-1714 | Of two findings that share an identity and differ in wording the second is dropped. |
| `Findings.SettledIds` | internal/crq/feedback.go:442-474 | The loop collects exactly the identities settled somewhere and not open at the head unless settled there. |
| `Findings.SettledExactly` | internal/crq/feedback.go:442-474 | An identity is settled exactly when a settled thread names it and, if an open thread names it at the head, a settled one does so too. |
| `Findings.SettledInAnyOrder` | internal/crq/feedback.go:442-474 | That set does not depend on the order of the threads. |
| `CodeSpans.StripCodeSpans` | internal/crq/skipmarker.go:344-368 | The loop computes the text with each span of its one reading replaced by a space. |
| `CodeSpans.MatchingBacktickRun` | internal/crq/skipmarker.go:377-393 | The end of the first stretch of exactly as many backticks as wanted, with none on either side, or none. |
| `CodeSpans.BacktickEscaped` | internal/crq/skipmarker.go:395-402 | An odd number of backslashes stands before. |
| `CodeSpans.SegmentExactly` | internal/crq/skipmarker.go:344-393 | A character that is no backtick stands for itself, and so does a backtick after an odd number of backslashes; any other begins a run, which is a span up to the first stretch of exactly its length, and stands for itself when there is none. |
| `CodeSpans.SplitUnique` | internal/crq/skipmarker.go:344-393 | A text splits into literal characters, escaped backticks, unmatched runs and spans in at most one way. |
| `CodeSpans.SplitWritten` | internal/crq/skipmarker.go:344-393 | The segments of a split write the text back. |
| `CodeSpans.MarkerCameFrom` | internal/crq/skipmarker.go:364-365 | A space-free marker in the stripped text is a contiguous occurrence outside every span. |
| `CodeSpans.MarkerSurvives` | internal/crq/skipmarker.go:344-368 | An occurrence outside every span survives stripping. |
| `CodeSpans.CameFrom` | internal/crq/skipmarker.go:364-365 | A marker in the stripped text, none of whose characters a span left, is a contiguous occurrence outside every span. |
| `CodeSpans.SameSlashes` | internal/crq/skipmarker.go:344-368 | As many backslashes stand before a position of the stripped text as before where it came from, so stripping neither escapes a marker nor frees one. |
| `CodeSpans.StripFindsExactly` | internal/crq/skipmarker.go:344-393 | For space-free markers, looking in the stripped text is looking in the text outside its spans. |
| `CodeSpans.SpaceForgesMarker` | internal/crq/skipmarker.go:364-365 | A marker with an inner space can be forged by the space a span leaves. |
| `CodeSpans.ProvenanceExactly` | internal/crq/skipmarker.go:344-393 | Every surviving marker stands in the text outside spans, for all texts, exactly when the marker has no space. |
| `DismissPath.DismissPath` | internal/crq/dismiss.go:231-247 | The rendering strips to a single space exactly when the path holds more than white space; the delimiter is one longer than the longest backtick run. |
| `DismissPath.OneLineExactly` | internal/crq/dismiss.go:232 | The text of the span is the words of the path, in order, one space apart: the path is those words with white space before, between and after them. |
| `MarkdownBlocks.LeadingIndent` | internal/crq/skipmarker.go:261-274 | Columns and characters of leading white space, tabs to the next multiple of four. |
| `MarkdownBlocks.ColumnsAreChars` | internal/crq/skipmarker.go:276-281 | A line indented fewer than four columns is indented by that many spaces, so the column count is a valid index. |
| `MarkdownBlocks.BlockQuoteContent` | internal/crq/skipmarker.go:124-141 | The line inside its block quotes, and their depth. |
| `MarkdownBlocks.ListContentIndent` | internal/crq/skipmarker.go:214-259 | Where a list item's content starts, if the line begins one. |
| `MarkdownBlocks.TrackListContainer` | internal/crq/skipmarker.go:406-418 | The stack of list items after a line. |
| `MarkdownBlocks.TrackedIncreasing` | internal/crq/skipmarker.go:406-418 | The columns on the stack always strictly increase. |
| `MarkdownBlocks.Dedent` | internal/crq/skipmarker.go:430-447 | What is left of a line: the text after the shortest leading white space that takes the columns, nothing of a shorter line of white space, and otherwise the whole line. |
| `MarkdownBlocks.MarkdownFence` | internal/crq/skipmarker.go:324-342 | The fence delimiter of a line, at least three marks long. |
| `MarkdownBlocks.IsThematicBreak` | internal/crq/skipmarker.go:295-315 | At least three of one rule mark and nothing else but white space. |
| `MarkdownBlocks.ContinuesParagraph` | internal/crq/skipmarker.go:276-293 | A paragraph may go on after the line. |
| `MarkdownBlocks.StripFencedCode` | internal/crq/skipmarker.go:64-118 | The text with exactly the fenced lines taken out, which the next rows say in terms of characters. |
| `LineText.FenceStarts` | internal/crq/skipmarker.go:80-104 | Where no fence is open, or the line leaves the quote of the one that is, the line is taken out exactly when, inside its quotes and list item, it is at most three spaces, three marks or more, and no backtick after backticks; the fence has as many marks and stands in as many quotes. |
| `LineText.FenceStands` | internal/crq/skipmarker.go:93-115 | While no line that stays in its quote shows, inside the quotes and the list item and after at most three spaces, as many of its marks or more and nothing after them, a fence goes on and every line is taken out; after one that does, which is taken out too, none is open. |
| `LineText.OpensExactly` | internal/crq/skipmarker.go:324-342 | The lines that open a fence are exactly those of at most three spaces, three marks or more, and no backtick after backticks. |
| `LineText.ClosesExactly` | internal/crq/skipmarker.go:110-114 | The lines that close one are exactly those of at most three spaces, as many marks or more, and then white space. |
| `LineText.UnquotedExactly` | internal/crq/skipmarker.go:124-141 | A line is read after the quote marks it begins with, each at most three spaces, the mark and one blank, and in as many quotes. |
| `LineText.DedentExactly` | internal/crq/skipmarker.go:430-447 | Inside a list item a line loses the least white space that takes its columns, and stays whole when its text begins before. |
| `LineText.ListContentExactly` | internal/crq/skipmarker.go:214-259 | A line begins a list item exactly when, within three columns of its container, a bullet or up to nine digits and a period or parenthesis stand before nothing or a blank; and the column the content begins in. |
| `LineText.TrackedExactly` | internal/crq/skipmarker.go:406-418 | A line with text leaves exactly the list items that begin to the right of it and may begin one; a line without changes none. |
| `LineText.IndentExactly` | internal/crq/skipmarker.go:261-274 | The white space a line begins with, whole, and the columns it takes. |
| `MarkdownBlocks.StripIndentedCode` | internal/crq/skipmarker.go:143-209 | The text with exactly the indented code lines taken out, which the next rows say in terms of characters. |
| `LineText.IndentedByText` | internal/crq/skipmarker.go:143-206 | A line is indented code exactly when its text begins no list item and stands four columns or more into the innermost open item not right of it, and no line of its quote opened a paragraph that every line since has carried on. |
| `LineText.StackExactly` | internal/crq/skipmarker.go:162-180 | The list items a line finds open are those the last line of its quote left, and none once a line of a shallower quote came in between. |
| `LineText.DepthExactly` | internal/crq/skipmarker.go:153-161 | A line is read in its own quotes, unless it has text, is in fewer than the line before, and carries on a paragraph open there. |
| `LineText.ContinuesExactly` | internal/crq/skipmarker.go:276-293 | A paragraph may go on exactly after a line whose text stands within three spaces and is neither a heading nor a rule. |
| `LineText.HeadingExactly` | internal/crq/skipmarker.go:282-290 | A heading is one to six number signs and then nothing or a blank. |
| `LineText.RuleExactly` | internal/crq/skipmarker.go:295-315 | A rule is three or more of one mark among blanks. |
| `MarkdownBlocks.ClearedLines` | internal/crq/skipmarker.go:64-118 | Taking lines out keeps the line count, each line the one that was there or blank. |
| `MarkdownBlocks.FenceInvariant` | internal/crq/skipmarker.go:64-118 | Before every line of every text an open fence has at least three marks and the list stack strictly increases. |
| `MarkdownBlocks.FencedExactly` | internal/crq/skipmarker.go:79-115 | A line is taken out exactly when it starts a fence, or some fence is open before it whose quote it does not leave. |
| `MarkdownBlocks.OpenIsRemembered` | internal/crq/skipmarker.go:79-115 | A fence no line since has closed or left is the one the scanner remembers. |
| `MarkdownBlocks.RememberedIsOpen` | internal/crq/skipmarker.go:79-115 | The fence the scanner remembers was started by a line, and none since closed or left it. |
| `MarkdownBlocks.IndentInvariant` | internal/crq/skipmarker.go:143-206 | Before every line of every text the current container exists, its list stack strictly increases, and the relative indent is never negative. |
| `MarkdownBlocks.IndentedExactly` | internal/crq/skipmarker.go:143-206 | A line is taken out exactly when it has text, begins no list item, stands four columns or more into its own, and no earlier line of its block quote left a paragraph open. |
| `SkipMarker.ContainsUnescapedMarker` | internal/crq/skipmarker.go:29-50 | Some occurrence, overlaps included, does not begin with an ASCII punctuation character after an odd number of backslashes. |
| `SkipMarker.StripCode` | internal/crq/skipmarker.go:60-62 | The three passes, one after another. |
| `SkipMarker.SkipsReview` | internal/crq/skipmarker.go:18-24 | A non-empty marker stands unescaped in what the passes leave. |
| `SkipMarker.PlainUntouched` | internal/crq/skipmarker.go:60-62 | On a body with no backtick, no tilde and no line indented four columns, every pass is the identity. |
| `SkipMarker.PlainReading` | internal/crq/skipmarker.go:18-62 | Such a body skips review exactly when the marker stands in it unescaped. |
| `SkipMarker.BlockPassesFindExactly` | internal/crq/skipmarker.go:64-209 | A marker that fits on a line survives a block pass exactly in a line the pass keeps. |
| `SkipMarker.StripReads` | internal/crq/skipmarker.go:29-50 | For every marker: it is found unescaped in the stripped text exactly when it stands unescaped in the text outside its code spans, or a span's space makes it up. |
| `SkipMarker.SkipsExactly` | internal/crq/skipmarker.go:18-62 | For any body and any marker that fits on a line, the default one included: review is skipped exactly when the marker stands unescaped in a line that is neither fenced nor indented code, outside every code span, or the space of a code span makes it up; for a marker without a space none can. |
| `Argv.SplitArgv` | internal/crq/config.go:822-847 | The words of the one way the string reads as separators, quoted runs and plain characters. |
| `Argv.SeparatorsSplit` | internal/crq/config.go:822-847 | Outside quotes a space, a tab, a newline or a carriage return parts the words before it from those after it. |
| `Argv.OthersJoin` | internal/crq/config.go:822-847 | Characters that are neither those nor quotes are one word. |
| `Argv.JoinArgv` | internal/crq/config.go:857-863 | Splitting the joined string gives the arguments back, for every list. |
| `Argv.QuoteArgSpells` | internal/crq/config.go:870-879 | A quoted argument reads as one word that spells it. |
| `Argv.QuoteArgExactly` | internal/crq/config.go:870-879 | An argument is written as it is unless it is empty or holds a separator or a quote, and then between double quotes, each of its own in single ones. |
| `Argv.ReadingUnique` | internal/crq/config.go:822-847 | A string reads in one way only. |
| `Argv.WordsKeepContent` | internal/crq/config.go:822-847 | The words together are the string without its quote delimiters and unquoted separators. |
| `ProcessTree.BuildChildren` | internal/crq/reaper_linux.go:108-132 | The map lists exactly each process's children, in order. |
| `ProcessTree.KillDescendants` | internal/crq/reaper_linux.go:133-138 | Every strict descendant is signalled exactly once, each parent before its children, and nothing else. |
| `ProcessTree.EndsExactlyWithoutCycle` | internal/crq/reaper_linux.go:133-138 | The queue runs empty exactly when the process is not its own ancestor. |

## Left out

- ProcessTree.KillDescendants: models the snapshot of parents as given; reading `/proc` and the failure of a signal are not modelled.
- Findings.DedupeFindings: takes the SHA-256 digest of an identity to be the identity itself, so digest collisions are not modelled.
- Findings.NoPromptShadows: the filter compares texts that join bot, path and line, so it may also drop a prompt finding at another place with the same joined text.
- Runs.MarkerNeverOutlivesItsReviewers: covers the writes that complete a round under a configuration; a wait completed without one, a round a fix session adopts as reviewed, and expired rounds are not covered, and the fleet record and the primary are fixed through a run.
- Runs.HeldIsQuiet: speaks of the live round; a poster that lost its claim to a later one, or whose round was replaced, may still be inside its network call. The review budget's hold checks no claim when it commits, so for it only `Runs.HoldIsABarrier` holds.
- Claiming.ClaimsAreExclusive: counts claims that were committed; what a worker posts after a lost replay is in `Retries.SelfHealUpdate`.
- SharedState.Store.Enqueue: also stands for one item of a batch; a batch is modelled as its items one by one, which allows more interleavings.
- FireLog.NotedIsStored: where the log's coverage starts (`FiresFrom`) is not modelled.
- SharedState.Store.CompleteWait: only with a configuration; a call without one skips the stamp check and is not modelled.
- Protocol.StepKeeps: not among the writes are the completions without a configuration, and writes to what no modelled guard reads.
- SharedState.Store.Normalize: only the fire slot; folding of other records is not modelled.
- ForRepo.ForRepo: the registry of co-reviewers is a parameter, and case folding is that of ASCII names.
- ForRepo.ForRepoExactly: holds for well-formed configurations with canonical logins, which the environment parser and the editors are taken to produce.
- Leadership.LeaderStore.RenewLeader: the owner's name and the capability record beside the lease are not modelled; a worker is taken not to act as leader inside the renewing call, from its write to the call's return.
- AccountBlocks.Account.RecordReading: the scope, source and warning texts are not modelled.
- SkipMarker.SkipsExactly: a marker that holds a newline is not covered.
- SkipMarker.SkipsReview: white space is that of the Unicode property; invalid UTF-8 is not modelled.
- The decisions of the engine (when to fire, defer, retry or complete) are arbitrary choices here.
- Round bookkeeping no modelled guard reads: titles, notes, posted-comment lists, reviewer activity and answers, forced triggers, settled primaries, dismissals, dispatch attempts.
- The restored-activity repair, one-pass campaigns and the merge gate.
- A fix session's claim appears as one arbitrary change of who works on a round and, while it waits, of the fields that hide it from the queue.
- Whether an off repository keeps a pending round: several writes do not ask.
- GitHub calls, comment wording, dashboards, service files, cost estimates and working-copy probes.
