# Model of the IRC client's controller

The client's controller is a set of small state machines over asynchronous IRC, timers, a keychain
and writes that can be refused at any point. This project models the ones with the most state and
proves what they keep over whole runs. `dafny verify dfyconfig.toml` checks everything.

How to read it:

- An object whose methods update its fields is a class. Each method's contract ties the new state,
  whole, to a function on values (`Model() == Spec(old(Model()), ...)`), and the lemmas prove what the
  source promises about that function, over every step and every run.
- Everything outside the controller is an argument: whether a write is accepted, what a keychain
  answers, what the server sends, the clock. A lemma over all arguments is a lemma over all of these.
- Where the code does not meet a property, the code is kept, a lemma states exactly when it holds (an
  if and only if over a condition known before the step), and another gives an input on which it fails.

| file | what it models |
|---|---|
| `Membership.dfy` | `/join`, `/part`, closing a channel, and the latch that cancels a JOIN in flight, against a server and two FIFO links |
| `Glob.dfy` | the backtracking matcher of `/list` masks, against the recursive meaning of a glob |
| `Playback.dfy` | bouncer playback: requests that stop at a refused write and are made again |
| `CatchUp.dfy` | chathistory catch-up: restored queries, TARGETS pages, retries |
| `ChannelList.dfy` | `/list`: requests, idle timers, stale ends, and the overlay |
| `ChannelListRuns.dfy`, `ChannelListReplies.dfy`, `ChannelListOverlay.dfy` | its whole runs: timers, whose reply is whose, and what the overlay shows |
| `Autoaway.dfy` | auto-away: idle and grace timers, settings, the away sets |
| `Secrets.dfy` | moving a keychain secret when a profile's key changes |
| `CliRead.dfy` | the command line's `read`, and `--unread` with its saved cursors |
| `Monitor.dfy` | the MONITOR client and the peer that keeps its list |
| `StatusRing.dfy` | the Status console's bounded ring |
| `NetworkOrder.dfy` | the sidebar order and `move_network` |
| `Framing.dfy` | reading one request line from a socket |
| `VersionPri.dfy` | the version scanner |
| `Casemapping.dfy`, `Sorting.dfy`, `Wrappers.dfy` | the folds names are compared by, a stable sort, and an optional value |

## What the code does not do

- A JOIN cancelled in flight writes a PART when its echo arrives, and goes on as if that PART had been
  accepted (client/src/controller/controller.rs:714-717). When it is refused the server has us in a
  channel the client shows as left (`Membership.LostPartDiverges`). From a consistent state, once the user
  stops and the links are empty, client, server and user agree on a channel if and only if none of those
  deliveries lost its PART (`Membership.AgreementIsKeptParts`). After a lost one whose row stays and that
  nothing else is due for, no JOIN or PART the user asks for is of any use: the row is never shown as
  joined while the server has us there (`Membership.LostPartLasts`). Closing the row, and only that, leads
  out (`Membership.OnlyClosingLeadsOut`), and a `/part` after it mends it (`Membership.ClosingMendsIt`).
- The glob matcher takes a literal match before it considers a star, so the mask `*` refuses the text
  `*x` (`Glob.StarRefusesStarX`). It is exact on a text for every mask if and only if the text has no `*`
  (`Glob.ExactOnTexts`).
- A `/list` request counts the replies it waits for in two flags, and nothing names the LIST a reply
  answers. `ChannelListReplies.DeficitMoves` says for every step how far it moves the count of a network
  from what its server owes. Four steps break the balance and no others do
  (`ChannelListReplies.StepKeepsBalance`): a LIST refused, or a load timed out, while a stale end is still
  to come; a timed-out load's failure numeric when nothing is loading; and a connection that drops while a
  reply is waited for, which `/list` is not told of. While a request waits for more than is owed, no
  `/list` of that network completes (`ChannelListReplies.NothingCompletesMeanwhile`; such a state is
  reached in `ChannelListReplies.LossIsReachable`). Only three steps bring the difference down
  (`ChannelListReplies.OnlyTheseGiveBack`): a LIST refused, or a load timed out, while a stale end is
  waited for, and the network forgotten. A load that times out before its own end comes puts it right, and
  the load after that completes (`ChannelListReplies.TimeoutMakesGood`); one whose own end came first and
  was taken for the stale one is back where it began (`ChannelListReplies.LossComesBack`).
- Even in balance, a timed-out load's failure numeric ends the load running now: a failure is the running
  load's own if and only if no stale end is to come (`ChannelListReplies.FailureIsItsOwn`).
- A streamed row reaches the overlay only when it has a name and the cache's fold and the overlay's
  ASCII fold agree on it (`ChannelListOverlay.StreamedRowAgrees`). Completion repairs the overlay,
  whatever it missed (`ChannelListOverlay.CompletionRepairs`).
- A server password still under its legacy keychain entry is carried to a new key, but the legacy entry
  keeps it and no delete is owed (`Secrets.LegacyEntryIsLeft`). This is the only save after which a
  secret is unaccounted for (`Secrets.StoreKeepsAccounts`).
- A `/unmonitor` can leave the peer watching a nick the client no longer stores: it does if and only if
  the client had stored the nick and the peer watches one the client's mapping takes for the same, and
  either the line is refused or the peer, which folds by ASCII, tells that one from the nick named
  (`Monitor.RemoveFollows`). From a store without repetitions, removing a nick as it is watched is
  harmless when the line is accepted; naming `a{` for a watched `a[` is not even then
  (`Monitor.AcceptedRemovalLeavesOne`).
- Auto-away forgets a network that cannot be reached when activity returns or it is switched off, and
  leaves it away on the server (`Autoaway.ActivityBringsBack`); a changed reason does not reach such a
  network. No other step makes what a server was told differ from the away sets (`Autoaway.StepKeepsTold`),
  and later activity does not mend it: only six other steps do (`Autoaway.StrandedStays`).
- The comment on the version scanner gives a pattern whose `.*` would stop at a line break; the code
  takes anything after the letter, and so does the model.

## Model

| member | source | states |
|---|---|---|
| Membership.Controller.DispatchJoin | client/src/controller/commanddispatcher.rs:397-459 | the loop over targets: each accepted JOIN lifts its channel's closed and cancelled marks, each refused one gives both back, and the last target's row opens only when every JOIN went out |
| Membership.Controller.DispatchPart | client/src/controller/commanddispatcher.rs:464-503 | a joined row leaves with an accepted write, a row already left writes nothing and latches its JOIN in flight, an unknown channel only writes, and a refused PART changes nothing |
| Membership.Controller.CloseConversation | client/src/controller/selection.rs:150-327 | an unknown row is refused, only a channel row that was left closes, and closing cancels its JOIN in flight, marks it closed and drops its row |
| Membership.Controller.HandleEcho | client/src/controller/controller.rs:671-723 | our own JOIN joins the row unless the channel was closed, and a cancelled JOIN is parted again once and drops or keeps the row by the closed mark |
| Membership.StepKeepsChannel | client/src/controller/commanddispatcher.rs:397-503 | every intent and delivery keeps client, links, server and intent consistent for a channel, if and only if it is not its cancelled JOIN landing with the PART refused while nothing sent takes us out |
| Membership.Convergence | client/src/controller/controller.rs:671-723 | over every interleaving of joins, parts, closes and deliveries, for each channel whose cancelled PARTs got through: a cancelled channel is never shown joined, and once both links are empty the joined flag, the membership and the last intent are the same |
| Membership.AgreementIsKeptParts | client/src/controller/controller.rs:700-723 | from any consistent state, deliveries that empty the links end in agreement of client, server and user on a channel if and only if none of them lost its cancelled PART |
| Membership.SettlesInAgreement | client/src/controller/controller.rs:700-723 | once the user stops, every schedule of deliveries is bounded by the frames and latches outstanding, and one that cannot go on ends in agreement with the last intent, exactly when it kept the PARTs |
| Membership.LostPartDiverges | client/src/controller/controller.rs:714-717 | the exception is reachable: join, leave in flight, refuse the PART, and with empty links the server holds a membership the client does not show |
| Membership.LostPartLasts | client/src/controller/controller.rs:700-723 | after a lost PART whose row stays and nothing else is due for, over every run that does not close the row, whatever JOINs and PARTs are asked for and accepted, the server has us in the channel and the row is never shown as joined |
| Membership.OnlyClosingLeadsOut | client/src/controller/commanddispatcher.rs:397-503 | a channel left so stays so under every intent and delivery, if and only if it is not the closing of its row |
| Membership.ClosingMendsIt | client/src/controller/selection.rs:150-327 | with empty links, closing the row, leaving the channel again and delivering that PART and its echo restores consistency and agreement |
| Glob.WildcardMatches | client/src/demo/answers.rs:89-114 | the loop over four indices always ends; a yes means the pattern matches the text, and for a text without a star byte the answer is exactly whether it matches |
| Glob.LastStarIsEnough | client/src/demo/answers.rs:89-114 | why backtracking to the last star suffices: whatever an earlier star could absorb lets the later star match from here too |
| Glob.ScanIsSound | client/src/demo/answers.rs:89-114 | from any state of the loop a yes means the rest matches here or the open star matches from its mark |
| Glob.ScanIsComplete | client/src/demo/answers.rs:89-114 | from any state the loop reaches on a text without a star, a match here or further along the open star makes the loop say yes |
| Glob.ExactOnTexts | client/src/demo/answers.rs:89-114 | the matcher gives the glob's answer to every pattern on a text if and only if the text holds no star |
| Glob.StarRefusesStarX | client/src/demo/answers.rs:89-114 | the mask of one star matches the text star-x as a glob, and the loop refuses it |
| Playback.PlaybackCoordinator.Request | client/src/controller/playback.rs:244-344 | one call: lines, marks and unused answers are those of one pass over rows, open queries, autojoins, the catch-all and then the joined tail, cut at the first refusal before the tail |
| Playback.PlaybackCoordinator.RequestChannel | client/src/controller/playback.rs:346-375 | a joined channel is asked for from its stored time until a batch for it is kept, whatever was asked before, and marked only when the line went out |
| Playback.PlaybackCoordinator.RekeyTarget | client/src/controller/playback.rs:96-130 | a rename moves the first matching row, respells it in place when the fold is the same, or merges it into the new name's row with the later time |
| Playback.DriveConserves | client/src/controller/playback.rs:276-326 | what a pass sent, followed by what its marks leave undone, is what there was to send, so no refusal loses or doubles a line |
| Playback.RequestsResume | client/src/controller/playback.rs:244-344 | for any refusals over any calls, the lines before the joined tail are a prefix of the uninterrupted run, are all of it once a call runs through, name no target twice, and a call nothing refuses runs through |
| Playback.CatchallAtMostOnce | client/src/controller/playback.rs:244-344 | between two leavings of the registration the catch-all is accepted once at most, over any order of registrations, requests, joins, renames, dropped snapshots and refusals |
| Playback.RekeyKeepsTheSnapshot | client/src/controller/playback.rs:96-130 | a rename keeps the snapshot free of duplicates under the fold, empty only if it was, and with the same newest time even when two rows merge |
| Playback.NewestIsTheLatest | client/src/controller/playback.rs:612-618 | the newest time is a time of the snapshot that no row exceeds, or none at all |
| CatchUp.CatchUpCoordinator.RequestCatchUp | client/src/controller/playback.rs:407-465 | each restored open query not asked yet is asked from its own time and marked only when its line went out, and then one TARGETS request is made from just before the newest time |
| CatchUp.CatchUpCoordinator.NoteTarget | client/src/controller/playback.rs:467-546 | one discovered name is asked once; a query opened for it is closed again when its request is refused and it is empty; the result says exactly whether it became discovered |
| CatchUp.CatchUpCoordinator.NoteDiscoveredTargets | client/src/controller/playback.rs:467-546 | only a registered session folds a page in, name by name, and the count returned is the number of queries newly discovered |
| CatchUp.CatchUpCoordinator.NoteTargetsPage | client/src/controller/playback.rs:548-585 | only a full page that is not the last and reaches back past the lower bound asks for an older one, up to its earliest time, and twice at most |
| CatchUp.CatchUpCoordinator.OnTargetsFailed | client/src/controller/history.rs:191-204 | a failed TARGETS request is retried once a registration and only when the registration is known |
| CatchUp.CatchUpCoordinator.DropEmptyDiscovered | client/src/controller/history.rs:206-227 | a discovered query that brought nothing is closed unless it is a kept one or holds messages |
| CatchUp.HandleKeeps | client/src/controller/playback.rs:407-598 | every event keeps the TARGETS budget, one request for each asked query, and each discovered query asked |
| CatchUp.CatchUpIsBounded | client/src/controller/playback.rs:407-598 | over any order of calls, pages, failures and refusals: four TARGETS requests at most, which `CatchUp.FourTargetsHappen` meets, each query asked exactly once if marked and never otherwise, and every discovered query asked |
| ChannelList.ChannelListRequests.RequestList | client/src/controller/channellist.rs:108-137 | a running load keeps the other mask asked for as pending and drops it for its own, complete rows of the mask serve unless refreshed, and anything else starts a load that inherits the drain flag and arms the timer |
| ChannelList.ChannelListRequests.StoreRow | client/src/controller/channellist.rs:147-170 | a named row of a running load replaces the row of its folded name or joins a cache that is not full, and re-arms the timer either way |
| ChannelList.ChannelListRequests.FinishList | client/src/controller/channellist.rs:186-213 | an end is drained first if one is to come, completes the load otherwise, and hands back only a pending mask other than the one done |
| ChannelList.ChannelListRequests.FailList | client/src/controller/channellist.rs:216-231 | only a running load fails, its timer stops, and a timeout owes a stale end |
| ChannelList.ChannelListRequests.TakeTimeout | client/src/controller/channellist.rs:247-259 | the first queued expiry whose timer is still the one it was armed under is taken, and the stale ones before it are dropped |
| ChannelList.ChannelListController.StartChannelList | client/src/controller/channellist.rs:420-471 | the command joins a load, shows the cache, or starts a load; the overlay opens in each case, a refused LIST unwinds request and overlay, and only that is reported refused to a registered session |
| ChannelList.ChannelListController.FinishChannelList | client/src/controller/channellist.rs:488-513 | a completed load starts its pending mask, and shows its rows when there is none, when it cannot start, and only if the overlay is still on the network |
| ChannelList.ChannelListController.HandleRow | client/src/controller/channellist.rs:572-609 | a row goes to the cache and, while the overlay streams this network, to the overlay |
| ChannelList.ChannelListController.RunChannelListExpiry | client/src/controller/channellist.rs:621-631 | a timeout fails its own load and shows on the overlay only if it is on that network |
| ChannelListRuns.StepKeepsTimers | client/src/controller/channellist.rs:172-281 | every step keeps exactly the loading networks timed, each timer held by the clock or queued, and each due an idle window after its load was last heard of |
| ChannelListRuns.TimeoutMeansSilence | client/src/controller/channellist.rs:621-631 | a timeout means its load was running and not heard of for a whole idle window, and its timer ran out once only |
| ChannelListRuns.NoLoadHangs | client/src/controller/channellist.rs:262-281 | a running load's callback is held by the clock and due an idle window after it was last heard of, or its expiry is queued |
| ChannelListRuns.TimeoutsAreNeverEarly | client/src/controller/channellist.rs:108-137 | over every run a network has an idle timer exactly when it is loading, and the next timeout, if any, follows a whole window of silence of a load that runs and never ran out before |
| ChannelListRuns.SilentLoadEnds | client/src/controller/channellist.rs:247-281 | from every state a run can reach, a load that hears nothing for an idle window is no longer loading once the queue is pumped |
| ChannelListReplies.DeficitMoves | client/src/controller/channellist.rs:108-137 | from any state, every step moves the replies waited for of a network whose server is honest against those owed by an amount told from the state before it, and not at all when it touches another network |
| ChannelListReplies.StepKeepsBalance | client/src/controller/channellist.rs:186-231 | a network in balance stays so under every step if and only if it is not one of the four that lose its count |
| ChannelListReplies.EndsCompleteTheirOwnLoads | client/src/controller/channellist.rs:186-213 | over every run in which the server of a network answers each numbered LIST once, in order, and no step loses that network's count, whatever happens to the others: the next end completes its running load if and only if it answers that load's own LIST, so a timed-out load's end never completes the next |
| ChannelListReplies.FailureIsItsOwn | client/src/controller/channellist.rs:516-557 | in balance, a failure numeric that ends a load answers that load's own LIST if and only if no stale end is to come |
| ChannelListReplies.OnlyTheseGiveBack | client/src/controller/channellist.rs:108-231 | while a request waits for more than is owed, a step brings the difference down if and only if it is a LIST refused or a load timed out while a stale end is waited for, or the network is forgotten |
| ChannelListReplies.NothingCompletesMeanwhile | client/src/controller/channellist.rs:186-231 | while a request waits for more than is owed, no load of the network completes and the difference never falls, over every run without such a step |
| ChannelListReplies.TimeoutMakesGood | client/src/controller/channellist.rs:186-259 | from a loss, a load that times out before its own end leaves the network in balance, that end is drained when it comes, and the next load waits for its own end alone |
| ChannelListReplies.LossComesBack | client/src/controller/channellist.rs:186-231 | one round of a loss: the next load's own end is swallowed, it runs on with nothing owed, and its timeout is back where it began |
| ChannelListReplies.LossIsReachable | client/src/controller/channellist.rs:216-231 | from the start, a load that times out and then gets its failure is such a loss |
| ChannelListOverlay.StreamedRowAgrees | client/src/controller/channellist.rs:349-365 | a streamed row keeps the overlay a permutation of the cache if and only if it has a name, or there is no room for it, and the folds agree on the row it replaces |
| ChannelListOverlay.StepKeepsLists | client/src/controller/channellist.rs:308-365 | every step, whatever was missed, keeps cached rows unique and within 8000, pending masks behind loads and other than theirs, the overlay's flags in step, and a finished overlay the sorted cache |
| ChannelListOverlay.StepKeepsRows | client/src/controller/channellist.rs:349-365 | while it streams, every step keeps the overlay's rows the cached ones if and only if it is not a row that misses it |
| ChannelListOverlay.CompleteOverlayIsSorted | client/src/controller/channellist.rs:308-328 | a completed overlay is the one sorted arrangement of the cached rows, most users first and then by folded name |
| ChannelListOverlay.OverlayShowsTheCache | client/src/controller/channellist.rs:442-512 | over every run the cache is in order and a completed overlay is its sorted form; a streaming overlay is a permutation of the cache if they agreed at some point of the run and no row has missed it since |
| ChannelListOverlay.AgreesAnew | client/src/controller/channellist.rs:420-471 | points of agreement: whenever the overlay is not streaming, and after every command of a connected network, whatever rows were missed before |
| ChannelListOverlay.CompletionRepairs | client/src/controller/channellist.rs:488-513 | after any run, rows missed or not, an end that completes the load shown leaves the overlay the sorted cache |
| Autoaway.AutoawayRuntime.AutoawayCommand | client/src/controller/autoawayruntime.rs:150-204 | every form of the command: settings, timers, trip, away sets and the networks told a changed reason |
| Autoaway.AutoawayRuntime.NoteLocalActivity | client/src/controller/autoawayruntime.rs:208-221 | activity lifts the trip, brings back the auto-away networks within reach, drops a one-shot reason and re-arms |
| Autoaway.AutoawayRuntime.TripAway | client/src/controller/autoawayruntime.rs:352-386 | the loop marks exactly the registered networks that take the line and are not away already by anyone's doing, each once |
| Autoaway.AutoawayRuntime.RunAutoawayExpiry | client/src/controller/autoawayruntime.rs:278-348 | a queued expiry runs only under the current generation, and opens the grace window or trips |
| Autoaway.AutoawayRuntime.OnRegistered | client/src/controller/controller.rs:501-531 | a welcome clears both away sets and the latch before a tripped auto-away marks the network again |
| Autoaway.AutoawayRuntime.NoteUnawayAfterChat | client/src/controller/autoawayruntime.rs:264-275 | a chat line brings back a network that is away and was not brought back yet, and only if the line went out |
| Autoaway.StepKeepsOrder | client/src/controller/autoawayruntime.rs:150-426 | every step keeps one live timer at most, of the current generation and due no earlier than the settings and the last activity allow, one current expiry at most, and the away sets consistent |
| Autoaway.TripsAreNeverEarly | client/src/controller/autoawayruntime.rs:278-373 | over every run a step trips only after the configured timeout plus its grace without activity; the auto and manual sets are disjoint, a non-empty auto set implies tripped, and tripped implies enabled with no timer and no callback |
| Autoaway.StepKeepsWatching | client/src/controller/autoawayruntime.rs:295-311 | once there was activity, usable settings that have not tripped always have a live timer, so a trip cannot get lost |
| Autoaway.SilenceTrips | client/src/controller/autoawayruntime.rs:313-373 | from any state with a live idle timer, stale expiries queued or not, a user silent for the timeout and then the grace is tripped, with exactly the eligible networks marked |
| Autoaway.StepKeepsTold | client/src/controller/autoawayruntime.rs:150-426 | a network's server has us away exactly when an away set says so, and for the auto set with the reason of now; every step keeps this if and only if it is not activity, a switching off or a changed reason that misses that auto-away network |
| Autoaway.ServerFollowsTheSets | client/src/controller/autoawayruntime.rs:150-426 | the same over every run from loaded settings without such a step for that network, whatever happens to the others |
| Autoaway.StrandedStays | client/src/controller/autoawayruntime.rs:406-426 | a network missed by activity or a switching off is away on the server and in no away set, and a step leads out if and only if it is `/away`, `/back`, an unaway after chat, a welcome, its removal, or a trip that marks it |
| Autoaway.StrandedForGood | client/src/controller/autoawayruntime.rs:208-221 | over every run without one of these, further activity and settings included, it stays so |
| Autoaway.OneUnawayPerPeriod | client/src/controller/autoawayruntime.rs:262-275 | between two lifts of the latch chat brings a network back once at most, and not at all after it was brought back |
| Secrets.CredentialSlot.StoreSecret | client/src/controller/persistence.rs:653-684 | one save: where every key and every debt stands after a typed, cleared or blank secret with or without a key change, and the state reported |
| Secrets.CredentialSlot.CarrySecret | client/src/controller/persistence.rs:689-718 | a move acts on what the store answered: it waits, fails, writes then retires, or only deletes an old key that holds nothing |
| Secrets.CredentialSlot.RetireObsolete | client/src/controller/persistence.rs:723-733 | every owed key but the current one is deleted or stays owed, and the current one's debt is dropped |
| Secrets.CredentialSlot.ForgetSecret | client/src/controller/persistence.rs:246-270 | every key of the slot is owed and then deleted or still owed, with the state that settles it |
| Secrets.CredentialSlot.ReadEntry | client/src/storage/credentialstore/mod.rs:87-103 | the legacy entry answers only when the primary key truly holds nothing in the password slot |
| Secrets.BlankMoveKeepsTheSecret | client/src/controller/persistence.rs:653-718 | whatever the store answers, a blank save that changes the key leaves the secret the old account truly had under the old account or the new one |
| Secrets.BlankSavesKeepTheSecret | client/src/controller/persistence.rs:653-741 | over any sequence of blank saves, whatever accounts they move between and whatever the store answers, a slot that held one secret goes on holding it and no other, and a further save reported saved has it |
| Secrets.RetireKeepsTheCurrentKey | client/src/controller/persistence.rs:720-733 | retiring never deletes or changes the current key even when it is owed, and any other owed key left holding a secret is still owed |
| Secrets.StoreReportsTruth | client/src/controller/persistence.rs:653-684 | a save reported saved has its secret readable, one reported missing has none, and a refused write left every key as it was |
| Secrets.StoreKeepsAccounts | client/src/controller/persistence.rs:653-741 | after any save every key holding a secret is the current account's or owed a delete, if and only if the save did not move away from an unowed legacy entry |
| Secrets.SecretsStayAccounted | client/src/controller/persistence.rs:653-741 | the same over any sequence of saves and forgets with any store failures |
| Secrets.NickServStaysAccounted | client/src/controller/persistence.rs:653-741 | for the slot without legacy entries it holds over every history, with no proviso |
| Secrets.ForgetLeavesNothing | client/src/controller/persistence.rs:246-270 | forgetting reports missing only when no key the slot ever had holds a secret and no delete is owed |
| Secrets.LegacyEntryIsLeft | client/src/controller/persistence.rs:689-718 | a password under its legacy entry is carried with every answer good and its old entry keeps it unowed |
| CliRead.CliMessages | client/src/controller/cli.rs:118-175 | the collected, filtered, sorted and capped lines of a target or of the whole network, unknown targets refused, truncation never flagged for `last` |
| CliRead.SortAndCap | client/src/controller/cli.rs:105-113 | the newest lines by chat order, and whether any was dropped |
| CliRead.CliHandler.ReadLines | client/src/desktop/ipchandler.rs:102-127 | an unread read resumes after the file's cursor or reads the last fifty, and moves the cursor to its newest line only when it returned one and the save held |
| CliRead.WindowIsNewest | client/src/controller/cli.rs:105-150 | a window returns its newest lines sorted, leaves a line out only for the cap and only when every line returned is as new, and flags truncation exactly when it dropped one |
| CliRead.StoredCursorsCompareAlike | client/src/desktop/cli_cursor.rs:82-87 | keeping a cursor to the millisecond changes no comparison with any line |
| CliRead.UnreadNeverRepeatsOrSkips | client/src/desktop/ipchandler.rs:102-127 | over any reads of any changing transcripts an unread read returns only lines past all those returned and saved behind, and each line past its cursor or a flag and the newest hundred |
| CliRead.Segment | client/src/desktop/cli_cursor.rs:123-140 | the percent-encoded name, or the digest of a name too long |
| CliRead.SegmentsAreShared | client/src/desktop/cli_cursor.rs:123-140 | two names share a cursor file if and only if both are too long and their digests collide, or one is spelled like the digest of the other |
| Monitor.Peer.AnswerMonitor | client/src/demo/answers.rs:313-397 | the list after each frame and the numerics that answer it |
| Monitor.TakeSorts | client/src/demo/answers.rs:372-384 | each `+` target is exactly one of already listed, added or overflowed, overflow only with a full list and never of a nick on it |
| Monitor.PeerStaysInBounds | client/src/demo/answers.rs:313-397 | over every frame sequence the list has no two nicks of one fold and a hundred at most |
| Monitor.MonitorCoordinator.MonitorSubscribe | client/src/controller/monitorcoordinator.rs:77-106 | once a registration, the stored nicks without repetitions, cut to the limit, are sent, and what the peer refuses leaves the store |
| Monitor.MonitorCoordinator.AddMonitored | client/src/controller/monitorcoordinator.rs:208-251 | only a registered session and one usable nick get past the guards; a new nick within the limit is stored and sent, and stored no longer when the write is refused; and which of the three outcomes is told |
| Monitor.MonitorCoordinator.RemoveMonitored | client/src/controller/monitorcoordinator.rs:262-288 | past the same guards a stored nick is dropped under the client's mapping and the peer is told if the write is accepted; and which outcome is told |
| Monitor.MonitorCoordinator.HandleListFull | client/src/controller/monitorcoordinator.rs:176-196 | every nick the peer refused leaves the store |
| Monitor.MonitorCoordinator.StoreRemove | client/src/storage/lists.rs:108-128 | every stored value of the fold is dropped, and the result says whether there was one |
| Monitor.RemoveFollows | client/src/controller/monitorcoordinator.rs:262-288 | under any mapping, a removal keeps the peer's list within the stored one if and only if it drops nothing, or leaves no watched nick the mapping takes for the same, which a refused line does and an accepted one does for those ASCII tells apart |
| Monitor.DeliverFollows | client/src/controller/monitorcoordinator.rs:176-196 | delivering stored nicks keeps it so if and only if no nick refused is the same under the mapping as one then watched |
| Monitor.StepKeepsFollowing | client/src/controller/monitorcoordinator.rs:77-288 | under any mapping every step keeps the peer's list within the stored one if and only if it does not leave it a nick too many, and keeps the lists equal once they are |
| Monitor.StepKeepsUnique | client/src/storage/lists.rs:89-128 | a store without repetitions stays so, and then only a removal can leave the peer one too many |
| Monitor.SubscriptionSyncs | client/src/controller/monitorcoordinator.rs:77-106 | a whole subscription of a store without repetitions within the advertised limit leaves both lists equal, even when the peer overflows |
| Monitor.PeerFollows | client/src/controller/monitorcoordinator.rs:77-288 | over every run, under any mapping, the peer watches only stored nicks as long as no removal leaves it one, and lists once equal stay equal until it starts anew |
| Monitor.LinesAddUp | client/src/session/outbound.rs:327-369 | a subscription sent in several lines ends as if sent in one |
| Monitor.AcceptedRemovalLeavesOne | client/src/storage/lists.rs:108-128 | an accepted removal of a nick only the coarser fold finds leaves the peer watching an unstored one |
| StatusRing.StatusConsole.AppendEntry | client/src/controller/console.rs:92-105 | an entry without a network is dropped, any other goes last on its ring, numbered next, and the oldest make room |
| StatusRing.StatusConsole.CountAlerts | client/src/controller/console.rs:116-133 | the retained alerts numbered past the last seen one |
| StatusRing.RingRefinesLog | client/src/controller/console.rs:63-175 | after any events a network shows the last lines of its unbounded log since the last clear, the sequence arithmetic cannot underflow, and the alerts counted are the retained ones said after the last mark-seen or clear |
| NetworkOrder.Sidebar.ShowOrder | client/src/controller/networks.rs:34-54 | the recorded known networks in recorded order, each once, then the rest in id order |
| NetworkOrder.Sidebar.MoveNetwork | client/src/controller/networks.rs:264-300 | a move is accepted exactly for a movable network, a non-zero step and a target inside, and refills only the movable places |
| NetworkOrder.ShownIsTheKnown | client/src/controller/networks.rs:34-54 | the order shown is a duplicate-free permutation of the known networks whatever was recorded, and starts with what was recorded |
| NetworkOrder.SetThenShown | client/src/controller/networks.rs:57-64 | an arrangement of the known networks is shown as recorded |
| NetworkOrder.MoveKeepsTheRest | client/src/controller/networks.rs:264-300 | an accepted move permutes, keeps every immovable network at its index, puts the moved one where asked and keeps the others' relative order |
| NetworkOrder.MoveIsUndone | client/src/controller/networks.rs:264-300 | the opposite move is accepted on the order then shown and restores it |
| Framing.ReadRequest | client/src/desktop/singleinstance.rs:211-238 | the answer is a function of the bytes received: the first line within the cap, a bare ping without its newline, or nothing |
| Framing.ReadCutTwoWays | client/src/desktop/singleinstance.rs:211-238 | two cuts of the same bytes into chunks that are not empty get the same answer |
| Framing.LineIsReadWhole | client/src/desktop/singleinstance.rs:224-229 | a line sent with its newline is read whole within the cap and refused past it, whatever follows |
| VersionPri.ToCargoSemver | client/src/version_pri.rs:20-50 | one hyphen goes in wherever the pattern splits the version, and any version it does not match is returned as it is |
| VersionPri.SplitIsUnique | client/src/version_pri.rs:15-19 | the pattern splits a version in one place at most |
| VersionPri.ConvertTwice | client/src/version_pri.rs:20-50 | converting twice is converting once |
| Casemapping.NormalizeIsIdempotent | client/src/irc/casemapping.rs:43-75 | a folded name is its own fold and equals the name it came from |
| Casemapping.CoarserFoldsMergeMore | client/src/irc/casemapping.rs:43-75 | names equal under ASCII are equal under strict RFC 1459, and those equal under it are equal under RFC 1459 |

## Left out

- Sockets, pipes, HTTP, D-Bus, files, the sidebar view, notifications, help and reply texts, JSON: input and output with no hard property here.
- Parsing of IRC lines, command arguments and durations: the models take parsed frames, targets and requests.
- Select, unread and sidebar side effects of the modelled operations.
- Integer widths: sequences, generations and counters are unbounded, where the source uses 64-bit counters.
- `Controller::join_channel` (client/src/controller/send.rs:71-93): it does not clear a cancelled or closed mark, so the convergence claim covers `dispatch_join`.
- Membership.Controller.CloseConversation: direct-message rows, which a channel never shares a key with, are not modelled.
- Membership.Convergence: covers no kicks, disconnects or welcomes; the server echoes only real membership changes; the saved closed list and the in-memory closed marks are one set.
- `list_mask_matches`: it only splits a mask at commas around the matcher.
- Playback.CatchallAtMostOnce: assumes no stored target or restored nick is `*` and `*` is no channel type, since such a name would spell the catch-all itself.
- Playback.RequestsResume: leaves out the joined-channel tail, which repeats by design until a batch is kept.
- `trim_bouncer_batch`, `note_kept_replay` and stamps that do not parse: a live line after PLAY may move the stored time before the batch arrives, so the code promises no claim that no line is lost.
- Services are a set of names; what looks like a service is decided outside the model.
- `list_channels` pumps before and after it starts a list: the model runs the pumped events as steps of their own, in any order.
- Mask trimming and lower-casing and the cache's Unicode fold are parameters of the `/list` model; its overlay uses the ASCII fold the code uses.
- The clock's order of callbacks: any callback that is due may run, in any order, which covers the real clock's earliest first.
- Autoaway.StepKeepsTold: a server is taken to keep what it was last told until it welcomes us anew; a connection that drops and takes it along is not a step.
- Auto-away reply texts, Status lines and saved settings; the durations an argument may name; a session's trimming of a reason.
- Secrets.SecretsStayAccounted: one slot of one network, so removing a whole network is not modelled.
- Secrets: reads, writes and deletes answer truthfully or say they cannot; a store that lies is not modelled.
- CliRead.Segment: the digest itself is a parameter.
- A cursor file that is lost or unreadable, and leap seconds in a stored time.
- Monitor.MonitorCoordinator.AddMonitored: what makes a nick usable is a parameter, and the Status texts are left out.
- MONITOR presence (730, 731) and its notifications; delivery that is not answered at once.
- Monitor.PeerFollows: one case mapping throughout, and a stored list without repetitions under it, which every step keeps but a list saved under another mapping may not be.
- ChannelListReplies.DeficitMoves: the server answers each LIST it took once, in order, and never answers one it was not sent; what a numeric must say to count as a failure is decided before the modelled step.
- Framing.ReadRequest: what counts as a bare ping, decoding and trimming included, is a parameter; idle and read errors end the chunks.
- `parse_version` and the other version tables: easy members only.
- The capability bitset, `safe_file_name` and label tables: easy members only.
