# Kanna's core, verified

This project models the parts of Kanna that keep state over long runs or transform data that must not be lost, and proves what they promise for every input and every run. Kanna is a terminal multiplexer with a daemon; its parts here are the link to its app, the accounts and the tasks it shares between machines, the agents' skills and settings it installs, its task database, and several algorithms and timed watches.

Each module is one component. Code that updates fields in place is a class or a method with loops, proved equal to a function on values; the results over whole runs are lemmas about those functions. `dafny verify dfyconfig.toml` checks everything.

- `Outbox`: the two-lane queue to an app. A push is two steps (charge the byte counter, then enqueue under the lock) plus a later look at the total; the writer pops, writes, uncounts, discharges and catches up. Any interleaving of these is a run.
- `Requests`: requests forwarded to an app, from asking to the answer, the disconnect or the deadline.
- `CallTree`, `CallText`: the layout of a call tree from its classified lines, and the text of those lines.
- `Supply`, `Tokens`: the versioned supply of agent accounts to other machines, and the coalesced refresh of a held account's token.
- `Settings`, `Sync`: the settings editor that must be exactly undone, and the skill installer with its three-way merge.
- `Replica`, `Permits`: task records replicated between machines by stamped operations, and the permission to run a task, which moves between them by numbered grants. Messages may be lost, late or repeated.
- `Renumber`: the migration of task IDs and the import of a saved backlog.
- `Civil`: calendar dates of counted days, and the two stamps made from them.
- `Packing`: the tile map. `Quote`: shell quoting. `Ledger`: the agents' time. `Diffs`: shared diff watches. `Crashes`: crash watch and relaunch. `News`: Desk news.
- `Prelude`: options, results and facts about filtered sequences.

Inputs from outside are parameters: clocks, random draws (a list; an empty one is a random source that can't be read), what git's merge gives (any partial function), whether a process is alive, whether a write fails, what a refresh brings. SHA-256 digests are taken as injective.

## Findings

Ten properties one would expect don't hold as they stand. Each has a lemma at an input or a run that breaks it, and a theorem that says exactly when it does hold.

- The app can be marked as behind while its outbox is empty (`Outbox.LateLookLeavesAnEmptyOutboxBehind`): a drained outbox is, exactly when a pusher heeded its total after the writer's last round (`Outbox.DrainedButBehindIff`).
- A caught-up event can be sent while more than the upper limit is waiting (`Outbox.StaleCaughtUp`, `Outbox.CaughtUpWhileFull`): exactly when so much was charged between the writer's last discharge and the event that, with what that discharge left, it exceeds the limit (`Outbox.CaughtUpWhileFullIff`).
- An edit in a skill file that can't be read is overwritten even without force (`Sync.UnreadableEditIsLost`, `Sync.EditIsKeptIff`).
- A sync that stops halfway leaves the old record beside new base copies (`Sync.StoppedSyncForgets`, `Sync.StoppedSyncNamesBaseIff`); what mends that later is in `Sync.RecordNamesItsBaseIff` and `Sync.RetryHeals`.
- Blocker lists with old IDs stay as they are when no task is left to renumber (`Renumber.OldBlockersStay`, `Renumber.BlockersAreMappedIff`).
- A token can be refreshed more than once: when no refresh of it was kept, or when a kept one brought the token back (`Tokens.UnwrittenRefreshIsRepeated`, `Tokens.ReturningTokenIsRefreshedTwice`, `Tokens.RefreshedAgainIff`).
- A supply call that arrives late can bring back accounts that were removed since, because an empty set forgets its version (`Supply.LateCallBringsBack`). Exactly when the current set was kept all along is in `Supply.LateCallsAreHarmlessIff`, exactly when it is kept in the end in `Supply.MarkedKeepsCurrentIff`.
- Two machines can have a task ready or running: one hands it over, the other takes it, and the first calls it off (`Permits.TakenButCalledOff`). The grant of a handed task also goes out on its own (tasks.rs:1719), so a machine can take it and then fail to unpack the transfer (moving.rs:554-560), on which the sender reclaims (moving.rs:451). No two can ever have it if and only if, at every reclaim, the reclaimer has the task itself, or nobody has it and at most the reclaimer's own next epoch can still be taken (`Permits.OneHolderIff`).
- A slow look for one app's crash can decide a relaunch of that app while a later one's is awaited (`Crashes.StaleLookDecides`): exactly when an app came between the vanishing it answers and the decision (`Crashes.DecisionIsForTheLastIff`).
- Quoted words don't come through as a command when the first, left unquoted, is an assignment or a reserved word (`Quote.AssignmentIsTaken`, `Quote.SimpleCommandReadsBackIff`).

## Model

| member | source | states |
|---|---|---|
| Outbox.Queue.FellBehind | crates/kanna-daemon/src/app_link.rs:71-73 | the step of a run in which a pusher heeds too large a total; `first` says exactly whether it makes a new edge of the flag |
| Outbox.Queue.Charge | crates/kanna-daemon/src/app_link.rs:76-78 | a push's first step in a run: the pusher now stands charged with the total it is told, before its line is in any lane |
| Outbox.Queue.Enqueue | crates/kanna-daemon/src/app_link.rs:79-92 | a push's second step in a run: the terminal is counted, and a typed line goes to the urgent lane only when nothing of its terminal is outstanding |
| Outbox.Queue.Next | crates/kanna-daemon/src/app_link.rs:94-105 | the writer's pop in a run: the front of the urgent lane, else of the bulk lane, while its count stays |
| Outbox.Queue.Written | crates/kanna-daemon/src/app_link.rs:107-118 | two steps of a run: the line is uncounted, its entry going at zero, and its bytes discharged |
| Outbox.Queue.CaughtUp | crates/kanna-daemon/src/app_link.rs:175-178 | the end of the writer's round as a step of a run; it tells the loop exactly when that makes an edge of the flag |
| Outbox.WireFollowsPushOrder | crates/kanna-daemon/src/app_link.rs:75-119 | in every interleaving, a terminal's lines on the wire are a prefix of those pushed for it, in push order, and so are the untyped lines of all terminals together |
| Outbox.TypedLineOvertakes | crates/kanna-daemon/src/app_link.rs:75-105 | in every interleaving, a typed line of a terminal with nothing outstanding waits only for the lines that were urgent when it was pushed: the writer takes those, in their order, then it, and before it none that was in bulk |
| Outbox.OtherLinesWait | crates/kanna-daemon/src/app_link.rs:75-105 | any other line waits for all that was in bulk when it was pushed, which the writer takes in order before it |
| Outbox.ByteCounterIsExact | crates/kanna-daemon/src/app_link.rs:75-119 | in every interleaving the counter is the bytes charged, queued and in flight, and a discharge never takes it below zero |
| Outbox.TerminalCountsAreExact | crates/kanna-daemon/src/app_link.rs:79-118 | a terminal's count is its lines in both lanes plus the one in flight, and it has an entry exactly when that is above zero |
| Outbox.CaughtUpAlternates | crates/kanna-daemon/src/app_link.rs:167-181 | caught-up events and settings of the flag alternate, beginning with a setting; each setting is by a heeded total above the upper limit, each event by a writer left with no more than the lower one |
| Outbox.BehindIff | crates/kanna-daemon/src/app_link.rs:71-178 | at any point of a run the flag is set exactly when such a total was heeded and no such writer came since |
| Outbox.CaughtUpMeans | crates/kanna-daemon/src/app_link.rs:75-181 | for every caught-up event: the alarm, the charge that made its total and the discharge that left little; more than the distance of the limits was discharged since that charge exactly when that discharge came after it, and else nothing was discharged since |
| Outbox.CaughtUpWhileFullIff | crates/kanna-daemon/src/app_link.rs:75-181 | what waits when a caught-up event is sent is what the last discharge left and all that was charged since; more than the upper limit exactly when that much was charged |
| Outbox.StaleCaughtUp | crates/kanna-daemon/src/app_link.rs:167-181 | a run whose caught-up event is sent with more than the upper limit waiting, the flag's total charged after the discharge |
| Outbox.CaughtUpWhileFull | crates/kanna-daemon/src/app_link.rs:167-181 | another, the flag's total charged before the discharge and more charged after it |
| Outbox.DrainedOutboxIsClean | crates/kanna-daemon/src/app_link.rs:75-119 | once pushers and writer are done, the wire holds exactly the pushed lines, and counter and counts are empty |
| Outbox.DrainedButBehindIff | crates/kanna-daemon/src/app_link.rs:71-181 | a drained outbox is marked as behind if and only if a total above the limit was heeded after the writer's last round |
| Outbox.LateLookLeavesAnEmptyOutboxBehind | crates/kanna-daemon/src/app_link.rs:71-92 | a run that ends with an empty outbox marked as behind |
| Requests.AppLink.Hello | crates/kanna-daemon/src/app_link.rs:365-426 | an app is attached, refused or makes the daemon stop, as the checks say; a second local app is refused |
| Requests.AppLink.FindTarget | crates/kanna-daemon/src/app_link.rs:531-540 | the local app if there is one; none once a local app was ever seen; else the last used app that is still there, else the newest |
| Requests.AppLink.AskWithin | crates/kanna-daemon/src/app_link.rs:890-896 | a request is sent under the next ID, or answered at once when there is no target |
| Requests.AppLink.Respond | crates/kanna-daemon/src/app_link.rs:583-588 | each of the given requests is removed and its responder told, once |
| Requests.AppLink.Gone | crates/kanna-daemon/src/app_link.rs:565-588 | the connection's requests, and no others, are answered that it went away |
| Requests.AppLink.Answer | crates/kanna-daemon/src/app_link.rs:609-619 | a reply answers a request only from the connection it was sent to |
| Requests.AppLink.Used | crates/kanna-daemon/src/app_link.rs:549-553 | a current connection becomes the last used |
| Requests.AppLink.Expire | crates/kanna-daemon/src/app_link.rs:920-925 | the requests whose deadline has come, and no others, are answered that they timed out |
| Requests.AnsweredAtMostOnce | crates/kanna-daemon/src/app_link.rs:583-618 | in every run a responder is told at most one thing, and nothing exactly while its request is pending |
| Requests.SentRequestsAreAnswered | crates/kanna-daemon/src/app_link.rs:890-926 | IDs are never reused, and a request no longer pending was answered once, by its own connection's reply, its going away or its deadline |
| Requests.FirstEndingAnswers | crates/kanna-daemon/src/app_link.rs:565-618 | in every run whoever waits for a request is told exactly what the first event after it says that ends it: its connection's reply to its ID, its connection's going away, or an expiry at its deadline |
| Requests.AttachedIff | crates/kanna-daemon/src/app_link.rs:365-426 | in every run the apps attached are those whose hello was accepted and that neither went nor were replaced since |
| Requests.AcceptedIff | crates/kanna-daemon/src/app_link.rs:365-426 | a hello is accepted exactly when no quit came, the protocol fits and the app can be written to, and for an app of this machine the build fits and no other is attached |
| Requests.RequestGoesToTarget | crates/kanna-daemon/src/app_link.rs:531-540 | in every run a request is sent exactly when there is an app for it, to this machine's own, or if none was ever here to the one used last, else the newest; else it is answered at once |
| Requests.DeadlineAnswers | crates/kanna-daemon/src/app_link.rs:904-926 | the first expiry at or past a deadline leaves the request answered |
| Requests.AtMostOneLocalApp | crates/kanna-daemon/src/app_link.rs:375-426 | in every run at most one attached app is local |
| Requests.NoRemoteRequestAfterLocal | crates/kanna-daemon/src/app_link.rs:531-540 | once a local app's hello was accepted, every request sent from then on goes to a local one |
| CallTree.FindParent | crates/kanna-calltree/src/lib.rs:179 | the last call before that is less deep |
| CallTree.ReadLines | crates/kanna-calltree/src/lib.rs:138-196 | the pass over the lines: processes, calls with parents, order and mistakes |
| CallTree.CountSiblings | crates/kanna-calltree/src/lib.rs:197-204 | how many calls share the parent, before and in all, and whether one stands later |
| CallTree.WalkUp | crates/kanna-calltree/src/lib.rs:205-209 | the calls from one up to its root, by parents |
| CallTree.DrawGuides | crates/kanna-calltree/src/lib.rs:205-224 | the guides of a call are those its ancestors' later siblings ask for |
| CallTree.HopGuides | crates/kanna-calltree/src/lib.rs:225-236 | a hop passes on the guides of the next call |
| CallTree.Parse | crates/kanna-calltree/src/lib.rs:138-239 | the loops give the tree that the layout by depths alone defines |
| CallTree.LinesConnect | crates/kanna-calltree/src/lib.rs:175-236 | in a tree without mistakes, for adjacent rows and every column, a line enters the lower row exactly when one leaves the upper row or the upper row is the lower call's parent there |
| CallTree.LinesEnd | crates/kanna-calltree/src/lib.rs:175-236 | no line comes into the first row from above, and none goes on below the last |
| CallTree.AdjacentCallsConnect | crates/kanna-calltree/src/lib.rs:205-224 | the same between consecutive calls, from their depths alone |
| CallTree.SiblingsAreNumbered | crates/kanna-calltree/src/lib.rs:197-204 | siblings are numbered from one in the order they stand, the next sibling by one more |
| CallTree.NumberedIff | crates/kanna-calltree/src/lib.rs:197-204 | a call has a number exactly when it has a parent and a sibling, and 1 exactly when it is the first of them |
| CallTree.GuidesSayWhatFollows | crates/kanna-calltree/src/lib.rs:205-236 | in a tree without mistakes, from the depths shown alone: a call has a tee in its own column while a sibling follows, else an end; a column left of it passes through exactly while a sibling of that ancestor follows; a hop row has no tee and no end |
| CallTree.CallsAreTheLines | crates/kanna-calltree/src/lib.rs:138-196 | whatever the lines, each call after a process becomes the next call with what its line says, of the process last named, starting a lane when it is the first since; it and each hop become the next row, and nothing else does |
| CallTree.RowsAreTheLines | crates/kanna-calltree/src/lib.rs:225-239 | so the rows of the tree are those calls and hops, in the order of their lines |
| CallTree.ProcessesAreNamed | crates/kanna-calltree/src/lib.rs:150-158 | each process is listed once, however often it is named |
| CallTree.MistakesAreTheLines | crates/kanna-calltree/src/lib.rs:145-196 | a mistake is told exactly for a bad line, a hop with no process next, a call before any process, an odd indent and a jump in depth, at its line |
| CallText.Fields | crates/kanna-calltree/src/lib.rs:85-101 | the loop splits a trimmed line at runs of two spaces or more |
| CallText.FieldsAreStable | crates/kanna-calltree/src/lib.rs:85-101 | whatever the line, its fields written out with two spaces between split into the same fields |
| CallText.SplitReadsBack | crates/kanna-calltree/src/lib.rs:85-101 | any solid fields written out that way split into themselves |
| CallText.LocationReadsBack | crates/kanna-calltree/src/lib.rs:103-107 | a path without white space, a colon and a line number read back as that path and line |
| CallText.LocationIff | crates/kanna-calltree/src/lib.rs:103-107 | a field is a place if and only if it is a path without white space, a colon and a number above zero |
| CallText.KindIff | crates/kanna-calltree/src/lib.rs:109-124 | every line is blank exactly when it is all white space, a hop when it starts with an arrow, else a call when its second field is a place, else a process when not indented, and else bad |
| CallText.CallReadsBack | crates/kanna-calltree/src/lib.rs:109-124 | a call written out is classified as that call, with its indent, name, place and notes |
| CallText.LinesReadBack | crates/kanna-calltree/src/lib.rs:145 | lines written out with line feeds split into themselves |
| CallText.DocumentReadsBack | crates/kanna-calltree/src/lib.rs:109-196 | a document of processes, hops, calls and blank lines written out as one text is classified line by line as what was written |
| CallText.TreeReadsBack | crates/kanna-calltree/src/lib.rs:109-196 | such a text has no mistake if and only if every call comes after a process and at most a level deeper than the last, and every hop before a process; then its calls are those written, each with its depth, place, notes and process |
| Supply.Accounts.Add | crates/kanna-daemon/src/accounts.rs:246-267 | replaces the accounts of the same agent and forgets their secrets, raises the version; a bad secret changes nothing |
| Supply.Accounts.Remove | crates/kanna-daemon/src/accounts.rs:269-287 | drops the matching accounts and their secrets and raises the version, or finds none and changes nothing |
| Supply.Accounts.ReadPayload | crates/kanna-daemon/src/accounts.rs:313-327 | the whole current set with its version, held accounts without their login |
| Supply.Accounts.Outbox | crates/kanna-daemon/src/accounts.rs:329-333 | exactly the trusted peers not marked as delivered at the current version |
| Supply.Accounts.Delivered | crates/kanna-daemon/src/accounts.rs:335-339 | marks that peer at that version |
| Supply.Accounts.Receive | crates/kanna-daemon/src/accounts.rs:341-362 | a malformed set is refused and an older one ignored; an empty one forgets the source; other sources stay |
| Supply.AddKeepsSound | crates/kanna-daemon/src/accounts.rs:246-267 | adding keeps one account per agent, each with its secret or its holder |
| Supply.SuppliedAreAcceptable | crates/kanna-daemon/src/accounts.rs:313-351 | the receiver's checks accept every account of a sound source, and none is left out |
| Supply.SuppliedByIndex | crates/kanna-daemon/src/accounts.rs:313-327 | of a sound source each account is supplied in its place with its kind and holder, and with its login exactly when its kind isn't held |
| Supply.BookHoldsWhatWasAdded | crates/kanna-daemon/src/accounts.rs:246-287 | in every run the book holds an account if and only if it was added and neither replaced by another of its agent nor removed since |
| Supply.LoginsAreForgotten | crates/kanna-daemon/src/accounts.rs:246-287 | in every run the logins kept are exactly those of the accounts in the book |
| Supply.HeldLoginsStayHome | crates/kanna-daemon/src/accounts.rs:313-362 | in every run each account on its way to a peer or kept there is one that was added: a held one without its login and with its holder, any other with the login it was added with |
| Supply.RefusedIff | crates/kanna-daemon/src/accounts.rs:341-351 | a set is refused if and only if it has no version, no list, or an account of unknown kind, without its login or, if held, without its holder |
| Supply.KeptIsTheNewest | crates/kanna-daemon/src/accounts.rs:341-362 | whatever sets come from a source, in any order, what is kept is the newest of those with accounts that only older ones followed, and nothing if there is none |
| Supply.DeliveredMeansKept | crates/kanna-daemon/src/accounts.rs:246-362 | in every run with calls in the order they were sent, a peer marked as delivered at the current version keeps exactly the current payload, and no call to it is under way |
| Supply.EveryCallIsAccepted | crates/kanna-daemon/src/accounts.rs:341-351 | in every run, in whatever order calls arrive, each is accepted |
| Supply.OneAccountPerAgent | crates/kanna-daemon/src/accounts.rs:246-267 | in every run no two accounts share an ID or an agent |
| Supply.OneAnsweredCallCatchesUp | crates/kanna-daemon/src/accounts.rs:621-656 | however a run went, one call that arrives after those before it and whose reply comes back leaves the peer with the current set and no longer owed |
| Supply.MarkedAfterArrival | crates/kanna-daemon/src/accounts.rs:335-362 | in whatever order calls arrive, a peer marked at the current version was brought a call of that version |
| Supply.LateCallsAreHarmlessIff | crates/kanna-daemon/src/accounts.rs:341-362 | and it has kept the current set ever since if and only if that set isn't empty or no call that arrived since brought accounts |
| Supply.MarkedKeepsCurrentIff | crates/kanna-daemon/src/accounts.rs:341-362 | and it keeps the current set in the end if and only if that set isn't empty, or every set with accounts that arrived since was undone by a later empty one that isn't older |
| Supply.LateCallBringsBack | crates/kanna-daemon/src/accounts.rs:352-359 | a run in which a late call brings a removed account back to a peer marked as up to date |
| Tokens.Accounts.Token | crates/kanna-daemon/src/accounts.rs:402-439 | the answer, the new state and the report of a request; other accounts stay |
| Tokens.RequestIsAnswered | crates/kanna-daemon/src/accounts.rs:402-439 | in every run the answer to a request, and whether it makes a refresh, follow from the account's removal, the last kept token, the last failure and what the refresh brings |
| Tokens.OneKeptRefreshPerToken | crates/kanna-daemon/src/accounts.rs:402-439 | in every run with tokens never seen before, two refreshes are of one token if and only if none from the first up to the second was kept |
| Tokens.RefreshedAgainIff | crates/kanna-daemon/src/accounts.rs:402-439 | with no assumption on tokens: if and only if none was kept, or the last kept one brought that very token back |
| Tokens.BroughtBackBy | crates/kanna-daemon/src/accounts.rs:713-717 | a token refreshed again after a kept refresh of it was brought back by a refresh in between, which had been seen before |
| Tokens.ReplacedTokenGetsTheCurrentOne | crates/kanna-daemon/src/accounts.rs:408-416 | a caller with a token that was replaced gets the current one, with no refresh and no change |
| Tokens.RefreshesWaitAfterAFailure | crates/kanna-daemon/src/accounts.rs:417-438 | in every run no refresh starts within the retry wait after the end of any earlier failure |
| Tokens.EachEpisodeIsReportedOnce | crates/kanna-daemon/src/accounts.rs:429-437 | a refresh is reported if and only if it failed and a refresh was kept after every failure before it; reports are in order, each once and with that failure's reason |
| Tokens.ReportsAreEpisodesApart | crates/kanna-daemon/src/accounts.rs:423-437 | between any two reports a refresh was kept |
| Tokens.EveryFailureIsCovered | crates/kanna-daemon/src/accounts.rs:429-437 | every failure has a report at or before it with no refresh kept since |
| Tokens.UnwrittenRefreshIsRepeated | crates/kanna-daemon/src/accounts.rs:423-427 | a run in which a refresh that couldn't be written is made twice for one token |
| Tokens.ReturningTokenIsRefreshedTwice | crates/kanna-daemon/src/accounts.rs:713-717 | a run that passes the check against the last token and still refreshes one token twice |
| Settings.AddEntries | crates/kanna-daemon/src/agents.rs:568-577 | the loop adds each entry that isn't there and remembers all as Kanna's |
| Settings.AddToList | crates/kanna-daemon/src/agents.rs:554-577 | makes the object and the list when missing, recording each, and leaves what isn't an object or a list |
| Settings.CleanStarts | crates/kanna-daemon/src/agents.rs:604-614 | groups that are all Kanna's go, and Kanna's hooks go from the rest |
| Settings.DropHooks | crates/kanna-daemon/src/agents.rs:602-619 | the same on the whole object, pruning what Kanna made |
| Settings.Agents.Settings | crates/kanna-daemon/src/agents.rs:377-405 | one set up of both files and the record |
| Settings.Agents.Unsettings | crates/kanna-daemon/src/agents.rs:407-422 | one removal from both files |
| Settings.AllSetUps | crates/kanna-daemon/src/agents.rs:377-405 | after any number of set ups the object is the user's with new entries at the ends of three lists, and the record names exactly what was made and added |
| Settings.SecretsAreDenied | crates/kanna-daemon/src/agents.rs:377-405 | from any state, after any set ups, each one's socket is allowed, its paths are denied to the sandbox, and a rule denies reading each secret file and every file in the folder of secrets, wherever the lists can be added to |
| Settings.UserHooksStay | crates/kanna-daemon/src/agents.rs:602-618 | of the hooks at a session's start exactly an earlier Kanna's go, and the others keep their order |
| Settings.RemovedFile | crates/kanna-daemon/src/agents.rs:377-422 | what removing leaves after any set ups, in closed form: the user's object without an earlier Kanna's hooks and without the entries counted as Kanna's |
| Settings.RemoveUndoesSetUps | crates/kanna-daemon/src/agents.rs:377-422 | any set ups and then a removal give both files back, absent or whatever they held, if and only if their lists held none of Kanna's entries and neither held a Kanna hook |
| Sync.Agents.Plan | crates/kanna-daemon/src/agents.rs:251-283 | the step for every path, decided from the node, the record and the base copy before anything is written |
| Sync.Agents.CarryOut | crates/kanna-daemon/src/agents.rs:289-318 | one step: the node, the base copy and the record of that path, and no other path |
| Sync.Agents.KeepWant | crates/kanna-daemon/src/agents.rs:326-343 | records what is wanted, with a file's content as its base copy unless writing that fails |
| Sync.Agents.Sync | crates/kanna-daemon/src/agents.rs:285-324 | every path's outcome, however far it got; the record is saved only by a whole run |
| Sync.Agents.Remove | crates/kanna-daemon/src/agents.rs:218-238 | what is as installed goes, the rest stays and is reported, and record and base copies are dropped |
| Sync.ShippedIsInstalledIff | crates/kanna-daemon/src/agents.rs:251-330 | a whole sync leaves a shipped path installed, recorded and with its base copy if and only if nobody edited it, the edit can't be read, force is used with no folder in the way, or the merge is what is shipped |
| Sync.WrittenOverIsNew | crates/kanna-daemon/src/agents.rs:285-300 | a path that is written over holds what is shipped, and what was the same already stays |
| Sync.EditedShippedPath | crates/kanna-daemon/src/agents.rs:266-325 | an edit of what is shipped still is left alone; any other is merged and recorded, kept as a conflict, or kept and given up |
| Sync.UnshippedIsGoneIff | crates/kanna-daemon/src/agents.rs:254-259 | a recorded path no longer shipped is gone if and only if it is as installed, and recorded no more |
| Sync.OtherPathsStay | crates/kanna-daemon/src/agents.rs:251-330 | a path neither shipped nor recorded is left alone |
| Sync.ReportSaysWhatWasDone | crates/kanna-daemon/src/agents.rs:285-325 | the report names a path as written, a conflict or kept exactly when that became of it |
| Sync.EditIsKeptIff | crates/kanna-daemon/src/agents.rs:251-324 | without force an edit ends unchanged or as the clean merge over its base copy, unless it is in an unreadable file that is shipped and was replaced or removed |
| Sync.UnreadableEditIsLost | crates/kanna-daemon/src/agents.rs:678-687 | an unreadable file that is lost |
| Sync.FolderIsNeverReplaced | crates/kanna-daemon/src/agents.rs:270 | even with force a folder in the way stays |
| Sync.RecordNamesItsBase | crates/kanna-daemon/src/agents.rs:206-343 | over every sequence of user changes, whole syncs, resolutions and removals, the record of a file names its base copy's content |
| Sync.RecordNamesItsBaseIff | crates/kanna-daemon/src/agents.rs:206-343 | with stopped syncs among them it does if and only if each that moved the base copy was followed by something that mends it: a removal, a resolution, or a sync that keeps or drops the path anew |
| Sync.StoppedSyncNamesBaseIff | crates/kanna-daemon/src/agents.rs:285-343 | after a sync that stopped, that still holds for exactly the paths not yet done or whose base copy didn't move |
| Sync.StoppedSyncForgets | crates/kanna-daemon/src/agents.rs:285-343 | a path for which it doesn't |
| Sync.RetryHeals | crates/kanna-daemon/src/agents.rs:285-343 | the same sync without a failure makes it hold again, given that merging a shipped content over itself gives back the user's text |
| Sync.AgainIsTheSame | crates/kanna-daemon/src/agents.rs:251-324 | syncing a path again changes nothing about it |
| Sync.SecondSyncRepeats | crates/kanna-daemon/src/agents.rs:285-324 | a second sync writes no skill file, reports the same conflicts, and of the kept files those still shipped |
| Sync.RemoveUndoesFirstSyncIff | crates/kanna-daemon/src/agents.rs:218-238 | removing after a first sync gives a path back unless what is shipped was already there or an unreadable file was |
| Renumber.RandomId | crates/kanna-daemon/src/db.rs:1643-1647 | every draw makes a task ID |
| Renumber.LegacyIsNoTaskId | crates/kanna-daemon/src/db.rs:1632-1651 | an ID of the old form is none of the new |
| Renumber.Store.DrawId | crates/kanna-daemon/src/db.rs:1663-1668 | draws until an ID is free, or until the source fails |
| Renumber.Store.ChooseId | crates/kanna-daemon/src/db.rs:1660-1669 | the folder's name when that is a free task ID, else a drawn one |
| Renumber.Store.GiveIds | crates/kanna-daemon/src/db.rs:1654-1676 | renaming one task after another is one simultaneous renaming, with an event for each |
| Renumber.Store.Follow | crates/kanna-daemon/src/db.rs:1680-1698 | every blocker list of both tables is rewritten |
| Renumber.Store.Renumber | crates/kanna-daemon/src/db.rs:1653-1701 | the whole migration, or an error |
| Renumber.Store.InsertRows | crates/kanna-daemon/src/db.rs:770-787 | the rows not known by an ID or an earlier renumbering are inserted with their events |
| Renumber.Store.Import | crates/kanna-daemon/src/db.rs:765-791 | new rows with their events, then the migration; the count is of the saved tasks that arrive, and an error leaves the database as it was |
| Renumber.FoldersNameTheTasks | crates/kanna-daemon/src/db.rs:1659-1670 | tasks whose folders bear different free task IDs take those, with nothing drawn |
| Renumber.FolderNamesTheTaskIf | crates/kanna-daemon/src/db.rs:1659-1670 | a task gets its folder's name if that is a task ID neither taken nor given before, and else one that was drawn |
| Renumber.OldestAreRenumberedFirst | crates/kanna-daemon/src/db.rs:1655-1676 | new IDs are given to the oldest tasks first, and of those as old to the ones inserted first |
| Renumber.EveryTaskStays | crates/kanna-daemon/src/db.rs:1653-1701 | no task is lost or changed but for its ID and blockers, the IDs are different task IDs, and those there already stay |
| Renumber.EveryEventStays | crates/kanna-daemon/src/db.rs:1672 | no event is lost or changed but for the task it names and its blockers |
| Renumber.EventsFollowTheirTasks | crates/kanna-daemon/src/db.rs:1672-1673 | an event still names the task, by row, that it named |
| Renumber.EachTaskKeepsItsStory | crates/kanna-daemon/src/db.rs:1653-1676 | the events that name a task are those that named it, in their order, and then, if it got a new ID, one that says which it had |
| Renumber.AddedEventsRecordRenamings | crates/kanna-daemon/src/db.rs:1674 | each added event records one task's old ID under its new one |
| Renumber.EventsStillNameTasks | crates/kanna-daemon/src/db.rs:1672-1674 | every event names an existing task |
| Renumber.BlockersFollowTheirTasks | crates/kanna-daemon/src/db.rs:1680-1688 | a blocker list of existing tasks keeps its order and length and names the same tasks |
| Renumber.UnknownBlockersAreDropped | crates/kanna-daemon/src/db.rs:1683 | exactly the entries that are no text, or neither renamed nor task IDs, are dropped |
| Renumber.BlockersAreMappedIff | crates/kanna-daemon/src/db.rs:1677-1698 | every blocker list ends up mapped if and only if a task was renamed or no list held anything but task IDs |
| Renumber.OldBlockersStay | crates/kanna-daemon/src/db.rs:1677-1679 | a database whose blocker list is left with an old ID |
| Renumber.OldIdsAreRemembered | crates/kanna-daemon/src/db.rs:1674 | every renamed task's old ID is on record, and earlier records stay |
| Renumber.SecondRunChangesNothing | crates/kanna-daemon/src/db.rs:1653-1701 | a second run gives the same database, whatever could be drawn |
| Renumber.ImportKeepsWhatWasThere | crates/kanna-daemon/src/db.rs:765-791 | importing keeps all tasks and events, and every event names a task |
| Renumber.EachSavedTaskArrives | crates/kanna-daemon/src/db.rs:765-791 | each saved task of the old form with a repo, first with its ID and not known, has its row, in order, with the place of its list and its own repo, time, terminal and texts, and exactly the events that it was made, came to the Desk if it ran, and had its old ID |
| Renumber.OnlySavedTasksArrive | crates/kanna-daemon/src/db.rs:765-791 | there are as many new rows as such tasks |
| Renumber.ImportingAgainAddsNothing | crates/kanna-daemon/src/db.rs:773-775 | the same backlog adds nothing to any later database that still has the first import's events |
| Renumber.ImportingTwiceIsImportingOnce | crates/kanna-daemon/src/db.rs:765-791 | in particular right after the first import |
| Replica.Replica.Stamped | crates/kanna-daemon/src/replica.rs:202-207 | a stamp later than the clock, with the greater of wall clock and clock |
| Replica.TickIsLeast | crates/kanna-daemon/src/replica.rs:202-207 | the stamp is the least that is later than the clock and not before the wall clock |
| Replica.Replica.Projected | crates/kanna-daemon/src/replica.rs:209-215 | the memory after an operation, and whether its field took the value |
| Replica.Replica.Write | crates/kanna-daemon/src/replica.rs:233-262 | a field that has the value is left alone; else one new stamp, row and value |
| Replica.Replica.Commit | crates/kanna-daemon/src/replica.rs:239-249 | a row whose stamp is there is ignored, any other added |
| Replica.Replica.ProjectEach | crates/kanna-daemon/src/replica.rs:251-253 | the operations projected one after another |
| Replica.Replica.Apply | crates/kanna-daemon/src/replica.rs:264-275 | the machine after the batch in the order of its stamps; raising the clock first makes no difference |
| Replica.OpsAfter | crates/kanna-daemon/src/replica.rs:281-295 | only operations past the vector, of each device without a gap, at most 2000, and all of them when fewer |
| Replica.ReplicasConverge | crates/kanna-daemon/src/replica.rs:209-275 | machines that applied the same operations hold equal records, in whatever order, batches and repetition |
| Replica.OneOutcome | crates/kanna-daemon/src/replica.rs:92-100 | a set of operations with distinct stamps has only one outcome |
| Replica.LaterWriteWins | crates/kanna-daemon/src/replica.rs:92-100 | a field holds the value of the latest operation on it, whoever made it |
| Replica.VectorIsExact | crates/kanna-daemon/src/replica.rs:255-295 | in every run, with messages lost, late and repeated, batches cut and machines restarted, a machine holds exactly those operations ever made that its vector covers |
| Replica.EqualVectorsEqualRecords | crates/kanna-daemon/src/replica.rs:277-295 | in every run machines with equal vectors hold the same operations and equal records |
| Replica.SettledAgree | crates/kanna-daemon/src/replica.rs:264-295 | so do machines that have nothing left to send each other |
| Replica.PullBrings | crates/kanna-daemon/src/replica.rs:264-295 | a pull brings only what was missing, something if anything was, and all if the batch isn't full |
| Replica.PullingCatchesUp | crates/kanna-daemon/src/replica.rs:264-295 | in every run as many pulls as operations are missing, whatever the batches, bring all another machine holds |
| Permits.Shelf.HoldUnlessHeld | crates/kanna-daemon/src/replica.rs:430-435 | a task without a row gets one at epoch zero |
| Permits.Shelf.Starts | crates/kanna-daemon/src/replica.rs:308-316 | only a task that is ready or running here starts |
| Permits.Shelf.Gives | crates/kanna-daemon/src/replica.rs:318-335 | only a ready task is granted, at the next epoch, and is then no longer had here |
| Permits.Shelf.Hands | crates/kanna-daemon/src/replica.rs:337-352 | so is a running one when handed over |
| Permits.Shelf.Receives | crates/kanna-daemon/src/replica.rs:385-397 | a grant of a later epoch makes the task ready here, any other changes nothing |
| Permits.Shelf.Acks | crates/kanna-daemon/src/replica.rs:399-406 | only a sent grant of that epoch counts as received |
| Permits.Shelf.Reclaims | crates/kanna-daemon/src/replica.rs:354-363 | the task runs here again |
| Permits.OneHolder | crates/kanna-daemon/src/replica.rs:308-406 | in every run, with grants lost, late and repeated, at most one machine has the task ready or running, unless something was reclaimed that another had or could still take |
| Permits.OneHolderIff | crates/kanna-daemon/src/replica.rs:308-406 | from no point of a run can two machines come to have it if and only if at every reclaim the machine had it itself, or nobody did and only its own next epoch could be taken |
| Permits.TakenButCalledOff | crates/kanna-daemon/src/replica.rs:354-397 | a run in which a hand-over is taken and called off, and both have the task |
| Permits.GrantIsTakenOnce | crates/kanna-daemon/src/replica.rs:385-397 | in every run, reclaims included, a grant that arrives again changes nothing |
| Permits.PermissionIsNotLost | crates/kanna-daemon/src/replica.rs:318-414 | in every run without a reclaim one machine has the task and no grant can be taken, or none has it and exactly one grant can, which is in its giver's outbox |
| Permits.HoldsIff | crates/kanna-daemon/src/replica.rs:308-397 | in every run a machine has the task exactly while it made, took or reclaimed it and hasn't given it away since, and runs it exactly while it was also started; a started one is only handed over |
| Permits.OutboxIff | crates/kanna-daemon/src/replica.rs:318-414 | in every run a grant is in its giver's outbox exactly from its making until it is acknowledged or the task is had here again |
| Civil.CivilDateIsTheDay | crates/kanna-crash/src/lib.rs:84-97 | every count of days gives a valid proleptic Gregorian date whose day number is that count |
| Civil.CivilDateCounts | crates/kanna-crash/src/lib.rs:84-97 | the arithmetic equals counting from 1970-01-01 a day at a time |
| Civil.NextDate | crates/kanna-crash/src/lib.rs:84-97 | consecutive days give consecutive dates |
| Civil.DatesAreOrderedIff | crates/kanna-crash/src/lib.rs:84-97 | dates are in the order of their days, and differ when these do |
| Civil.MomentIsValid | crates/kanna-crash/src/lib.rs:84-97 | the date is of 1970 or later, and hour, minute and second are in range |
| Civil.StampsSortByTime | crates/kanna-crash/src/lib.rs:99-104 | through the year 9999 stamps compare as text exactly as their times do, to the millisecond, and are equal exactly then |
| Civil.Year10000SortsBefore9999 | crates/kanna-crash/src/lib.rs:99-104 | every compact stamp of the year 10000 sorts before every one of the year 9999 |
| Civil.StampIsDateTimeIff | crates/kanna-crash/src/lib.rs:103 | the other stamp is a date-time of section 5.6 of RFC 3339 if and only if the year is at most 9999 |
| Packing.Span | apps/kanna-ios/Kanna/Quiz.swift:10-17 | a tile is at most three by three and never higher than wide |
| Packing.SpanFitsTheShare | apps/kanna-ios/Kanna/Quiz.swift:10-17 | a tile gets the largest size of at most one cell more than its share, two cells for a full share of two or a long name |
| Packing.SpanGrows | apps/kanna-ios/Kanna/Quiz.swift:10-17 | more lines and a longer name never make a tile smaller |
| Packing.FindSpot | apps/kanna-ios/Kanna/Quiz.swift:27-40 | the search ends, at the first free spot by rows |
| Packing.PackMap | apps/kanna-ios/Kanna/Quiz.swift:19-44 | each tile, most lines first, at the first spot the earlier ones leave free, and the row count is the lowest bottom edge |
| Packing.ByLinesSorts | apps/kanna-ios/Kanna/Quiz.swift:24 | every tile once, most lines first |
| Packing.PackedIsApart | apps/kanna-ios/Kanna/Quiz.swift:19-44 | every tile is placed once, inside six columns, and no two share a cell |
| Packing.PackingIsUnique | apps/kanna-ios/Kanna/Quiz.swift:19-44 | there is only one such packing |
| Ledger.Take | crates/kanna-daemon/src/agent_stats.rs:57-97 | what each kind of row opens and closes, and how the closed spans end |
| Ledger.Tell | crates/kanna-daemon/src/agent_stats.rs:52-102 | the three lists of one task, with what is still open at the end |
| Ledger.Group | crates/kanna-daemon/src/agent_stats.rs:46-49 | each task's rows, in their order |
| Ledger.MakeLedger | crates/kanna-daemon/src/agent_stats.rs:45-105 | the tasks' lists one after another |
| Ledger.NeverTwoOpen | crates/kanna-daemon/src/agent_stats.rs:37-42 | whatever the rows, at most one of turn, wait and unread is open |
| Ledger.StoryIsWhatRowsSay | crates/kanna-daemon/src/agent_stats.rs:45-105 | whatever the rows, a story holds exactly the spans from a row that begins a turn, a wait or unread work to the first that ends it, and those that none has ended |
| Ledger.StoryIsInTurn | crates/kanna-daemon/src/agent_stats.rs:45-105 | on rows in the order of time a task's spans of all kinds follow one another between its first row and now |
| Ledger.SpansFitTheTime | crates/kanna-daemon/src/agent_stats.rs:45-105 | so they are disjoint inside and total no more than the time passed |
| Ledger.LedgerHasEachStory | crates/kanna-daemon/src/agent_stats.rs:45-105 | in the whole ledger each task's spans are its own story's, each once |
| Ledger.DaysAddUp | crates/kanna-daemon/src/agent_stats.rs:108-116 | the days' seconds add up to the spans clipped to the period |
| Ledger.HoursAddUp | crates/kanna-daemon/src/agent_stats.rs:108-116 | the rounded hours do so but for half a hundredth of an hour a day |
| Diffs.Diffs.Request | crates/kanna-daemon/src/diffs.rs:95-111 | a request without a folder, or with arguments that are no list of strings, changes nothing; any other subscribes |
| Diffs.AskedIff | crates/kanna-daemon/src/diffs.rs:95-101 | a diff is asked for exactly by a named folder and arguments that are all strings, or none |
| Diffs.Diffs.Subscribe | crates/kanna-daemon/src/diffs.rs:102-111 | the view leaves where it was and joins, starting a watch if there is none, and gets that watch's copy |
| Diffs.Diffs.Show | crates/kanna-daemon/src/diffs.rs:122-137 | the one watch with the view shows the new union |
| Diffs.Diffs.Leave | crates/kanna-daemon/src/diffs.rs:139-159 | the views are gone, the watches left show what remains, and those without views are stopped |
| Diffs.Diffs.Updating | crates/kanna-daemon/src/diffs.rs:168-171 | marks the watch, if it is still there |
| Diffs.Diffs.Loaded | crates/kanna-daemon/src/diffs.rs:173-187 | a changed diff raises the serial and goes to every view; the same diff goes to none |
| Diffs.ViewsAreInOneWatch | crates/kanna-daemon/src/diffs.rs:95-159 | in every run each view is in at most one watch, and no watch is without views |
| Diffs.WatchShowsTheUnion | crates/kanna-daemon/src/diffs.rs:122-137 | in every run a watch shows exactly the files some view of it shows, and its worker was last told so |
| Diffs.CopiesAgree | crates/kanna-daemon/src/diffs.rs:95-187 | in every run a subscribed view last received its watch's own serial and diff |
| Diffs.ViewsShowWhatTheyGave | crates/kanna-daemon/src/diffs.rs:95-159 | in every run a view is in exactly the watch it last subscribed to, until it leaves, and shows there exactly the files it last gave |
| Diffs.WatchHasTheLastLoaded | crates/kanna-daemon/src/diffs.rs:95-187 | in every run a watch is there exactly while a view is, and has the diff last loaded for it since |
| Diffs.UpdatingIff | crates/kanna-daemon/src/diffs.rs:113-187 | in every run a watch is marked as updating exactly when something made it load and nothing was loaded since |
| Diffs.ViewsGoWhereTheyAsk | crates/kanna-daemon/src/diffs.rs:95-141 | a view that subscribes is in that watch, and one that leaves is in none |
| Diffs.SerialNamesTheDiff | crates/kanna-daemon/src/diffs.rs:173-187 | in one life of a watch, in every run, the serials at two points are equal if and only if no diff loaded between was a change, and then the diffs are equal; they never fall |
| Diffs.CopiesOfOneSerial | crates/kanna-daemon/src/diffs.rs:95-187 | so two copies with one serial that views received in one life of a watch are the same |
| Crashes.Watcher.Attached | crates/kanna-daemon/src/crashes.rs:266-272 | whatever was watched, the attached app is now |
| Crashes.Watcher.SaidGoodbye | crates/kanna-daemon/src/crashes.rs:274-278 | remembers a clean goodbye |
| Crashes.Watcher.WentAway | crates/kanna-daemon/src/crashes.rs:280-290 | a goodbye ends the watch; without one the app is watched for its crash |
| Crashes.Watcher.Tick | crates/kanna-daemon/src/crashes.rs:353-383 | the step of each state, and whether the app is launched now |
| Crashes.Watcher.LookedFor | crates/kanna-daemon/src/crashes.rs:331-351 | a look that came back counts only while one is awaited |
| Crashes.Watcher.HasCrashed | crates/kanna-daemon/src/crashes.rs:385-405 | the history keeps the last ten minutes, and its length decides |
| Crashes.GoodbyeDecides | crates/kanna-daemon/src/crashes.rs:266-290 | in every run an app that leaves has quit exactly when it said goodbye since it came, and else, unless the daemon stops, has vanished |
| Crashes.CrashedAppIsRelaunched | crates/kanna-daemon/src/crashes.rs:266-405 | in every run an app that vanished, died in time and left a crash record is launched at the first tick past its delay, if it said how and this is at most the third crash of ten minutes |
| Crashes.FoundCrashIsAnsweredIff | crates/kanna-daemon/src/crashes.rs:385-405 | a found crash leads to a relaunch, after the delay for its count, if and only if the app said how and this is at most the third of ten minutes |
| Crashes.DueRelaunchIsMade | crates/kanna-daemon/src/crashes.rs:353-383 | a decided relaunch is made at the first tick that is due while no app came |
| Crashes.RunningAppIsLetGo | crates/kanna-daemon/src/crashes.rs:280-383 | an app that lost its link and still runs when the wait is over is let go |
| Crashes.UnfoundIsLookedForAgain | crates/kanna-daemon/src/crashes.rs:331-383 | a dead app with no record is looked for again until the wait since its death is over |
| Crashes.FourDecisionsSpanTenMinutes | crates/kanna-daemon/src/crashes.rs:29-35 | in every run any four relaunch decisions span at least ten minutes |
| Crashes.DelayIsByCount | crates/kanna-daemon/src/crashes.rs:29-35 | every decision's delay is the one for the number of crashes in its ten minutes |
| Crashes.DecisionsAreOfDifferentApps | crates/kanna-daemon/src/crashes.rs:266-351 | between any two decisions an app came and vanished |
| Crashes.DecisionIsForTheLastIff | crates/kanna-daemon/src/crashes.rs:331-383 | a decision answers a vanishing before it, and the last one if and only if no app came in between |
| Crashes.StaleLookDecides | crates/kanna-daemon/src/crashes.rs:331-351 | a run in which the first app's slow look decides while the second's is awaited |
| Crashes.QuietAfterQuit | crates/kanna-daemon/src/crashes.rs:266-383 | after a clean quit nothing is decided or launched until an app has come and vanished without a goodbye |
| Crashes.ComingCancelsTheRelaunch | crates/kanna-daemon/src/crashes.rs:353-383 | every launch has a decision of its own, at least its delay before, with no app attached in between |
| Quote.CommandReadsBack | crates/kanna-cloud/src/main.rs:127-132 | quoted words joined with spaces read back, by section 2.2 of the POSIX Shell Command Language, as the words exactly when none holds a NUL, and else not at all |
| Quote.SimpleCommandReadsBackIff | crates/kanna-cloud/src/main.rs:127-132 | as a simple command they read back if and only if none holds a NUL and the first, left unquoted, is no assignment and no reserved word |
| Quote.AssignmentIsTaken | crates/kanna-cloud/src/main.rs:127-132 | words that don't: the first is an assignment |
| Quote.CommandsAreDistinct | crates/kanna-cloud/src/main.rs:127-132 | different words make different commands |
| Quote.OuterReadsBack | crates/kanna-cloud/src/main.rs:180-182 | the outer shell hands the inner one any command unchanged |
| Quote.NestedCommandReadsBack | crates/kanna-cloud/src/main.rs:180-182 | words quoted for an inner shell and again for an outer one come through both; as a simple command exactly when the inner one's first word is no assignment and no reserved word |
| Quote.SetUpReadsBack | crates/kanna-cloud/src/main.rs:312-313 | the setup command gives its script exactly its four arguments, whatever the options hold |
| News.News.Add | crates/kanna-daemon/src/desk_news.rs:63-65 | a step of a run: every repo's items stay accounted for, told or held in the order they were added |
| News.News.Merged | crates/kanna-daemon/src/desk_news.rs:67-71 | exactly the task's pending items learn what became of the merge |
| News.News.ReposOf | crates/kanna-daemon/src/desk_news.rs:73-81 | each repo with news once, in the order of their first |
| News.News.Due | crates/kanna-daemon/src/desk_news.rs:98-107 | the due repos' items, each repo's in one text, are told and gone |
| News.TellsIffNextIsDue | crates/kanna-daemon/src/desk_news.rs:94-107 | a call tells something exactly when the next time is at or before now |
| News.NothingDueIsLeft | crates/kanna-daemon/src/desk_news.rs:94-107 | and leaves nothing due |
| News.EachItemIsToldOnce | crates/kanna-daemon/src/desk_news.rs:62-107 | in every run, of each repo, the items added are those told and then those held, in the order they were added |
| News.ItemsSayWhatWasHeard | crates/kanna-daemon/src/desk_news.rs:63-107 | and each says of its merge what was first heard of its task's after it was added and before it was told |
| News.TextHasEachLine | crates/kanna-daemon/src/desk_news.rs:98-107 | a repo's text has a line for each of its items, in order, and no other, where none breaks a line |
| News.DueIff | crates/kanna-daemon/src/desk_news.rs:83-92 | a repo's news is due, with a merge pending, exactly once its first item is thirty seconds old, else exactly once all items are two seconds old or the first is ten; in any case once the first is thirty |
| News.NoneOverstays | crates/kanna-daemon/src/desk_news.rs:83-107 | with items added in the order of time, none is held past a call thirty seconds or more after it |
| News.OutOfOrderOverstays | crates/kanna-daemon/src/desk_news.rs:83-92 | that order is needed for this; the daemon, which stamps items as it adds them, keeps it |

## Left out

- Supply.DeliveredMeansKept: takes a payload as one read; the code reads accounts and version apart (accounts.rs:316 and 326), and a secret that can't be read for a while would leave its account out of a payload of the same version.
- Supply.Accounts.Receive: takes the stored sets as readable; in the source an unreadable store reads as empty, so the next supply drops the other sources' sets.
- Supply.Accounts.Remove: the three things a name is compared with (ID, agent, kind) are three cases, since none of their values coincide.
- Tokens.OneKeptRefreshPerToken: that every kept token is new is what the Codex service promises, not the code; `Tokens.RefreshedAgainIff` does without it.
- Requests.AppLink.Gone: `close()` (app_link.rs:602-607), which empties the connections without answering, is no event of a run.
- Ledger.SpansFitTheTime: over reals; floating-point rounding of times is not modelled.
- Civil.StampsSortByTime: whole numbers are unbounded; the source's seconds are 64 bits, which never overflow here.
- Packing.PackMap: shares are exact reals, and equal line counts keep their order, which Swift's sort does in practice.
- Quote.CommandReadsBack: reads an assignment or a reserved word in the first place as a plain word; `Quote.SimpleCommandReadsBackIff` doesn't.
- Sync.Agents.Sync: paths are independent of one another; folders above them, links into one another and the order of the two sorted maps beyond their being walked once are not modelled, nor is the per-skill summary.
- Settings.RemoveUndoesSetUps: the order of JSON keys and the layout of the text are not modelled, nor a settings file that can't be written.
- Replica.Replica.Write: writes one field; a write of several is several of these. The parts of a stamp are unbounded, and a machine keeps its device name.
- Replica.PullingCatchesUp: counts pulls by missing operations; full batches need fewer.
- Permits.OneHolder: `take` and `yielded`, by which a machine runs an absent owner's task on purpose, are no steps; nor is a transfer sent again after its sender got the task back, which the code sends with the epoch of the sender's row at that time (moving.rs:340).
- CallTree.Parse: the wording of the mistakes is an enumeration.
- Diffs.Diffs.Request: how the ID of a watch is made is given; the source makes it of four digest bytes, so two diffs could share one. The worker's loop and file watching are left out.
- Crashes.Watcher.LookedFor: finding and reading a crash record is an input.
- Prune and withdraw of accounts, and the back-off waits of the supply loop, which only delay calls.
- Sockets, threads, file watching, SQLite and its checkpoints, git, ssh and process control: only the state they drive.
- Terminals, panes, layouts, schedules, machines, builds, coverage and the user interface: mostly plumbing, or easy properties only.
- `files.rs`, whose subscriptions repeat those of `diffs.rs`.
- Channel names, argument parsing and build scripts: easy properties only.
