# BPanel: a verified model

BPanel is a hosting control panel. This project models six of its parts in Dafny and proves what
they are built to keep:

- `TerminalBridge.dfy`: the bridge between a PTY and a browser, as a transition system with every
  interleaving of its reader, its sender and its closing.
- `LimitsNames.dfy`, `LimitsConfig.dfy`, `LimitsApplier.dfy`, `LimitsRecord.dfy`, `LimitsMover.dfy`,
  `UidEvents.dfy`, `LimitsHistory.dfy`: the resource-limits agent. Its configuration and the names that
  encode the cgroup tree, the incremental applier and its record on disk, the process mover, the netlink
  parser and the usage history.
- `LoginLimiter.dfy`, `Login.dfy`, `LoginThreads.dfy`, `LoginAlone.dfy`, `LoginCrowd.dfy`: signing in under the
  rate limiter, second factors and single-use challenges, one call at a time and side by side.
- `Sessions.dfy`, `VersionRaces.dfy`: tokens with versions, revocation, renewal, impersonation and
  two-factor changes; and changes of a version that overlap.
- `Accounts.dfy`: admins, resellers and end users, who may manage whom, and the requests that change them.
- `Jobs.dfy`: the bounded table of background jobs.
- `Translations.dfy`: the generator of the translation file and the lookup that fills placeholders.
- `Text.dfy`, `Wrappers.dfy`: text and small helpers shared by the others.

Where the program changes state in place, a class does the same and is proved against a pure step
function; the theorems are about that function and range over every run. What other programs answer
(systemd, the database, a password check) comes in as a parameter or is left to chance. A call that
fails changes nothing, and one that times out may have had its effect or not.

## What turned out not to hold

Each of these is kept as the code has it, with the exact condition and a concrete case.

- The agent says a malformed configuration is refused whole. A value of the wrong shape raises another
  error than the one that is caught: exactly when, `LimitsConfig.LoadConfig`; a document,
  `LimitsConfig.TextForAGroupEscapes`. Python's `$` also lets a line break follow a name:
  `LimitsNames.EndsInSliceIff`, `LimitsNames.LineBreakIsAccepted`.
- A slice listed twice keeps uids of its first listing in the uid map: `LimitsConfig.UidMapIsExactIff`,
  `LimitsConfig.RewrittenSliceLeavesUidBehind`.
- After a reboot, a forced call that fails leaves a record that later passes believe:
  `LimitsApplier.IncrementalReachesTargetIff`, `LimitsApplier.StaleRecordIsNeverRepaired`.
- The event parser trusts a message's length: `UidEvents.OverrunsIff`, `UidEvents.ClaimedLengthOverruns`.
- The record of applied limits is there so that a release can undo all of them. A pass that is cut short
  leaves limits it does not know of, and a login slice among them escapes a release as well:
  `LimitsRecord.LostOverRunIff`, `LimitsRecord.ForcedPassReachesTargetIff`, `LimitsRecord.LostLoginSliceSurvives`.
- A wrong second factor is not always counted: a passkey's answer whose reading raises an error other
  than the two that are caught (JSON that is no object, or nested too deep) ends the call before anything is
  recorded. `Login.WrongSecretsCountIff`, `Login.UnreadableAnswerGoesUncounted`.
- An impersonation is meant to end for good and to be one level deep. Turning the target's two-factor
  authentication on or off in it, which takes the target's own secrets, gives an ordinary session of the
  target: `Sessions.ImpersonationLeadsNowhereIff`, `Sessions.OutlivedIff`, `Sessions.OneLevelOnlyIff`,
  `Sessions.ImpersonationOutlived`.
- Token versions rise when one change is made at a time. One that is overtaken by two others takes the
  version back, and a refused token is accepted again: `VersionRaces.LowersIff`,
  `VersionRaces.OneBetweenIsSafe`, `VersionRaces.RefusedVersionComesBack`.
- An admin can name itself as the reseller of an account it creates, and a reseller without customers
  can be made an end user of itself: `Accounts.HierarchyKeptIff`, `Accounts.BothSlipPast`.
- A translation of `__proto__` is printed and then ignored by JavaScript:
  `Translations.GeneratedLooksUpTheSameIff`, `Translations.ProtoIsLost`.

## Model

| member | source | states |
|---|---|---|
| `TerminalBridge.DeliveredInOrder` | backend/app/api/terminal.py:214-251 | in every interleaving, what the browser took, what is in flight and what is queued are together every byte of every read of the PTY, in order; a sender that returns "exit" has sent all of it, after the end of the PTY |
| `TerminalBridge.BridgeIsBounded` | backend/app/api/terminal.py:204-251 | at most 65 items are queued, a frame stays under 256 KiB + 64 KiB, and `reading` says exactly whether the callback is registered, until closing removes it |
| `TerminalBridge.ReadingTurnsIff` | backend/app/api/terminal.py:222-251 | reading stops exactly at the end of the PTY and with the chunk that makes 65, and starts again exactly when a send returns, no end stopped it and fewer than 16 chunks are left |
| `TerminalBridge.NeverStalls` | backend/app/api/terminal.py:234-251 | a sender with nothing to send has the reader registered and the PTY has not ended; after its end the sender can always go on |
| `TerminalBridge.EndIsReached` | backend/app/api/terminal.py:234-251 | after a read without bytes, or one that failed, a measure bounds the sender's steps, and taking them all brings it to "exit" with every byte of every read taken by the browser |
| `TerminalBridge.RunKeepsInv` | backend/app/api/terminal.py:202-251 | the invariant behind these, kept by every step of every run |
| `TerminalBridge.Bridge.ReadReady` | backend/app/api/terminal.py:214-230 | the reader callback does its step: end marker, chunk, pause |
| `TerminalBridge.Bridge.TakeFrame` | backend/app/api/terminal.py:237-246 | the drain loop takes exactly the frame the step describes |
| `TerminalBridge.Bridge.FrameSent` | backend/app/api/terminal.py:246-251 | after a send: exit, or read again once the queue is short |
| `TerminalBridge.Bridge.Shut` | backend/app/api/terminal.py:305-310 | closing leaves no reader registered |
| `TerminalBridge.WriteAll` | backend/app/api/terminal.py:253-260 | the PTY gets a prefix of the input, once and in order, and the loop ends early only with all of it |
| `LimitsNames.KindsNeverCoincide` | backend/app/agents/bpanel_limits_agent.py:62-63 | no accepted group, account or login slice shares its name with one of another kind, and login slices differ by uid |
| `LimitsNames.GroupSliceIff` | backend/app/agents/bpanel_limits_agent.py:62-62 | which names of groups match: `hosting-r`, one to nine digits and `.slice`, or that and a line break |
| `LimitsNames.AccountSliceIff` | backend/app/agents/bpanel_limits_agent.py:63-63 | which names of accounts match, and what group each names |
| `LimitsNames.EndsInSliceIff` | backend/app/agents/bpanel_limits_agent.py:62-63 | an accepted name ends in `.slice` exactly if no line break follows it |
| `LimitsNames.LineBreakIsAccepted` | backend/app/agents/bpanel_limits_agent.py:62-63 | an accepted name with a line break, and the directory it stands for |
| `LimitsNames.ScopeInjective` | backend/app/agents/bpanel_limits_agent.py:147-148 | a scope name determines its slice and its uid |
| `LimitsNames.SlicePathInjective` | backend/app/agents/bpanel_limits_agent.py:141-144 | a slice path determines its slice |
| `LimitsNames.AccountSitsUnderItsGroup` | backend/app/agents/bpanel_limits_agent.py:141-144 | an account with a reseller is exactly one level below the path of the reseller's group, any other one below hosting.slice |
| `LimitsConfig.LoadConfig` | backend/app/agents/bpanel_limits_agent.py:87-133 | a document is accepted exactly if it is in order, and then gives what it says: each limit under its own key, of the last item of each name; it escapes with an error that is not a refusal exactly if its first fault, in the order of reading, is one of shape |
| `LimitsConfig.TruthyIff` | backend/app/agents/bpanel_limits_agent.py:87-131 | which values Python takes for false: nothing, false, zeros and whatever is empty |
| `LimitsConfig.CleanLimitsIff` | backend/app/agents/bpanel_limits_agent.py:87-96 | an object of limits is accepted exactly if each of the five keys is absent or a whole number within its bound, and each field is then the number under its own key, or 0 |
| `LimitsConfig.SourceIff` | backend/app/agents/bpanel_limits_agent.py:64-64 | which sources match: one to eighty letters, digits and signs and `.service` |
| `LimitsConfig.PathIff` | backend/app/agents/bpanel_limits_agent.py:107-107 | which paths do |
| `LimitsConfig.ValidIff` | backend/app/agents/bpanel_limits_agent.py:99-133 | which documents are in order, read off the document |
| `LimitsConfig.AcceptedSays` | backend/app/agents/bpanel_limits_agent.py:99-133 | an accepted configuration has the limits, uids and choice about sessions that the last item of each name gives |
| `LimitsConfig.GroupCrashesIff` | backend/app/agents/bpanel_limits_agent.py:112-117 | the shapes of a group that escape: no object, or an accepted name with limits that are neither empty nor an object |
| `LimitsConfig.AccountCrashesIff` | backend/app/agents/bpanel_limits_agent.py:118-131 | the same for an account, its list of uids included |
| `LimitsConfig.CrashesIsBadShape` | backend/app/agents/bpanel_limits_agent.py:113-131 | only an ill-shaped document escapes so |
| `LimitsConfig.TextForAGroupEscapes` | backend/app/agents/bpanel_limits_agent.py:113-114 | one that does: a version and a text for a group |
| `LimitsConfig.EarlierFaultRefuses` | backend/app/agents/bpanel_limits_agent.py:104-105 | one as ill-shaped that is refused, for a fault before it |
| `LimitsConfig.LoadGroups` | backend/app/agents/bpanel_limits_agent.py:112-117 | the groups loop accepts exactly when every item reads, gives each group the limits under the keys of the last item of its name, and escapes exactly when the first that does not read raises another error |
| `LimitsConfig.LoadAccounts` | backend/app/agents/bpanel_limits_agent.py:118-132 | the accounts loop accepts exactly when every item reads and no uid is listed under two slices, gives each account the limits and uids of the last item of its name, and escapes exactly when the first to fail raises another error |
| `LimitsConfig.AddUids` | backend/app/agents/bpanel_limits_agent.py:127-130 | adds the uids of one account, or reports that one of them has another owner |
| `LimitsConfig.AcceptedIsWellFormed` | backend/app/agents/bpanel_limits_agent.py:112-133 | in an accepted configuration names are of their kind, uids are hosting uids, no uid is in two accounts and the uid map points to the account that lists it |
| `LimitsConfig.UidMapIsExactIff` | backend/app/agents/bpanel_limits_agent.py:127-131 | the uid map holds nothing else exactly if a slice written twice lists, the last time, every uid it listed before |
| `LimitsConfig.RewrittenSliceLeavesUidBehind` | backend/app/agents/bpanel_limits_agent.py:127-131 | an accepted document that leaves a uid mapped to an account that does not list it |
| `LimitsApplier.PropertiesReplaceEverything` | backend/app/agents/bpanel_limits_agent.py:151-177 | a successful call leaves the unit with exactly these limits whatever it held, throttles no later than it stops, and no limits is the default |
| `LimitsApplier.BuildWanted` | backend/app/agents/bpanel_limits_agent.py:212-220 | every wanted unit carries the limits of its one group or account, and nothing else is wanted |
| `LimitsApplier.WantedIsUnique` | backend/app/agents/bpanel_limits_agent.py:212-220 | a configuration leaves no choice of wanted units |
| `LimitsApplier.OneOwner` | backend/app/agents/bpanel_limits_agent.py:213-220 | a unit belongs to at most one account and to no group besides |
| `LimitsApplier.DocumentReachesSystemd` | backend/app/agents/bpanel_limits_agent.py:87-177 | from the document to systemd: after a pass in which no call fails, every group, account and login slice has the limits that the last item of its name gives under their keys, and throttles at nine tenths of its memory |
| `LimitsApplier.Applier.Apply` | backend/app/agents/bpanel_limits_agent.py:211-230 | a pass changes systemd, the record and the saved record as specified, with any calls failing; a call that times out, or a record that cannot be saved, cuts it short and nothing is saved |
| `LimitsApplier.Applier.Save` | backend/app/agents/bpanel_limits_agent.py:204-209 | all of the record is saved or none of it |
| `LimitsApplier.Applier.DropUnwanted` | backend/app/agents/bpanel_limits_agent.py:222-225 | the first loop: recorded units no longer wanted |
| `LimitsApplier.Applier.SetWanted` | backend/app/agents/bpanel_limits_agent.py:226-229 | the second loop: wanted units whose record differs, or all |
| `LimitsApplier.Applier.Release` | backend/app/agents/bpanel_limits_agent.py:232-241 | every recorded and every found unit is released, and the record emptied; a call that times out cuts it short |
| `LimitsApplier.PassKeepsTheRecordTrue` | backend/app/agents/bpanel_limits_agent.py:211-230 | under any failed calls the record keeps agreeing with systemd and covering every limited unit |
| `LimitsApplier.RunKeepsTheRecordTrue` | backend/app/agents/bpanel_limits_agent.py:211-230 | the same over every run of passes |
| `LimitsApplier.PassReachesTarget` | backend/app/agents/bpanel_limits_agent.py:211-230 | with no failed call every wanted unit has its limits and every other unit none |
| `LimitsApplier.IncrementalReachesWhatForcedReaches` | backend/app/agents/bpanel_limits_agent.py:211-230 | with no failed call an incremental pass and a forced one end in the same systemd state and record |
| `LimitsApplier.ForcedPassAfterReboot` | backend/app/agents/bpanel_limits_agent.py:211-230 | from a reboot a forced pass without failures makes record and systemd agree, whatever the record said |
| `LimitsApplier.IncrementalReachesTargetIff` | backend/app/agents/bpanel_limits_agent.py:226-229 | an incremental pass without failures reaches its target exactly if the units it skips were there already |
| `LimitsApplier.StaleRecordIsNeverRepaired` | backend/app/agents/bpanel_limits_agent.py:226-229 | after a reboot and a failed forced call for a unit, over every run of incremental passes it has no limits for as long as the same ones are wanted for it |
| `LimitsApplier.ReleaseIsCompleteIff` | backend/app/agents/bpanel_limits_agent.py:232-241 | a release leaves nothing limited exactly if each limited unit was found and its call succeeded |
| `LimitsRecord.LostAfterIff` | backend/app/agents/bpanel_limits_agent.py:211-230 | exactly what one pass, whole or cut short, leaves limited without a record of it, and what it finds again |
| `LimitsRecord.LostOverRunIff` | backend/app/agents/bpanel_limits_agent.py:189-230 | over every run of whole and cut passes: a unit has limits no record knows of exactly if a pass that was cut short gave them to it and none since has set it |
| `LimitsRecord.ForcedPassReachesTargetIff` | backend/app/agents/bpanel_limits_agent.py:602-602 | from any record and any state, the first pass of a process reaches its target exactly if it wants every such unit |
| `LimitsRecord.SameUnitsAreRepaired` | backend/app/agents/bpanel_limits_agent.py:596-602 | however many passes for the same units are cut short, the next that is not leaves every unit as wanted |
| `LimitsRecord.LostLoginSliceSurvives` | backend/app/agents/bpanel_limits_agent.py:232-241 | a login slice lost in this way keeps its limits through the next process and a release |
| `UidEvents.ParseUndoesEncode` | backend/app/agents/bpanel_limits_agent.py:378-390 | parsing a datagram of well-formed padded messages gives, in order, exactly the tgids of the hosted uid changes |
| `UidEvents.ParseOfFrames` | backend/app/agents/bpanel_limits_agent.py:378-390 | each padded message is looked at once, from its own bytes only, and nothing is read past the end |
| `UidEvents.SocketYieldsHostedTgids` | backend/app/agents/bpanel_limits_agent.py:366-390 | the same for all the datagrams a socket has queued |
| `UidEvents.ScanDatagram` | backend/app/agents/bpanel_limits_agent.py:378-390 | the inner loop computes the parse of one datagram |
| `UidEvents.ReadUidEvents` | backend/app/agents/bpanel_limits_agent.py:366-390 | the outer loop reads until the socket is drained or fails and keeps what it found |
| `UidEvents.OverrunsIff` | backend/app/agents/bpanel_limits_agent.py:379-390 | on any bytes, a read goes past the end exactly if the last message visited claims an event that is not there |
| `UidEvents.ClaimedLengthOverruns` | backend/app/agents/bpanel_limits_agent.py:383-387 | such a datagram |
| `LimitsMover.MovedIff` | backend/app/agents/bpanel_limits_agent.py:268-284 | a hosted process outside its target is moved exactly if it runs in or below a listed service of the system, or in another of our scopes; a login and a unit of the account's own are left alone |
| `LimitsMover.GlobIff` | backend/app/agents/bpanel_limits_agent.py:284-284 | a pattern matches exactly what it becomes when texts are put for its stars |
| `LimitsMover.PlainSourceIff` | backend/app/agents/bpanel_limits_agent.py:284-284 | a source without a star lists the service of that name alone |
| `LimitsMover.StarSourceIff` | backend/app/agents/bpanel_limits_agent.py:284-284 | one with a star lists what starts like it, ends like it and is long enough |
| `LimitsMover.DefaultSourcesIff` | backend/app/agents/bpanel_limits_agent.py:72-72 | what is listed when a configuration lists nothing: the web server, every PHP-FPM, cron and SSH |
| `LimitsMover.OnePassSettles` | backend/app/agents/bpanel_limits_agent.py:268-284 | after one undisturbed pass over all processes the next finds nothing to move |
| `LimitsMover.AccountChangesReseller` | backend/app/agents/bpanel_limits_agent.py:268-284 | a process settled under the old reseller is movable under the new one and the next pass takes it there |
| `LimitsMover.AttachTogether` | backend/app/agents/bpanel_limits_agent.py:299-316 | attach, start, attach: moves all pids or none |
| `LimitsMover.Attach` | backend/app/agents/bpanel_limits_agent.py:293-322 | true exactly if at least one pid of the batch moved; all of them if nothing goes wrong |
| `LimitsMover.Mover.Group` | backend/app/agents/bpanel_limits_agent.py:336-345 | the processes to move, each under the scope and slice of its own uid |
| `LimitsMover.Mover.Move` | backend/app/agents/bpanel_limits_agent.py:336-347 | no process ends anywhere but where it was or in the scope of its own uid's slice; undisturbed, the pass settles |
| `LimitsMover.Mover.Flush` | backend/app/agents/bpanel_limits_agent.py:332-334 | the noted processes are moved and forgotten |
| `LimitsMover.Mover.Reconcile` | backend/app/agents/bpanel_limits_agent.py:349-353 | undisturbed, nothing is left to move, and every hosted process of a listed service is in the scope of its own uid's slice |
| `LimitsHistory.RunKeepsHistoriesOk` | backend/app/agents/bpanel_limits_agent.py:525-565 | over every run with a clock that does not go back: at most 288 and 168 points, in time order, week points an hour apart, means not above peaks |
| `LimitsHistory.RunBatchesAreDisjoint` | backend/app/agents/bpanel_limits_agent.py:525-564 | over every run of samples and rolls, also when a slice goes and comes back, no day point is counted in two week points |
| `LimitsHistory.NoPointCountsTwice` | backend/app/agents/bpanel_limits_agent.py:525-564 | the same by the places of two rolls in a run: what the first counted is older than what the second counts |
| `LimitsHistory.BatchesAreDisjoint` | backend/app/agents/bpanel_limits_agent.py:549-552 | the same for one entry, however its rolls are spaced |
| `LimitsHistory.BatchIsTheHour` | backend/app/agents/bpanel_limits_agent.py:552-552 | the new point is always in its hour, so the fallback of the list is never taken |
| `LimitsHistory.PointsAreOfFreshSamples` | backend/app/agents/bpanel_limits_agent.py:531-548 | over every run a roll adds one point to a slice's day, of exactly the samples recorded since its last roll, or leaves a slice without samples alone |
| `LimitsHistory.EverySampleOnce` | backend/app/agents/bpanel_limits_agent.py:522-532 | every recorded sample is summed up by one roll, in order, or waits for the next |
| `LimitsHistory.MeanBound` | backend/app/agents/bpanel_limits_agent.py:539-540 | rounding to one decimal lifts no mean above the values' bound |
| `LimitsHistory.PointSummarises` | backend/app/agents/bpanel_limits_agent.py:537-547 | a point's peaks are reached by samples, its means are the nearest, its totals are the last |
| `LimitsHistory.HourPointSummarises` | backend/app/agents/bpanel_limits_agent.py:553-563 | the same for a week point and its hour |
| `LimitsHistory.RollIsUpToDate` | backend/app/agents/bpanel_limits_agent.py:549-564 | after a roll the new point is the newest, only the oldest made way for it, and the week is less than an hour behind |
| `LimitsHistory.Sampler.RollHistory` | backend/app/agents/bpanel_limits_agent.py:528-565 | the loop over names rolls every slice with samples and forgets the slices that are gone |
| `LoginLimiter.VerdictFollowsHistory` | backend/app/api/auth.py:243-265 | for every run and key the deques decide as a rule on the whole history does: locked until 900 s after twenty failures within 900 s, slowed down while the eighth-last attempt is at most 60 s old |
| `LoginLimiter.FewFailuresFromTheStart` | backend/app/api/auth.py:243-265 | with at most k attempts between their check and their record, no 60 s hold more than 7 + k failures between clearings |
| `LoginLimiter.TwoAtOnceMakeNine` | backend/app/api/auth.py:243-265 | the bound is reached: two attempts at once make nine failures in one second |
| `LoginLimiter.UsernameAlwaysReopens` | backend/app/api/auth.py:315-326 | a key without lockouts never has failure history or a lockout, and is refused exactly while its eighth-last attempt is recent |
| `LoginLimiter.AddressStaysLocked` | backend/app/api/auth.py:327-333 | twenty failures within 900 s refuse every check until 900 s after the twentieth, short of a full reset |
| `LoginLimiter.Limiter.EnforceRateLimit` | backend/app/api/auth.py:243-265 | the check drops an expired lockout and old attempts and gives the verdict |
| `LoginLimiter.Limiter.RecordFailure` | backend/app/api/auth.py:315-333 | a failure is appended, both deques pruned, the lockout set at twenty |
| `LoginLimiter.Limiter.RecordSuccess` | backend/app/api/auth.py:370-373 | all three counters of the key go |
| `LoginLimiter.Limiter.ClearShortWindow` | backend/app/api/auth.py:383-403 | only the short window goes |
| `LoginLimiter.CheckTidies` | backend/app/api/auth.py:243-256 | a check drops what is overdue: an expired lockout and attempts older than 60 s |
| `Sessions.StaleVersionStaysRefused` | backend/app/api/deps.py:89-91 | a token refused for its version is refused for good |
| `Sessions.RunIsLater` | backend/app/api/auth.py:716-733 | over every run versions do not go down and tokens keep what they say |
| `Sessions.SignedOutStaysRefused` | backend/app/api/auth.py:484-493 | a signed-out token is refused at every later time although rows are purged |
| `Sessions.RevokeEndsOneToken` | backend/app/api/auth.py:484-493 | signing out ends exactly that token, now and later; purging revives none |
| `Sessions.SignInWorks` | backend/app/api/auth.py:406-422 | a sign-in is accepted from its issue to its expiry and changes no other session |
| `Sessions.EverywhereEndsThemAll` | backend/app/api/auth.py:716-733 | signing out everywhere ends every earlier token of the account and whatever is still renewed from one |
| `Sessions.BumpEndsThemAll` | backend/app/api/auth.py:967-969 | so does any change that raises the version |
| `Sessions.ChangesSignOut` | backend/app/api/users.py:351-395 | a suspension, a change of rank that counts or a new password ends every session of the account and no other |
| `Sessions.TwoFactorSignsOutIff` | backend/app/api/auth.py:954-989 | a two-factor change ends every other session of the account, but switching it on once more ends none |
| `Sessions.RenewedTokensTakeAfterTheirSignIn` | backend/app/api/auth.py:433-474 | over every run a renewed token has the account and version of the session it was first renewed from, its lifetime is that of the first renewal, and neither carries an impersonation |
| `Sessions.RenewalIsAFixedPoint` | backend/app/api/auth.py:462-467 | the lifetime is whole minutes, at least one, within half a minute of the first, and renews as itself |
| `Sessions.RenewalRounds` | backend/app/api/auth.py:462-467 | the nearest whole number of minutes, of two as near the even one, and at least one |
| `Sessions.RenewedIff` | backend/app/api/auth.py:443-467 | a response renews exactly the sessions of somebody's own that have lived half of their time and not all of it |
| `Sessions.FrequentBrowserStaysIn` | backend/app/api/auth.py:433-474 | in every run, whatever happens to other sessions and accounts and however the table is purged, a browser never away for more than half of its current lifetime is always let in |
| `Sessions.SignInStaysIn` | backend/app/api/auth.py:433-474 | in particular from a sign-in on |
| `Sessions.FrequentVisitsKeepTheSession` | backend/app/api/auth.py:455-474 | the arithmetic of it: one token, visited often enough, never expires |
| `Sessions.HalfIsSharp` | backend/app/api/auth.py:455-460 | one second more between requests can lose it |
| `Sessions.UnusedSessionEnds` | backend/app/api/auth.py:443-458 | an unused session, and any impersonation, ends at its expiry |
| `Sessions.VisitIsServeAndRenew` | backend/app/api/auth.py:433-474 | a visit of the renewal theorems is serving a request and renewing its token in the state machine |
| `Sessions.ImpersonationLeadsNowhereIff` | backend/app/api/auth.py:954-989 | over every run an impersonation leads to no other session, by renewals or otherwise, exactly if no two-factor change was made in it |
| `Sessions.ImpersonationEnds` | backend/app/api/auth.py:441-444 | over every run without one, once the configured lifetime has passed nothing an impersonation led to is accepted |
| `Sessions.OutlivedIff` | backend/app/api/auth.py:954-989 | with no further change in it, something an impersonation led to can be let in after its time exactly if the next request is such a change |
| `Sessions.ImpersonationOutlived` | backend/app/api/auth.py:954-971 | a run in which it is: an ordinary session of the target, renewed past the six hours of the impersonation |
| `Sessions.ImpersonatingIsReached` | backend/app/api/auth.py:841-904 | the sign-in and the impersonation that run starts from |
| `Sessions.HeirsComeFromAChange` | backend/app/api/auth.py:971-989 | whatever else an impersonation led to goes back to a two-factor change made in it |
| `Sessions.OneLevelOnlyIff` | backend/app/api/auth.py:858-861 | over every run no session an impersonation led to may start another if no two-factor change was made in it; if one was, and the account is staff, one of them may |
| `Sessions.ReturnIsSafe` | backend/app/api/auth.py:792-837 | going back hands out only a session of the account named that is still good and staff, and ends only the borrowed one |
| `Sessions.GivesBackIff` | backend/app/api/auth.py:805-821 | exactly when a session is handed back |
| `Sessions.DenialIff` | backend/app/api/auth.py:856-887 | exactly when an impersonation is allowed, and when each refusal is given |
| `Sessions.EveryImpersonationWasAllowed` | backend/app/api/auth.py:856-904 | over every run each session that impersonates was issued to an accepted session that does not, of an admin or of the reseller of the target, within the rate limit and with the right code if one was owed |
| `Sessions.ImpersonationWorks` | backend/app/api/deps.py:78-95 | an impersonation is accepted from its issue to its expiry, also of a suspended account, and disturbs no other session |
| `Sessions.SuspensionIff` | backend/app/api/deps.py:82-88 | suspending an account ends its own sessions and leaves those that impersonate it |
| `Sessions.Database.UserFromToken` | backend/app/api/deps.py:61-95 | the checks in their order, and which of them turns a token away |
| `Sessions.Database.RevokeRequestToken` | backend/app/api/auth.py:484-493 | purges expired rows and adds this token's once |
| `Sessions.Database.Logout` | backend/app/api/auth.py:695-712 | only this token |
| `Sessions.Database.LogoutEverywhere` | backend/app/api/auth.py:716-733 | this token and the version; not while impersonating |
| `Sessions.Database.MaybeRenew` | backend/app/api/auth.py:433-474 | the conditions of a renewal, in order |
| `Sessions.Database.Impersonate` | backend/app/api/auth.py:841-904 | issues a session exactly if the actor is staff and in charge of the target, is not impersonating, is within the rate limit and gave the code it owes; the refusals in order, of which only a wrong code is counted |
| `Sessions.Database.EnableTwoFactor` | backend/app/api/auth.py:954-972 | raises the version unless it was on already, and issues a session that says nothing of an impersonation |
| `Sessions.Database.DisableTwoFactor` | backend/app/api/auth.py:975-989 | raises the version and issues one in the same way |
| `VersionRaces.LowersIff` | backend/app/api/auth.py:730-731 | overlapping changes: a write takes the version back exactly if it has risen by two since it was read |
| `VersionRaces.OneBetweenIsSafe` | backend/app/api/auth.py:967-968 | in every interleaving in which no change is overtaken by two others the version never goes back |
| `VersionRaces.RefusedVersionComesBack` | backend/app/api/users.py:356-357 | three that overlap and make 6, 7 and 6 again |
| `Sessions.Database.ReturnFromImpersonation` | backend/app/api/auth.py:792-837 | the borrowed token is revoked on every path; the saved one comes back only if it passes every check |
| `Login.SignInIsSafe` | backend/app/api/auth.py:513-671 | over every run: each session was earned in its own call, and each challenge paid for at most one, within 180 s, stored by a call whose password was right |
| `LoginThreads.SideBySideIsSafe` | backend/app/api/auth.py:513-671 | the same in every interleaving of calls at the points where they hold no lock, with accounts changed between steps; and no username is ever locked |
| `LoginAlone.AloneIsInOne` | backend/app/api/auth.py:513-671 | a call that nothing comes between does, step by step, what the same call does in one: the same answer, challenges and limiter |
| `LoginCrowd.FewFailuresSideBySide` | backend/app/api/auth.py:531-548 | in every such interleaving with at most k calls under way on a key at any time, no 60 s hold more than 7 + k failures on it between clearings |
| `LoginCrowd.AddressStaysLockedSideBySide` | backend/app/api/auth.py:327-333 | in every such interleaving twenty failures of an address within 900 s turn away every call from it until 900 s after the twentieth |
| `Login.SessionIff` | backend/app/api/auth.py:546-642 | exactly when a call is given a session |
| `Login.FirstChecksIff` | backend/app/api/auth.py:522-560 | when each answer is given that comes before the second factor |
| `Login.FactorIff` | backend/app/api/auth.py:562-651 | when each answer of the second factor is given |
| `Login.ChallengesIff` | backend/app/api/auth.py:577-615 | what a call leaves pending: a new challenge for 180 s, its own one spent and the overdue swept, or all as they were |
| `Login.LimiterAfterIff` | backend/app/api/auth.py:531-656 | what a call leaves of the limiter, by the answer it got |
| `Login.SweepIsInvisible` | backend/app/api/auth.py:1030-1051 | sweeping takes nothing that could still be used |
| `Login.AnswerWorksOnce` | backend/app/api/auth.py:577-615 | the offer and the right answer to it, in time, give a session, and the same answer again does not |
| `Login.OtherNameIsNoWayAround` | backend/app/api/auth.py:570-574 | an account with any factor gets no session by password alone at any hostname |
| `Login.WrongSecretsCountIff` | backend/app/api/auth.py:546-625 | a call let through counts against both keys exactly if a secret in it was wrong and a passkey's answer, where that is what was asked for, could be read |
| `Login.UnreadableAnswerGoesUncounted` | backend/app/services/passkeys.py:241-245 | an answer whose reading raises another error than the ones that are caught: wrong, and not counted |
| `Login.KeyTextInjective` | backend/app/services/passkeys.py:107-108 | the text a challenge is filed under determines its purpose, hostname and account |
| `Login.UsernamesAlwaysReopen` | backend/app/api/auth.py:533-548 | over every run of calls no username has failure history or a lockout |
| `Login.UserKeysApartIff` | backend/app/api/auth.py:106-108 | two usernames share a key exactly if they are the same, or both are empty or `_unknown` |
| `Login.OtherUsersLeaveItOpen` | backend/app/api/auth.py:531-537 | over every run, calls under other usernames leave what the limiter says of a username as it was |
| `Login.OthersDoNotKeepItOut` | backend/app/api/auth.py:531-537 | calls under other usernames from other addresses do not decide whether a call is let through |
| `LoginCrowd.OtherUsersLeaveItOpen` | backend/app/api/auth.py:531-548 | in every interleaving, calls under other usernames leave what the limiter says of a username as it was |
| `Login.SignInDoesNotUnlockTheAddress` | backend/app/api/auth.py:653-656 | a locked address stays refused whoever signs in from it meanwhile |
| `Login.Panel.SignIn` | backend/app/api/auth.py:513-671 | the endpoint decides and changes limiter, challenges and log as specified |
| `Login.Panel.CheckFactor` | backend/app/api/auth.py:577-651 | the branches of the second factor |
| `Login.Panel.EnforceRateLimits` | backend/app/api/auth.py:531-537 | address first, then username |
| `Login.Panel.ChallengeTake` | backend/app/api/auth.py:1030-1051 | sweeps what has expired, then reads and deletes |
| `Accounts.ThreeRulesAgree` | backend/app/core/access.py:30-86 | the filter, the ownership check and the account check agree for every actor and owner, missing ones included |
| `Accounts.UnknownRolesRaise` | backend/app/core/permissions.py:31-45 | a role nobody knows is an error of its own wherever an answer is asked for |
| `Accounts.ActorRefusedIff` | backend/app/api/users.py:291-302 | who is turned away from an edit before it is looked at, and with which error |
| `Accounts.EditRefusedIff` | backend/app/api/users.py:303-348 | with which error every other edit is turned away: the first of the checks that fails |
| `Accounts.CreationRefusedIff` | backend/app/api/users.py:139-183 | the same for a creation |
| `Accounts.DeletionRefusedIff` | backend/app/api/users.py:415-465 | the same for a deletion |
| `Accounts.CreatedIff` | backend/app/api/users.py:139-217 | exactly which accounts are created, and what they are |
| `Accounts.EditedIff` | backend/app/api/users.py:290-348 | exactly which edits are made: by whom, of what, and where the account may go |
| `Accounts.DeletedIff` | backend/app/api/users.py:415-465 | exactly which accounts are deleted |
| `Accounts.HierarchyKeptIff` | backend/app/api/users.py:139-217 | a request keeps "only end users have a reseller, and it exists and is one" exactly if it is not one of two, spelled out by what the request asks and how its checks come out |
| `Accounts.BothSlipPast` | backend/app/api/users.py:163-164 | both of them, concretely |
| `Accounts.UpdateKeepsHierarchy` | backend/app/api/users.py:322-348 | for an edit: broken exactly by a reseller made an end user of itself |
| `Accounts.CreateKeepsHierarchy` | backend/app/api/users.py:142-183 | for a creation: broken exactly by an admin naming itself |
| `Accounts.DeleteKeepsHierarchy` | backend/app/api/users.py:415-421 | for a deletion: never broken |
| `Accounts.CarefulRunsKeepHierarchy` | backend/app/api/users.py:290-411 | over every run without those two, resellers' accounts are disjoint and hold no admin and no other reseller |
| `Accounts.ResellersStayInTheirShare` | backend/app/api/users.py:290-302 | a reseller's request touches only its customers and makes only new ones |
| `Accounts.RunKeepsTodaysCustomers` | backend/app/api/users.py:322-338 | over every run, whatever is asked, only accounts with today's role name for an end user have a reseller |
| `Accounts.ResellersKeepTheirCustomers` | backend/app/api/users.py:290-338 | so a reseller's request leaves each customer its customer with its role, or deletes it |
| `Accounts.VersionsRise` | backend/app/api/users.py:351-395 | token versions never go down and rise with every change of role or suspension |
| `Accounts.EditsTakeEffect` | backend/app/api/users.py:322-395 | an accepted edit leaves what it asks for and, where it asks nothing, what there was; a suspension takes effect, and the version counts both changes that matter |
| `Accounts.EditsAreIdempotent` | backend/app/api/users.py:322-395 | the same edit made twice changes nothing the second time and signs nobody out again |
| `Accounts.AnAdminAlwaysRemains` | backend/app/api/users.py:305-306 | over every careful run by active accounts an active admin remains |
| `Accounts.Database.CreateUser` | backend/app/api/users.py:139-217 | refusals in order, then the row |
| `Accounts.Database.UpdateUser` | backend/app/api/users.py:290-395 | refusals in order, fields step by step, nothing stored on a refusal |
| `Accounts.Database.DeleteUser` | backend/app/api/users.py:415-465 | refusals in order, then the row goes |
| `Accounts.Database.CheckReseller` | backend/app/api/users.py:52-56 | an account that exists and is a reseller |
| `Jobs.RememberMakesRoom` | backend/app/api/maintenance.py:195-210 | a new job is in, no active job goes, what goes is no newer than any finished job kept, and fifty or only active jobs remain |
| `Jobs.NoUpdateIsLost` | backend/app/api/maintenance.py:187-192 | in every run a worker finds its job in the table, queued before it starts and running before it ends |
| `Jobs.StatusNeverGoesBack` | backend/app/api/maintenance.py:346-380 | over every run a status never goes back, and an ended job stays as it is |
| `Jobs.TableTellsTheRun` | backend/app/api/maintenance.py:346-380 | in every run each job in the table was queued for its owner at its time and has the status the run gave it: finished exactly if its work succeeded |
| `Jobs.DismissedIff` | backend/app/api/maintenance.py:1563-1579 | exactly which jobs can be dismissed |
| `Jobs.DismissalTakesEffect` | backend/app/api/maintenance.py:1563-1579 | a dismissed job is gone and every other stays; a refused dismissal changes nothing |
| `Jobs.RunKeepsInv` | backend/app/api/maintenance.py:271-284 | every active job has its worker and every worker its job |
| `Jobs.JobTable.Remember` | backend/app/api/maintenance.py:195-210 | the eviction loops compute the specified table |
| `Jobs.JobTable.Set` | backend/app/api/maintenance.py:187-192 | an update changes its job or, without one, nothing |
| `Jobs.JobTable.Dismiss` | backend/app/api/maintenance.py:1563-1579 | 404, 403, 409, or gone |
| `Translations.ChainIsPerCharacter` | tools/i18n/gen_vi.py:49-56 | the five replacements in a row escape each character once |
| `Translations.LiteralUndoesJs` | tools/i18n/gen_vi.py:49-56 | read as a JavaScript string literal the output is the original text and ends at its own closing quote |
| `Translations.JsIsSafe` | tools/i18n/gen_vi.py:49-56 | no raw line break or tab, and different texts print differently |
| `Translations.ReadUndoesGenerate` | tools/i18n/gen_vi.py:76-94 | reading the whole generated file, comments and both exports, gives the entries and the terms back |
| `Translations.PruningKeepsMeaning` | tools/i18n/gen_vi.py:64-65 | leaving out identity entries changes no lookup; a key is in exactly one of the two exports |
| `Translations.GeneratedLooksUpTheSameIff` | tools/i18n/gen_vi.py:64-91 | generate, read and look up is looking up in the merged dictionary for every text, exactly if it does not translate `__proto__` |
| `Translations.ProtoIsLost` | tools/i18n/gen_vi.py:80-81 | a dictionary with that entry, which comes back in English |
| `Translations.Merge` | tools/i18n/gen_vi.py:18-21 | the parts merged in order |
| `Translations.LastPartWins` | tools/i18n/gen_vi.py:18-21 | the last part with a key decides |
| `Translations.Generate` | tools/i18n/gen_vi.py:76-94 | the loops print the specified file, under any wording of its two comments |
| `Translations.InParts` | frontend/src/i18n.js:112-123 | the parts, shown one after the other, are the filled sentence; none is an empty text |
| `Translations.Translate` | frontend/src/i18n.js:100-123 | both ways of filling show the same, and which is taken |
| `Translations.HoleIff` | frontend/src/i18n.js:110-112 | which texts are placeholders: letters, digits and underscores, at least one, between braces |
| `Translations.UnknownHolesStand` | frontend/src/i18n.js:110-114 | a sentence whose placeholders have no value is left as it is |

## Left out

- The limiter and challenge store on Redis, whose window boundaries differ; the in-memory ones are modelled.
- Password, TOTP, WebAuthn and token cryptography: calls carry whether a secret is right. A token is
  refused from its expiry on, as section 4.1.4 of RFC 7519 has it, identifiers are unique, and names
  are not given again after a deletion.
- Fractions of a second, of a percent and of a megabyte: times are whole seconds, percentages tenths,
  rates thousandths. Sums and quotients of floats are taken as exact before they are rounded.
- Login.Panel.SignIn: one call at a time, and one clock for the limiter and the challenges; calls side by
  side are LoginThreads, where an account and its passkeys are read in one step. Rehashing a password
  and noting the address of a sign-in are not modelled.
- Sessions.Database.Impersonate: the rate limit and whether the code is right come with the call. Roles are
  those of today; names older releases used for them are in Accounts. A legacy impersonation that names no
  admin is not modelled, nor are demo accounts, CSRF checks and cookie attributes.
- Sessions: how a request's token is chosen between header and cookie, and what is stored on the request.
  That a two-factor change passes its checks is left to chance, whoever makes it. Requests are one step
  each here and in Accounts; versions read and written by overlapping requests are VersionRaces.
- LimitsApplier.Applier.Apply: a record file that somebody else wrote, with values that are no lists of
  properties; the text of the file.
- LimitsRecord.LostOverRunIff: a reboot in between, after which nothing is limited.
- LimitsMover.Movable: the only shell wildcard is `*`, the only one an accepted source can hold.
- LimitsHistory.RunKeepsHistoriesOk: starts from histories that keep the same rules; a history file
  that does not is not looked at. Reading the counters of a cgroup is not modelled.
- LimitsConfig: reading JSON from text; the order of uids in an account.
- Accounts: packages, limits and shares of the server come as one answer each; the suspension, password
  and provisioning endpoints, audit log and cleanup of websites are not modelled.
- Jobs: messages, results and times of a job other than its creation; the restore job, whose results
  are updated item by item; the lists shown to users.
- TerminalBridge: the watchdog, resizing and what opens or audits a session.
- Translations.ReadUndoesGenerate: numeric escapes and line continuations, which are never printed;
  characters outside the basic plane are one character here. The order of keys is any listing of them, and
  the wording of the comments is any that does not end a comment.
- Translations.Translate: the language switch, React keys, and values that are not text or elements.
- HTTP routing, nginx, PHP, MariaDB, DNS, mail, files and migrations.
