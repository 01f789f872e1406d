# Verified model of the mail gateway and its log service

This project models the parts of the repository whose correctness spans several functions, several
processes or whole runs, and proves what their comments promise. Every file is one component; `dafny
verify dfyconfig.toml` checks them all.

**Protocols.** Four components are step machines: a state, the atomic actions of the code (one SQL
statement, one rename, one critical section, one channel operation), and a run as any sequence of
enabled actions by any number of processes, with a process free to stop between any two. Theorems
speak of every state of every run.

- `Migrate`: any number of migration runners under a session-scoped advisory lock. The class
  `Database` holds the code of one runner, and every action it performs is one of the machine's.
- `Delivery`, on top of `Pool` and `PoolKey`: deliveries that borrow, probe, dial, use and return
  SMTP sessions while cancellation callbacks fire on their own, and the pool is reaped and closed.
  `Misfiled` says which sessions a relay's messages can go on, and constructs the runs; `Health` which
  of them come into the pool, and what was done on one before a message goes on it.
- `Replay`, with `ClaimName`, `SpillName`, `ReplayPass` and `ReplayDrain`: replayers that claim
  spilled audit events by rename, crash, and are reclaimed after a grace. `ReplayPass` is the code of one
  pass over real file names, and `ReplayDrain` runs it from any state the protocol can reach. `Deeds` says
  what the holder of a claim does with it, by the answer, and where the event is then.
- `Pipeline`: the bounded buffer between `Send`, the senders and a racing `Close`. `Drain` bounds what
  closing takes, `Stranded` says when an event can stay behind after it, and `Outcomes` which replies lead
  to which outcome.

**State machines in one process.** `ConfigStore` and `Agent` (pulling, applying and booting
configurations, with a crash after any statement), `MxCache` (the resolver's cache), `ClaimBucket`
(the limit on claim attempts).

**Streaming and printing code.** `HeaderFields` and `StripAuth` (an incremental reader equal to a pure
filter for every buffer size), `Xtext`, `Dsn` and `DsnReader` (reports that read back as what was meant,
field by field), `MimeWalk` (a bounded walk), `Sql` and `SqlWhere` (filters rendered to SQL and read back by an
independent parser), `Bands` (preference order and in-band shuffle), `Transaction` (one outcome for each
recipient). `Text` (with the spellings of a word in capitals and small letters, and the blanks around it),
`Numbers` and `Options` are shared helpers.

What comes from outside the code is a parameter or a nondeterministic action: SQL and HTTP answers,
SMTP replies, DNS answers, clock readings, random draws, and whether a file operation or a statement
of the store works.

Where the code does not meet its own comment for every input, the project proves exactly when it does, and
that the rest fails:

- A pooled session is one its borrower could have made itself: for every relay, exactly if no relay of the
  process with the same key leads elsewhere, or allows AUTH in the clear where it does not
  (`Misfiled.SentIffMade`, `Misfiled.OwnSessionsIff`, `Misfiled.InTheClearIff`). The key leaves that flag
  out; and a NUL in a user or an exchange can make it the key of another relay, exactly if there is an
  address before one (`PoolKey.OwnKeyIffUnambiguous`, `PoolKey.TwoRelaysOneKey`,
  `Misfiled.AstrayIffAmbiguous`).
- A poll brings the gateway to the version the console wants: with nothing failing, exactly if that is not the
  one recorded as applied or runs already (`Agent.Gateway.Pull`); after a boot at which the applied
  version failed to load, no number of polls for it starts it (`Agent.Gateway.Start`).
- A session offered to the pool answered every command: exactly if no RCPT went without a reply
  (`Transaction.OfferedIsHealthyIff`; `Transaction.UnansweredIsOffered` has two that did).
- `Close` drains what raced with it: once the flag is set, a Close can return and the buffer hold an event
  exactly if that is so already or some send is past the closed check (`Stranded.CanBeLeftBehindIff`,
  `Stranded.RacersCanBeLeftBehind`).
- A field that claims our authserv-id is stripped: among the forms of the standard exactly when the
  identifier stands bare, with no comment at it and no quotes (`StripAuth.StrippedIffBare`).
- `ClaimName.ClaimParses`: a claim's name is read back exactly if the clock is not before 1970.
- `SpillName.SpillCollision`: two spills share a file exactly if they are of one kind, in one nanosecond, and the
  last four digits of their sequence numbers are the same.
- `Dsn.StatusAgreesWithAction`: the class of a status agrees with the action exactly if it is known.
- A migration runner that has returned holds the lock no longer: if it was told that it had it, exactly if its
  release was not refused (`Migrate.Database.Run`); otherwise unless that answer was lost (`Migrate.LockAfterDone`).
- `ConfigStore.SavedSurvives`: a save survives its own pruning exactly if it was applied or fewer than ten
  others are ahead of it.

## Model

| member | source | states |
|---|---|---|
| Migrate.AtMostOneHolder | logservice-go/migrate/migrate.go:115-138 | in every interleaving of any number of runners, with death, lost sessions and failed statements anywhere, two live sessions are never both past the lock |
| Migrate.NeverExecutedOnceRecorded | logservice-go/migrate/migrate.go:144-178 | once a file is recorded, no later action of any runner executes it |
| Migrate.ExecutedInOrder | logservice-go/migrate/migrate.go:149-183 | a file is executed only when every file before it in the runner's list is recorded |
| Migrate.ExecutionLedger | logservice-go/migrate/migrate.go:165-179 | a file's executions are its recording, plus the runs that stopped between Exec and INSERT, plus those still between; so at most one more than the stops |
| Migrate.InsertNeverCollides | logservice-go/migrate/migrate.go:174-179 | when a live session comes to its INSERT the row is not there yet |
| Migrate.SuccessMeansRecorded | logservice-go/migrate/migrate.go:185-190 | a nil return leaves every one of the runner's names recorded, then and ever after |
| Migrate.RecordedGrows | logservice-go/migrate/migrate.go:174-178 | no action of any runner takes a recorded name away |
| Migrate.LockAfterDone | logservice-go/migrate/migrate.go:276-285 | over every run, a runner that has returned still holds the lock only if its own release was refused, or the answer that would have told it of the lock was lost |
| Migrate.StepKeepsInv | logservice-go/migrate/migrate.go:121-306 | every action keeps the invariant of the lock, the table, the runners' progress and the ledger |
| Migrate.Database.Run | logservice-go/migrate/migrate.go:121-191 | one whole call, from any reachable state, continues the history by actions of this runner, and of others while it waits for the lock, only; what was recorded stays; with every statement answered and the lock got it succeeds and records exactly the missing names; once it has the lock its last statement is the release, whatever came of the others, and it keeps the lock exactly if that was refused |
| Migrate.Database.Lock | logservice-go/migrate/migrate.go:254-306 | the zero-wait try, and the long wait in which the holder may let go: the lock is got exactly if the first try finds it free or the wait is answered, else the call ends with the error, and holds the lock at most if an answer was lost |
| Migrate.Database.Meanwhile | logservice-go/migrate/migrate.go:262-275 | what other runners do during the wait leaves this one where it was, and takes nothing back |
| Migrate.Database.ApplyAll | logservice-go/migrate/migrate.go:154-190 | the loop over the names, from the set read under the lock: only actions of this runner, and on success exactly the listed names are added |
| Migrate.Database.ApplyOne | logservice-go/migrate/migrate.go:155-183 | one turn: a recorded file is skipped; any other is executed and, only if that was answered well, recorded; the turn succeeds only if both were |
| PoolKey.KeyIdentifies | mailgw-go/internal/deliver/pool.go:75-84 | identities whose address and user are free of NUL share a key only if they are one identity, whatever the local names |
| PoolKey.KeyTellsLogin | mailgw-go/internal/deliver/pool.go:81-84 | under one local name, as one process has, a key tells the policy, and the address and the user taken together |
| PoolKey.KeyIsItsOwn | mailgw-go/internal/deliver/pool.go:75-84 | under one local name, a relay that is not ambiguous shares its key with no other relay, whatever that one is made of |
| PoolKey.OwnKeyIffUnambiguous | mailgw-go/internal/deliver/pool.go:75-84 | and exactly those relays have a key of their own: no NUL before the end of the user, other than the one after the address, has an address before it |
| PoolKey.PlainIsUnambiguous | mailgw-go/internal/deliver/pool.go:75-84 | among them every relay without a NUL in address and user |
| PoolKey.TwoRelaysOneKey | mailgw-go/internal/relays/relays.go:142-160 | for every host, ports and user there are two relays that the table admits, on different hosts and for different users, with one key |
| PoolKey.KeyConfuses | mailgw-go/internal/deliver/pool.go:81-84 | every ambiguous relay shares its key with another one of the form exchange and port, with its policy and local name, that leads elsewhere and has another user |
| Pool.TakenKeepsLimits | mailgw-go/internal/deliver/pool.go:337-365 | taking a connection keeps the bounds, and leaves no empty list behind |
| Pool.OfferedKeepsLimits | mailgw-go/internal/deliver/pool.go:164-200 | offering a connection keeps every bound: the total, the list of its key, the messages of each connection |
| Pool.FreshIsFilter | mailgw-go/internal/deliver/pool.go:322-333 | compaction and eviction split a list: no connection is lost or doubled, the unexpired stay, the expired go |
| Pool.FreshKeepsOrder | mailgw-go/internal/deliver/pool.go:324-331 | what stays keeps its order |
| Pool.SweptKey | mailgw-go/internal/deliver/pool.go:318-333 | sweeping one key loses nothing: what stays in the pool and what went are together what was there, each as often |
| Pool.SweptKeepsLimits | mailgw-go/internal/deliver/pool.go:313-335 | a sweep keeps the bounds and leaves no key with an empty list |
| Pool.KeysWithinTotal | mailgw-go/internal/deliver/pool.go:202-216 | with the total bounded, the number of keys is bounded by it too |
| Pool.Compact | mailgw-go/internal/deliver/pool.go:324-331 | the in-place compaction leaves the unexpired, in order, at the front and returns the expired |
| Pool.ConnectionPool.TotalLocked | mailgw-go/internal/deliver/pool.go:210-216 | the sum over the map is the number of idle connections |
| Pool.ConnectionPool.Take | mailgw-go/internal/deliver/pool.go:337-349 | the most recently used connection of the key, and the new map |
| Pool.ConnectionPool.Put | mailgw-go/internal/deliver/pool.go:164-200 | kept exactly when every limit allows it; reports that the total, and only the total, turned it away |
| Pool.ConnectionPool.Expired | mailgw-go/internal/deliver/pool.go:313-335 | every key is swept; the connections that come back and those that stay are together those that were there, each as often |
| Pool.ConnectionPool.Close | mailgw-go/internal/deliver/pool.go:234-241 | the whole map is handed over and the pool starts empty |
| Delivery.GuardClosesItsOwn | mailgw-go/internal/deliver/client.go:186-207 | when a cancellation closes an open socket, the cancelled delivery still holds it, nobody else does, and it is not in the pool |
| Delivery.HeldAlone | mailgw-go/internal/deliver/client.go:158-207 | a connection is held by one delivery at most, and never held and idle at once |
| Delivery.FiledOnce | mailgw-go/internal/deliver/pool.go:164-200 | an idle connection is filed once: under one key, in one position |
| Delivery.SentOnMade | mailgw-go/internal/deliver/client.go:296-407 | every message of every run goes on a session that some relay of the process with the same key can make by its policy and its flag for AUTH in the clear |
| Delivery.SentWhereItMay | mailgw-go/internal/deliver/client.go:296-407 | for a relay that is not ambiguous: every message, on a dialled or a reused session, goes on one that leads to its relay, is authenticated as its user, and is encrypted if the relay requires it; and also if the relay has a user and does not allow AUTH in the clear, unless another one with its address, user and policy does |
| Health.PooledIsFit | mailgw-go/internal/deliver/client.go:186-207 | over every run: whatever is in the pool has carried a message, every message on it left its session reusable by the replies it got, and the entry has their number and the time the last one was over |
| Health.UnfitIsNeverPooled | mailgw-go/internal/deliver/client.go:202-206 | a connection that carried no message, or one that left its session unfit, is under no key: a delivery holds it, or it is retired |
| Health.SettledIsPooledIff | mailgw-go/internal/deliver/pool.go:164-200 | when a delivery ends, its connection goes to the pool exactly if pooling is on, its last message left the session reusable and every limit allows it; otherwise it is closed and retired |
| Health.ReapedIff | mailgw-go/internal/deliver/pool.go:308-335 | the reaper takes out of the pool exactly the connections that had been idle for longer than the limit |
| Health.OverHoldsNothing | mailgw-go/internal/deliver/client.go:186-207 | a delivery that is over holds no connection |
| Health.CancelCloses | mailgw-go/internal/deliver/client.go:416-442 | a cancellation that runs while a delivery talks to a relay closes the very connection it holds |
| Health.SentOnProved | mailgw-go/internal/deliver/client.go:296-326 | a session is ready for a message only after this delivery probed it and was answered, or logged in on it as the relay's user if there is one |
| Health.ProbedIsRecent | mailgw-go/internal/deliver/pool.go:108-162 | no session is probed for reuse that had been idle for longer than the limit |
| Misfiled.Borrows | mailgw-go/internal/deliver/client.go:296-407 | for two relays with one key and any session the one can make there is a run in which the other sends a message on it |
| Misfiled.SentIffMade | mailgw-go/internal/deliver/client.go:296-407 | so the sessions a relay of a process can send on are exactly those that some relay of the process with the same key can make |
| Misfiled.OwnSessionsIff | mailgw-go/internal/deliver/pool.go:75-84 | every message of a relay goes on a session it could have made itself exactly if no relay of the process with its key leads elsewhere and can make a session at all, or allows AUTH in the clear where it has a user, does not require TLS and does not allow that |
| Misfiled.InTheClearIff | mailgw-go/internal/deliver/client.go:536-556 | a relay that is not ambiguous, has a user, does not require TLS and does not allow AUTH in the clear sends on an unencrypted session in some run exactly if the process has one with its address, user and policy that does allow it |
| Misfiled.AstrayIffAmbiguous | mailgw-go/internal/deliver/pool.go:75-84 | some process with the relay sends a message of it to another address or as another user exactly if the relay is ambiguous |
| Delivery.PoolStaysBounded | mailgw-go/internal/deliver/pool.go:202-216 | at every point of every run the pool is within its limits and so are its keys |
| Delivery.StepKeepsInv | mailgw-go/internal/deliver/client.go:416-465 | every move of a delivery, a callback, the reaper or the shutdown keeps the ownership invariant |
| ClaimName.ClaimParses | mailgw-go/internal/events/replay.go:181-198 | parseClaim inverts the claim's name for every pid and every name, dashes and all, exactly when the clock is not before 1970 |
| ClaimName.ClaimInjective | mailgw-go/internal/events/replay.go:266-267 | two claims have one file name only if they are one claim |
| ClaimName.ClaimIsHidden | mailgw-go/internal/events/replay.go:128-135 | no claim is ever listed as pending |
| SpillName.SpillOrderIsChronological | mailgw-go/internal/events/client.go:388-399 | for every time the fixed width holds, sorting names is sorting by spill time |
| SpillName.SpillIsPending | mailgw-go/internal/events/replay.go:128-135 | every spilled file is one the replayer lists |
| SpillName.SpillCollision | mailgw-go/internal/events/client.go:388-399 | two spills share a file exactly when they are of one kind and share the nanosecond and the last four digits of the sequence number |
| Replay.OnePlaceOrAcknowledged | mailgw-go/internal/events/replay.go:258-357 | in every run of any number of replayers, crashes anywhere and pids shared or not, an event is in exactly one place with its body, unless that body was answered 2xx or the retention sweep took it |
| Replay.SharedOnlyAfterGrace | mailgw-go/internal/events/replay.go:36-47 | two processes are responsible for one event at once only after a Reclaim saw one of the claims to be over fifteen minutes old; or, but only under a pid that two live processes had, an earlier claim with the same file name |
| Replay.RepostOnlyAfterReturn | mailgw-go/internal/events/replay.go:259-317 | a claim posts once at most, and a later claim of the event exists only after a release by its own holder or such a reclaim |
| Replay.StepKeepsInv | mailgw-go/internal/events/replay.go:154-415 | every step of every process keeps the invariant of the directory, the claims and the processes |
| Deeds.HolderIsOrderly | mailgw-go/internal/events/replay.go:258-317 | over every run: whoever holds a claim reads the record first, and then only removes the file after a 2xx, sets it aside after a refusal, gives it back after any other answer, and does nothing more with that claim |
| Deeds.FateFollowsAnswer | mailgw-go/internal/events/replay.go:258-357 | a claim that its holder ended was removed exactly after reading, posting and a 2xx; set aside after a refusal or unposted; given back after another answer, unposted or unread |
| Deeds.AcknowledgedWasAccepted | mailgw-go/internal/events/replay.go:289-298 | an event counts as acknowledged only if a holder of a claim of it was answered 2xx |
| Deeds.PlaceFollowsFate | mailgw-go/internal/events/replay.go:258-357 | after its last claim was given back or reclaimed an event waits under its own name; set aside, it is among the rejected or swept; removed, it is nowhere |
| ReplayPass.SpillDir.Reclaim | mailgw-go/internal/events/replay.go:154-179 | exactly the readable claims older than the grace go back, to their original names; every other file stays, unreadable claims and temporary files among them |
| ReplayPass.SpillDir.Pending | mailgw-go/internal/events/replay.go:117-140 | exactly the waiting files, in order |
| ReplayPass.SpillDir.One | mailgw-go/internal/events/replay.go:258-317 | one event is removed, set aside or put back, by the answer; nothing else changes |
| ReplayPass.SpillDir.RunPass | mailgw-go/internal/events/replay.go:221-247 | the pass deals with an initial part of the list, stops only at the third deferral in a row or at the end of the context, and counts what it did; each claim reads the clock anew |
| ReplayPass.SpillDir.RunOnce | mailgw-go/internal/events/replay.go:204-248 | abandoned claims first, then the pass over everything waiting, whatever other files the directory holds; each of the three counters is the number of events dealt with that met that answer |
| ReplayPass.DrainedByOnePass | mailgw-go/internal/events/replay.go:200-248 | with every claim past the grace and every record accepted, only the files that are neither listed nor readable claims are left, and every event is counted once |
| ReplayDrain.DrainReachable | mailgw-go/internal/events/replay.go:200-248 | so from every state the protocol can reach, claims of dead processes and foreign files among them |
| ReplayDrain.FileNameEvent | mailgw-go/internal/events/replay.go:181-198 | the protocol's places are file names that read back as themselves |
| Pipeline.OneOutcome | mailgw-go/internal/events/client.go:251-329 | after Send has returned, an event is in the buffer, in one sender's hands, or over with exactly one outcome; it is taken at most once and posted at most Retries+1 times |
| Pipeline.HeldOnce | mailgw-go/internal/events/client.go:251-268 | no event is in two senders' hands, nor in a sender's hands and in the buffer |
| Outcomes.OutcomeFollowsReplies | mailgw-go/internal/events/client.go:280-329 | over every run: an event is Sent exactly if its last reply was a 2xx and refused and spilled exactly if it was a 4xx, and no post follows such a reply; one that is spilled otherwise had only other replies, and either Retries+1 posts or an expired shutdown; one that is dropped was never posted |
| Outcomes.EndedBy | mailgw-go/internal/events/client.go:157-329 | every outcome comes of one step of its own kind: a drop of the closed check, the full buffer or the sweep of Close, the others of the sender that has the event, with the reply in question |
| Pipeline.AfterCloseOnlyRacers | mailgw-go/internal/events/client.go:199-225 | after some Close has returned, an event without an outcome is in the buffer and had passed the closed check before the flag was set |
| Drain.DrainTerminates | mailgw-go/internal/events/client.go:199-277 | once the flag is set, senders and calls of Close take no more steps than a fixed amount of work, in the buffer, in flight and in their phases, and three for each further call, whatever else is sent and however they interleave |
| Drain.BufferBoundsWork | mailgw-go/internal/events/client.go:247-250 | and the buffer holds no more of it than its capacity |
| Stranded.RacerCanStay | mailgw-go/internal/events/client.go:157-225 | after the flag is set, any event past the closed check can still be left in the buffer: a run goes on to a Close that has returned with it there |
| Stranded.CanBeLeftBehindIff | mailgw-go/internal/events/client.go:199-225 | a run with the flag set can go on to such a point exactly if it is there already or some event is past the check |
| Stranded.RacersCanBeLeftBehind | mailgw-go/internal/events/client.go:199-225 | at the moment the flag is set: exactly if some send is racing with it |
| Pipeline.RacingAtClose | mailgw-go/internal/events/client.go:161-189 | the racing events are exactly the sends in flight when the flag was set, once |
| Pipeline.StepKeepsCore | mailgw-go/internal/events/client.go:157-329 | every atomic step keeps the records, the senders and the buffer consistent |
| Pipeline.StepKeepsClose | mailgw-go/internal/events/client.go:199-225 | every atomic step keeps the promises of the closing protocol |
| Pipeline.Deliver | mailgw-go/internal/events/client.go:280-329 | the retry loop: attempts stop at the first answer that is final or at the end of the shutdown context, and the outcome follows the last answer |
| HeaderFields.SplitIsWhole | mailgw-go/internal/msgauth/results.go:172-207 | the fields and the body put together are the message |
| HeaderFields.SplitIsWell | mailgw-go/internal/msgauth/results.go:172-207 | the split of any message is well formed |
| HeaderFields.SplitIsUnique | mailgw-go/internal/msgauth/results.go:172-207 | and no other well-formed split gives the same message |
| HeaderFields.FilterIsKeep | mailgw-go/internal/msgauth/results.go:136-141 | filtering is the fields kept, in order, and the body byte for byte, whatever is filtered |
| HeaderFields.FilteredSplit | mailgw-go/internal/msgauth/results.go:136-141 | splitting the output finds exactly the kept fields and the same body |
| HeaderFields.FilterTwice | mailgw-go/internal/msgauth/results.go:136-141 | filtering again changes nothing |
| StripAuth.OursReadsFirstToken | mailgw-go/internal/msgauth/results.go:211-229 | a field, taken apart into blanks, name, colon and value, is ours exactly when its name is a spelling of Authentication-Results in capitals and small letters and its first token, but for one final dot, a spelling of our authserv-id but for one |
| Text.FoldIffSpells | mailgw-go/internal/msgauth/results.go:215-228 | two texts fold alike exactly if they have one length and each pair of characters is equal or the two forms of one letter of the alphabet |
| StripAuth.SpeltOursIsStripped | mailgw-go/internal/msgauth/results.go:134-229 | of any message, such a field is in the output exactly if it was in the message and is no spelling of that name with that authserv-id, blanks around the configured one included |
| StripAuth.StrippedIffBare | mailgw-go/internal/msgauth/results.go:211-229 | of the fields that may claim our authserv-id by section 2.2 of RFC 7601, exactly those in which it stands bare are ours: none with a comment before or right after it, none with it in quotes, with escapes or without |
| StripAuth.StripRemovesExactlyOurs | mailgw-go/internal/msgauth/results.go:126-148 | the output has exactly the fields that are not ours, with the body unchanged |
| StripAuth.StripTwice | mailgw-go/internal/msgauth/results.go:142-148 | stripping again changes nothing |
| StripAuth.StripLeavesOthersAlone | mailgw-go/internal/msgauth/results.go:136-141 | a message with no field of ours comes out byte for byte |
| StripAuth.StripReader.Fill | mailgw-go/internal/msgauth/results.go:178-207 | one field or the blank line is consumed, and what will yet be read is unchanged |
| StripAuth.StripReader.Read | mailgw-go/internal/msgauth/results.go:162-174 | what was to be read is what was read now and what is still to be read; an error only at the end, and the source's own |
| StripAuth.ReadAll | mailgw-go/internal/msgauth/results.go:142-174 | for every sequence of buffer sizes the reader yields the filtered message, then the source's own error |
| Bands.StableSortSorts | mailgw-go/internal/deliver/mx.go:181-190 | the sort orders by preference, keeps every element and the order within a preference |
| Bands.SortedIsItsBands | mailgw-go/internal/deliver/mx.go:189-190 | a sorted list is determined by its bands, so there is one stable sort only |
| Bands.ShuffleBands | mailgw-go/internal/deliver/mx.go:191-200 | whatever the draws, the shuffle is a permutation that keeps each position's preference |
| Bands.SortHosts | mailgw-go/internal/deliver/mx.go:189-201 | a sorted permutation, equal to the stable sort but for the order within a preference |
| Bands.Attempts | mailgw-go/internal/relays/group.go:10-33 | the members permuted within their priorities, and the group left as it is |
| MxCache.SuccessIsSorted | mailgw-go/internal/deliver/mx.go:149-177 | a resolution without an error is not empty, sorted by preference, and names exactly the hosts of the answer, or the domain itself if it has none |
| MxCache.MeaningAnswers | mailgw-go/internal/deliver/mx.go:129-177 | the answer by cases: a failed lookup is exactly that error and no host; not found or no records, the domain itself; a record whose target is empty or a dot, the null-MX error; otherwise the records' names without one final dot, with their preferences, sorted |
| MxCache.NormalIs | mailgw-go/internal/deliver/mx.go:116 | the name looked up is the domain asked for in small letters, without the blanks around it and one final dot |
| MxCache.PutOk | mailgw-go/internal/deliver/mx.go:241-252 | storing keeps every entry equal to what the last lookup of its domain meant |
| MxCache.BoundedIsSafe | mailgw-go/internal/deliver/mx.go:254-273 | after a store at most 1024 entries are left, the new one among them, and a live one is lost only with all the others |
| MxCache.Resolver.Cached | mailgw-go/internal/deliver/mx.go:205-227 | a hit exactly when the entry is within its own lifetime, and then the entry's outcome up to in-band order |
| MxCache.Resolver.Store | mailgw-go/internal/deliver/mx.go:241-273 | the new map, with the invariant of the cache kept |
| MxCache.Resolver.Sweep | mailgw-go/internal/deliver/mx.go:260-265 | exactly the expired entries go, but for the one just stored |
| MxCache.Resolver.Fresh | mailgw-go/internal/deliver/mx.go:130-175 | the uncached path yields what the answer is worth: the error if the lookup failed, the domain itself if there are no records, the null-MX error if one names nothing, else the records' hosts sorted |
| MxCache.Resolver.Hosts | mailgw-go/internal/deliver/mx.go:112-178 | every result is what the last stored lookup of the domain is worth, stored no longer ago than its kind may live; a lookup made now is kept for 30 seconds if it failed and for the configured time, or five minutes, otherwise; a success is not empty, and sorted |
| Xtext.RoundTrip | mailgw-go/internal/dsn/dsn.go:359-387 | for every string of bytes the encoding is printable and decodes back to them |
| Xtext.StandsForItself | mailgw-go/internal/dsn/dsn.go:359-387 | text is its own encoding exactly when it is printable, without space, plus and equals sign |
| Xtext.EncodeText | mailgw-go/internal/dsn/dsn.go:375-387 | the loop computes the encoding |
| Dsn.HeaderIsOneField | mailgw-go/internal/dsn/dsn.go:325-346 | one call of header writes exactly one field, whatever the name and the value hold |
| Dsn.HeaderOfOneLine | mailgw-go/internal/dsn/dsn.go:332-346 | a value without line breaks stands in its field unchanged |
| Dsn.CleanIsOneLine | mailgw-go/internal/dsn/dsn.go:348-357 | clean leaves no line break, and changes nothing else |
| Dsn.StatusAgreesWithAction | mailgw-go/internal/dsn/dsn.go:389-417 | the class agrees with the Action exactly when no status was given or its class is 2, 4 or 5; the rest stays |
| Dsn.StatusIsReadBack | mailgw-go/internal/dsn/dsn.go:242-291 | for all strings, the delivery-status part reads as one block for the message and then one for each recipient, in order, each with exactly the fields meant |
| Dsn.TopIsReadBack | mailgw-go/internal/dsn/dsn.go:177-205 | whatever the addresses and identifiers hold, the notification's own header reads as exactly the fields meant |
| DsnReader.RcptIsTold | mailgw-go/internal/dsn/dsn.go:262-289 | by field name, what a reader finds in the block of each recipient: Final-Recipient, Action, Status, Original-Recipient, Remote-MTA, Diagnostic-Code and Last-Attempt-Date, and none that is not known |
| DsnReader.MessageIsTold | mailgw-go/internal/dsn/dsn.go:244-260 | and in the block of the message: Reporting-MTA, Original-Envelope-Id, X-NGM-Original-Envelope and Arrival-Date |
| DsnReader.TopIsTold | mailgw-go/internal/dsn/dsn.go:183-205 | and in the notification's own header, whatever follows it |
| DsnReader.RcptIsOneLine | mailgw-go/internal/dsn/dsn.go:262-289 | nothing said of a recipient has a line break, but for a date |
| Dsn.WriteTop | mailgw-go/internal/dsn/dsn.go:183-205 | the writer appends exactly that header |
| Dsn.WriteHeader | mailgw-go/internal/dsn/dsn.go:332-346 | the writer appends exactly that field |
| Dsn.WriteStatus | mailgw-go/internal/dsn/dsn.go:244-291 | the writer appends exactly the part |
| MimeWalk.MessageWalk | mailgw-go/internal/attach/walk.go:81-144 | for every structure the count is at most 500; no error exactly when it is well formed, at most 20 deep and under 500 nodes; the parts are the attachments among the nodes counted, in document order |
| MimeWalk.MessageParts | mailgw-go/internal/attach/walk.go:81-177 | the parts reported are those of the attachments among the nodes counted, each once and in document order, with their own name, type, disposition and content |
| MimeWalk.LeafIsTaken | mailgw-go/internal/attach/walk.go:146-205 | a leaf is an attachment if its disposition is a spelling of attachment, it has a name, or inline parts count and its type is no spelling of text/plain or text/html; then it is taken if it decodes, otherwise it only has to be readable |
| MimeWalk.MessageError | mailgw-go/internal/attach/walk.go:103-177 | the error of a walk is what it met where it stopped: too many nodes or too deep, a multipart without a boundary or a leaf that fails as the node counted last, or a multipart that breaks off |
| MimeWalk.WalkTakesInOrder | mailgw-go/internal/attach/walk.go:103-177 | however a part's walk ends, it has entered the first nodes in document order and taken exactly their attachments |
| MimeWalk.WalkSucceeds | mailgw-go/internal/attach/walk.go:103-144 | when the walk of a part at any depth and count succeeds |
| MimeWalk.WalkIsBounded | mailgw-go/internal/attach/walk.go:104-107 | the count stays within 500 |
| MimeWalk.Result.WalkPart | mailgw-go/internal/attach/walk.go:103-144 | the method with its loop computes the walk |
| MimeWalk.Result.AddLeaf | mailgw-go/internal/attach/walk.go:146-177 | a leaf's effect on the result: its bytes have to be read in any case, and decoded if it is an attachment |
| MimeWalk.Squeeze | mailgw-go/internal/attach/walk.go:289-298 | the in-place compaction leaves the bytes that are not blank, in order, at the front |
| MimeWalk.SpaceStripper.Read | mailgw-go/internal/attach/walk.go:287-305 | what is given and what is left are the source without its blanks; a call gives something or the error of the reader below, and that error only with or after the last of it |
| Sql.PageStatementIsRead | logservice-go/query/builder.go:258-314 | rendered conditions, joiner and order are read back as they were, backticks and all |
| Sql.CountStatementIsRead | logservice-go/query/search.go:44-54 | so is the count statement |
| SqlWhere.BuildWhere | logservice-go/query/builder.go:171-280 | the surviving filters in order under one joiner, and their arguments in the same order |
| SqlWhere.SurvivorMeans | logservice-go/query/builder.go:171-254 | a filter survives exactly if its column is allowed and its operator can use its value; and operator by operator, which comparison and which pattern its placeholder stands for |
| SqlWhere.SurvivorsStand | logservice-go/query/builder.go:171-280 | the surviving filters are those of the parameters that can survive, each once and in their order |
| SqlWhere.OrIsSpelt | logservice-go/query/builder.go:274-279 | the joiner is OR exactly for the spellings of or |
| SqlWhere.SelectsIsAccepts | logservice-go/query/builder.go:258-280 | on any row the statement is the AND, or the OR, of the surviving filters, each with its own arguments |
| SqlWhere.UniformJoin | logservice-go/query/builder.go:274-279 | with AND binding tighter than OR, one joiner means all or any |
| SqlWhere.BuildOrderBy | logservice-go/query/builder.go:282-305 | the allowed sorts in order, or the fallback |
| SqlWhere.OrdersRank | logservice-go/query/builder.go:282-305 | the orders are the sorts by allowed columns, each once and in their order, ascending exactly for the spellings of asc |
| SqlWhere.LimitOffset | logservice-go/query/builder.go:119-163 | the limit is in 0..1000 and honoured within it, the offset is not negative |
| SqlWhere.Search | logservice-go/query/search.go:43-75 | count and page statements filter alike, name allowed columns only, have one placeholder for each argument, and the page's arguments are the count's and then a bounded limit and offset |
| SqlWhere.SearchTable | logservice-go/query/search.go:43-76 | so for a table |
| SqlWhere.SearchHashLookups | logservice-go/query/search.go:105-130 | so for the join, with every column qualified |
| Transaction.Deliver | mailgw-go/internal/deliver/client.go:186-288 | without a connection error the recipients reported are those asked for, each with its own outcome, the i-th verdict being that of the i-th recipient; the connection is offered to the pool exactly when MAIL was accepted and either no recipient was or the message completed, whether RCPT was refused or met no reply |
| Transaction.OfferedIsHealthyIff | mailgw-go/internal/deliver/client.go:186-245 | of the sessions offered, exactly those with a reply to every RCPT answered every command |
| Transaction.UnansweredIsOffered | mailgw-go/internal/deliver/client.go:225-245 | a session whose RCPT timed out is offered, alone or followed by a message that goes through |
| Transaction.ReportIsVerdicts | mailgw-go/internal/deliver/client.go:225-281 | the report is one verdict for each recipient, in another order |
| Transaction.ReportNames | mailgw-go/internal/deliver/client.go:225-281 | each address is reported as often as it was asked for |
| Transaction.OutcomeFollowsReply | mailgw-go/internal/deliver/client.go:558-582 | a recipient is delivered only when all three replies agree, and rejected exactly on an SMTP reply of 500 or more; its code, enhanced code and message are those of the first reply about it that is not a yes, with the message freed of blanks, 451 if there was no reply, and 250 with the final text otherwise |
| Transaction.Result.Transact | mailgw-go/internal/deliver/client.go:220-288 | the error, if MAIL is refused or the content breaks off; else refusals first, then the common fate of the rest; the message is counted exactly when the session may be reused |
| ConfigStore.StoreRemembers | mailgw-go/internal/store/config.go:91-159 | after every statement of every sequence the applied configuration is the last one marked, whatever was fetched, refreshed, pruned or failed since, and the desired version the last recorded |
| ConfigStore.AppliedStays | mailgw-go/internal/store/config.go:61-77 | a configuration that was ever applied is never evicted |
| ConfigStore.PruneBounds | mailgw-go/internal/store/config.go:11-14 | pruning leaves at most ten that were not |
| ConfigStore.SavedSurvives | mailgw-go/internal/store/config.go:31-77 | a configuration is still there after its own save exactly when it was applied before or fewer than ten others were fetched later |
| ConfigStore.NewestSurvives | mailgw-go/internal/store/config.go:31-77 | so it is whenever the clock has not gone back and fewer than ten higher versions were fetched in the same second |
| Agent.RestartAtAnyPoint | mailgw-go/internal/node/agent.go:570-645 | from every crash point of every history a restart runs the version asked for last if it is cached and applies, otherwise the one applied last if it still applies |
| Agent.Gateway.ApplyCached | mailgw-go/internal/node/agent.go:455-496 | a failed load or apply changes neither what runs nor what is recorded as applied; a success runs and is recorded |
| Agent.Gateway.BootConfig | mailgw-go/internal/node/agent.go:587-614 | the pick, and the fallback when the store cannot be read |
| Agent.Gateway.BootFromCache | mailgw-go/internal/node/agent.go:616-645 | the boot runs what RestartAtAnyPoint speaks of |
| Agent.Gateway.Pull | mailgw-go/internal/node/agent.go:367-453 | the intent is written first; only a success changes what runs or what is applied; no retry while backed off; with nothing failing and a pick that loads, the pick runs afterwards exactly if the wanted version is not the one recorded as applied or the pick ran already, and in the first case is the applied one exactly if it survived its own save; the held bytes are taken exactly if the console names no digest or theirs, and otherwise what it sends; and if only the configuration is at fault it is backed off for 300 seconds, with the reason recorded |
| Agent.Gateway.Run | mailgw-go/internal/node/agent.go:316-361 | over any number of polls, as long as the console wants the version recorded as applied, what runs stays as it was |
| Agent.Gateway.Start | mailgw-go/internal/node/agent.go:616-645 | so after a boot at which the wanted and applied configuration fails to load nothing runs, however often it is polled for and whether or not it would load by then |
| Agent.WantedAndApplied | mailgw-go/internal/node/agent.go:367-453 | every configuration can be the wanted and applied one: one pull brings that about |
| Agent.Gateway.AppliedConfig | mailgw-go/internal/store/config.go:91-104 | the query answers the last version marked |
| Agent.Gateway.MarkApplied | mailgw-go/internal/store/config.go:141-159 | a cached version becomes the applied one |
| Agent.Gateway.SaveConfig | mailgw-go/internal/store/config.go:31-59 | saving never moves the applied configuration |
| Agent.Gateway.ApplyFromCache | mailgw-go/internal/node/agent.go:498-512 | a reload applies the pick; one that fails leaves what runs and what is applied, and records the error and the back-off for that version |
| ClaimBucket.RateBound | mailgw-go/internal/adminui/auth.go:15-26 | of the calls in any window of T seconds at most 5 + T are allowed |
| ClaimBucket.PatientCallIsAllowed | mailgw-go/internal/adminui/auth.go:33-50 | the first call, and any call a second after the one before, is allowed |
| ClaimBucket.BurstIsReached | mailgw-go/internal/adminui/auth.go:23-26 | five calls at one instant are allowed, and only then is one refused |
| ClaimBucket.Server.AllowClaimAttempt | mailgw-go/internal/adminui/auth.go:33-50 | each call extends such a run |

## Left out

- The SMTP, TLS, DNS, HTTP, JSON, MIME and SQL libraries: their answers are parameters or nondeterministic actions; header parsing, transfer decoding and hashing of MIME parts are outside the walk.
- Letter case, blanks and quoting are ASCII: folding and trimming of other characters is not modelled, though the filter and the reader are proved for any choice of dropped fields.
- `Result.TLS` on a reused connection, which the code infers from the policy, is not claimed to be the session's encryption.
- The pool is not claimed to stay empty after `Close`: a later `Put` starts it again.
- How long a rejected record survives: the time stamp is best effort and follows the rename, so the retention sweep may take any rejected record.
- Spilled file names are assumed unique in the protocol of the replayers; `SpillName.SpillCollision` says when they are.
- ReplayPass.SpillDir.RunOnce: assumes that file operations succeed and records are readable with an endpoint, which `Replay` does not, and a clock past 1970, whose claims `ClaimName.ClaimParses` shows to be the readable ones.
- The session of a migration runner is taken to end with its run; a pooled session that outlives a failed release keeps the lock longer, which harms progress only.
- Backoff times, the wait inside the senders, and the order in which map entries or goroutines are visited: any order is allowed.
- SIGHUP during a poll: the methods of `Agent` run one after another, while `ConfigStore` holds for any interleaving of statements. Configurations injected by the test control interface are not modelled.
- Concurrent calls of `Hosts` between its cache lookup and its store: each critical section keeps the invariant of the cache, and the staleness bound is that of `Resolver.Cached`.
- That every permutation of a band can come out of the shuffle, and its probabilities.
- SqlWhere.Search: decoding of the request's JSON and execution of the statements are not modelled; numbers come with their decimal rendering.
- The human-readable part and the quoted original of a report, and the fixed MIME boundary between its parts.
- `Expand`, which copies a relay once for each resolved host (the copies are relays of the process like any other); `Build`'s refusal of empty addresses; `CheckFields`.
- DMARC alignment, rule sets, rate limits, the spool, the web interfaces and the Fiber variant of the log service.
