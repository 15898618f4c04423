# KACS kernel glue: a verified model

KACS decides access in the kernel from security descriptors. This project models the parts
of its kernel glue that hold state, run concurrently or do arithmetic, and proves what they
keep over every run:

- **The descriptor cache** of an inode (`SdCache*`, `SdResolve`). One slot per inode, guarded
  by a mutex that is dropped while an xattr is read or an ancestor is resolved. The model is a
  machine with any number of threads and one action per critical section or unlocked step.
  Addresses are reused once an entry is freed, counters wrap at their C width, and history
  fields record the unwrapped truth that the theorems speak about. A schedule is an arbitrary
  sequence of actions; `Execute` folds it.
- **The StrataFS copy-up exemption** (`CopyUp*`). Contexts, tasks, files and a file-system
  environment that may change in any way between two steps.
- **Encoders and arithmetic** (`MsgPack`, `PayloadWriter`, `Payloads`, `Records`,
  `ObjectRecords`, `Utf8`, `StrataRecords`, `StrataDecode`, `AuditFields`, `RateBucket`).
- **One-shot decisions and frozen grants** (`HandleGrants`, `MetadataDecision`, `PrivilegeUse`).

Objects that the source updates in place are classes (`InodeSecurity`, `Mount`,
`CopyUpContext`, `RateBucket`, `MsgpackWriter`, `Mp`, `TaskSecurity`, `ProcessState`). Each of
their methods is proved against the function on values that the theorems are about.

## What the code does not promise without a condition

- *Deleting only what was created* depends on the stacked case of the named-create
  confirmation (`kacs/copy_up.c:864-909`). There the inode the dentry shows at confirmation
  time is registered without being compared with the inode that the creation made. The
  condition is the parent's lock, which the caller in `stratafs/copy_up.c:1317-1372` holds
  from the lookup to the confirmation: `CopyUpLock.LockKept` says what it rules out, namely
  that anything but the creation itself changes what the armed name shows. Under it every
  theorem about deletion, staging, publication and the provider holds
  (`CopyUpLock.AlwaysItsOwn`, `CopyUpObjects.AlwaysHonest`); a confirmation registers an inode
  of its own phase if and only if the name still shows what it showed
  (`CopyUpLock.ConfirmsItsOwnIff`); and without it one change of the name ends in the admitted
  deletion of a foreign inode from every confirmable state
  (`CopyUpObjects.BrokenLockDeletesForeign`, concretely `CopyUpExample.DeletionOfForeignInode`).
- *A capability write aimed at the provider* is refused only by the first hook of a clone.
  While the clone is active, every later call is admitted for any dentry
  (`CopyUpObjects.CapabilityHookIsLooseAfterFirstUse` gives the exact condition,
  `CopyUpExample.CapabilityWriteToProvider` a run that reaches it).
- *A stale read is noticed* as long as the counters have not come round. Over every run a read
  is accepted exactly when the compared counter, invalidations on StrataFS and epochs
  elsewhere, moved by a whole multiple of 2^64 and the generation by one of 2^32 - 1
  (`SdCacheCounters.MissedExactlyWhenCountersComeRound`); `SdCacheExamples.MissedAfterAFullRound`
  is a run in which a lookup misses 2^64 hooks. Theorems about which observation is returned
  take `BoundedRun`, which bounds only what the mount compares: off StrataFS no open window
  spans 2^64 epochs, on StrataFS none spans 2^64 invalidations or 2^63 tickets. What policy
  changes do takes `PolicyBounded`: 2^32 - 1 generation changes. Counting, tags, references and
  lifetimes take no bound.
- *The signed ticket comparison* is wrong for an entry that outlived more than 2^63 later
  tickets. The `published != cache` test in front of it is what makes it safe
  (`SdCacheExamples.GuardIsNeeded`, `SdCacheTheorems.TicketComparisonIsExact`).
- *One write-back of an inode at a time* holds if no claim is taken while a write-back is being
  written (`SdCachePersist.OneWriteBackUnlessClaimedMeanwhile`). The claim covers queueing only
  and is given up before the xattr is written, so a second task can claim meanwhile; its
  write-back starts beside the first exactly when its own work is queued and the slot still
  shows an entry to write back (`SdCachePersist.SecondWriterIff`,
  `SdCacheExamples.TwoWriteBacksAtOnce`). Never are two queued
  (`SdCachePersist.OneQueuedWriteBack`).
- *One record per gate and token* holds for a token that does not come back. Over every run the
  next use of a gate claimed before is claimed, and recorded, again exactly when since that
  claim the process noted a use under another token, or a note of the same gate and token
  failed (`PrivilegeUse.ClaimedAgainIff`, `PrivilegeUse.RecordedAgainIff`,
  `PrivilegeUse.ReturningTokenRecordsTwice`). The second reason concerns a claim that still
  stands only after a return: a note of the first stretch that fails late takes back a claim of
  the second (`PrivilegeUse.StandingClaimedAgainIff`, `PrivilegeUse.StrayUnclaim`). The comment
  above `pkm_kacs_note_privilege_use` (`kacs/capability.c:322-337`) promises one record per
  process, gate and token without this condition.
- *Appending on an append-only handle*: the check does not see what the write does. Without a
  write intent it takes an append bit in the mask, or the handle's own flag, as the word of the
  caller. A write that does not append is admitted exactly when it was so declared
  (`HandleGrants.NonAppendAdmittedIff`, `HandleGrants.AppendOnlyForever`);
  `HandleGrants.DeclaredAppendsAdmitted` gives two inputs. The vectored and positioned write
  paths begin an intent with the write's own flags
  (`kernel/patches/fs/read_write-write-intent.patch`), which rules it out
  (`HandleGrants.IntendedWriteAppends`).

## Model

| member | source | states |
|---|---|---|
| SdCacheReferences.ReferencesConserved | kacs/file_sd_cache.c:192-241 | in every reachable state each entry's count equals slot ownership plus thread pins plus releases waiting for a grace period, so nothing leaks and every displaced entry is released exactly once |
| SdCacheLifetimes.NothingUsedIsFreed | kacs/file_sd_cache.c:481-535 | over every schedule, with addresses reused, whatever a thread still refers to is allocated and holds the entry the thread saw |
| SdCacheLifetimes.CandidatePinSucceeds | kacs/file_sd_cache.c:781-797 | a candidate found under RCU can always be pinned, and the pinned entry is the one that was found |
| SdCacheCounters.StepCounts | kacs/file_sd_cache.c:449-536 | every step, with no bound on any window, keeps stored and remembered counters the images of exact ones, and each lookup's reads and syntheses within the interference it has seen |
| SdCacheCounters.AlwaysCounts | kacs/file_sd_cache.c:449-536 | that holds in every state of every schedule |
| SdCacheOrder.StepOrdered | kacs/file_sd_cache.c:449-536 | every single step keeps the invariant that ties tickets, epochs and read windows to the true order of events |
| SdCacheOrder.AlwaysOrdered | kacs/file_sd_cache.c:449-536 | that invariant holds in every state of every schedule in which no window outlives a counter it is compared by |
| SdCacheOrder.RetriesExactlyOnInterference | kacs/file_sd_cache.c:488-500 | over every run, for a read that is itself in range: it is retried if and only if an interfering step happened during it, whatever earlier reads missed |
| SdCacheCounters.MissedExactlyWhenCountersComeRound | kacs/file_sd_cache.c:488-500 | over every run, without any bound, on either kind of mount: a read is accepted if and only if each compared counter moved by a whole number of its periods and, off StrataFS, the slot is the same |
| SdCacheWork.SynthesisRetriesExactlyOnInterference | kacs/file_sd_cache.c:725-734 | a returning synthesis is retried if and only if something interfered since it started, in range of the epoch and the policy generation |
| SdCacheTheorems.SelectionTakesTheSlot | kacs/file_sd_cache.c:449-536 | whatever a lookup selects is the slot's own entry at that moment, and only the thread's own lookup selects for it |
| SdCacheTheorems.SelectedAfterTheHook | kacs/file_metadata.c:259-281 | away from StrataFS no lookup after a set-security, a descriptor write's hook, an invalidation or a completed write-back selects bytes from an xattr read begun before it, whatever the interleaving and the policy changes |
| SdCacheTheorems.TicketComparisonIsExact | kacs/file_sd_cache.c:505-523 | where the guard lets it be reached, the wrapped signed comparison agrees with the true order of the two reads |
| SdCacheExamples.GuardIsNeeded | kacs/file_sd_cache.c:516-517 | for every distance between 2^63 and 2^64 a run in which the surviving entry of an older read compares as newer than the read that has just finished, and only the guard keeps it from being reused |
| SdCacheExamples.MissedAfterAFullRound | kacs/file_sd_cache.c:488-500 | a run on either kind of mount in which a lookup selects bytes read before 2^64 descriptor hooks |
| SdCacheTheorems.StrataLookupIsRecent | kacs/file_sd_cache.c:449-536 | on StrataFS a lookup returns an observation whose read began no earlier than the caller's own read, with no replacement since that read began and, unless the generation came all the way round, no generation change |
| SdCacheTheorems.PublicationMovesForward | kacs/file_sd_cache.c:505-535 | within one invalidation interval no step replaces the published observation by one read earlier |
| SdCacheTheorems.PublishedNeverGoesBack | kacs/file_sd_cache.c:227-241 | the same between any two states of a run in one interval |
| SdCacheContents.AlwaysExplained | kacs/file_sd_cache.c:346-447 | in every state of every schedule each allocated entry was made at its address by one action and has lain there unchanged since, and is what that action's outcome says: a read that found bytes gives a valid entry with those bytes, a bad descriptor a corrupt one, none a missing one; every reading thread has read in the same window since the action its origin names |
| SdCacheContents.SynthesisStartsFromAMissingRead | kacs/file_sd_cache.c:702-724 | over every schedule a thread synthesizes only over an entry that a read made which found no descriptor, and that entry still lies where it did |
| SdCacheContents.LookupReturnsWhatWasReadSince | kacs/file_sd_cache.c:449-536 | away from StrataFS, over every run in range: what any lookup selects is what one read returned (stored bytes, corruption, or nothing), what a later synthesis made because such a read found nothing, or what a writer supplied; and that read began after every earlier set-security, xattr-write hook, invalidation and completed write-back |
| SdCacheContents.StrataLookupReturnsWhatWasReadSince | kacs/file_sd_cache.c:449-536 | on StrataFS, over every run in range: what a lookup returns is what one read returned that began no earlier than the lookup's own last read, which itself began after every such action |
| SdCacheContents.OutcomeIsKept | kacs/file_sd_cache.c:390-447 | over every schedule a finished read leaves an entry exactly when it did not fail, and a finished synthesis exactly when it did not fail and had a template; the entry is the one the outcome asks for |
| SdCacheContents.MissingIsSynthesizedExactlyThen | kacs/file_sd_cache.c:702-712 | over every schedule no lookup under a synthesizing policy is handed a missing entry away from StrataFS, and no other lookup ever begins a synthesis |
| SdCacheContents.FastPathAgrees | kacs/file_sd_cache.c:743-837 | from every reachable state away from StrataFS the lock-free path returns an entry exactly when the locked path returns it without dropping the mutex, and both leave the same references |
| SdCacheContents.WriteBackStartsExactlyWhen | kacs/file_sd_cache.c:1031-1053 | over every schedule a queued write-back starts exactly when the slot shows a pending descriptor of the policy in force, and it writes those bytes, which a synthesis made to be written back |
| SdCacheWork.AlwaysCounted | kacs/file_sd_cache.c:464-536 | in every state of every schedule what a lookup has seen, and what its open window will still see, is paid for by steps of others since it began |
| SdCacheWork.LookupWorkIsBounded | kacs/file_sd_cache.c:464-536 | over every schedule one call reads the xattr, and synthesizes, at most once plus the interfering steps of others since it was entered; its own publications cost it nothing |
| SdCacheWork.ReadersDoNotDisturbEachOther | kacs/file_sd_cache.c:505-515 | between any two states of any StrataFS run, with no replacement or generation change in between and no older window open at the first, lookups started and xattr reads made are equal in number |
| SdCacheWork.AlwaysTagged | kacs/file_sd_cache.c:118-144 | in every state of every schedule missing entries are labelled missing, and what a synthesis made is valid and labelled synthetic |
| SdCacheWork.AlwaysFitted | kacs/file_sd_cache.c:702-724 | if no window outlives a policy generation, every synthesis started from an entry that fitted the policy of its window |
| SdCacheWork.SelectedIsCurrent | kacs/file_sd_cache.c:153-168 | away from StrataFS, over every run whose windows outlive no policy generation, whatever a lookup selects that a policy produced was produced under the policy in force |
| SdCacheWork.SynthesisInstallsOverItsOwnEntry | kacs/file_sd_cache.c:719-740 | in range, a synthesized entry is installed if and only if epoch and generation did not move, and then over the very missing entry it started from, both tagged with the current generation |
| SdCachePersist.OneQueuedWriteBack | kacs/file_sd_cache.c:1114-1147 | in every reachable state the claim bit is set exactly while one thread is queueing a write-back or one is queued and not started, and no two ever are |
| SdCachePersist.OneWriteBackUnlessClaimedMeanwhile | kacs/file_sd_cache.c:838-868 | over every run in which no claim is taken while a write-back is being written, at most one is being queued, queued or written |
| SdCachePersist.SecondWriterIff | kacs/file_sd_cache.c:1022-1066 | beside one writing task a second starts writing if and only if its own work is queued, which takes a claim made meanwhile, and the slot still shows an entry to write back |
| SdCacheExamples.TwoWriteBacksAtOnce | kacs/file_sd_cache.c:1039-1066 | a run in which two tasks each claim, queue and start their own write-back of one inode, and both are writing |
| SdCachePersist.PromotionKeepsTheBytes | kacs/file_sd_cache.c:1077-1096 | promotion after a write-back turns the slot's entry into a stored one with the same bytes exactly when that is still a pending one with the bytes that were written, and otherwise leaves the slot alone |
| SdCacheInode.InodeSecurity.constructor | kacs/object_lifecycle.c:17-33 | a new inode starts where every run of the theorems starts: empty slot, zero counters, no claim |
| SdCacheInode.InodeSecurity.Put | kacs/file_sd_cache.c:192-200 | drops exactly one reference and frees at zero |
| SdCacheInode.InodeSecurity.CallRcu | kacs/file_sd_cache.c:202-208 | a displaced entry waits for exactly the readers of that moment |
| SdCacheInode.InodeSecurity.ReplaceLocked | kacs/file_sd_cache.c:227-241 | the object's state moves as the machine's replacement does, counters and deferred release included |
| SdCacheInode.InodeSecurity.TryPublish | kacs/file_sd_cache.c:210-225 | publishes if and only if the slot is the expected one, and otherwise changes nothing |
| SdCacheInode.InodeSecurity.PostSetxattr | kacs/file_metadata.c:259-281 | the hook is the machine's invalidation step |
| SdCacheInode.InodeSecurity.StartRead | kacs/file_sd_cache.c:481-488 | opens the window the order theorems are about: pin, counters, ticket |
| SdCacheInode.InodeSecurity.ReadXattr | kacs/file_sd_cache.c:346-447 | the unlocked read ends as the machine action whose outcome `SdCacheContents` follows: at an unused address a valid entry with the bytes found, a corrupt one for a bad descriptor, a missing one under the current generation, or none for an error |
| SdCacheInode.InodeSecurity.FinishReadLocked | kacs/file_sd_cache.c:490-535 | jumps back exactly when the read is outdated; otherwise reuse, publication and failure are the machine's |
| SdCacheInode.InodeSecurity.FinishSynthesisLocked | kacs/file_sd_cache.c:719-740 | the same for a returning synthesis |
| SdCacheInode.InodeSecurity.StartPersist | kacs/file_sd_cache.c:1039-1053 | the worker's first locked section is the machine's |
| SdCacheInode.InodeSecurity.PromotePersisted | kacs/file_sd_cache.c:1077-1096 | the worker's last locked section is the machine's |
| SdCacheInode.InodeSecurity.GetOrPopulate | kacs/file_sd_cache.c:449-536 | the whole retry loop, with anything other threads do in its unlocked intervals, is a schedule of the machine, so every run theorem holds of it |
| SdCacheInode.OthersRun | kacs/file_sd_cache.c:449-536 | other threads' actions in an unlocked interval leave this thread's window alone and everything it holds alive |
| SdResolve.Mount.GetOrPopulate | kacs/file_sd_cache.c:449-536 | without interference: a current entry for the object, tagged and agreeing with what is stored, or the read's own error |
| SdResolve.Mount.SynthesizeMissing | kacs/file_sd_cache.c:551-687 | called and left with no descriptor mutex held; the result is the uncached definition cut off at the depth bound |
| SdResolve.Mount.Resolve | kacs/file_sd_cache.c:689-741 | equals the uncached recursion cut off at the depth bound, from any coherent warmth of any slots; returns with its own mutex and no other |
| SdResolve.Mount.GetEffective | kacs/file_sd_cache.c:798-880 | the lock-free fast path and the locked path give the same answer, no object becomes colder, and a write-back is queued for exactly the pending results |
| SdResolve.BoundedFromParent | kacs/file_sd_cache.c:585-634 | the bounded result of a missing object follows from its parent's bounded result one level deeper |
| SdResolve.RunDependsOnAncestors | kacs/file_sd_cache.c:585-634 | only slots at and above the object decide how deep a resolution goes |
| SdResolve.CallsKeepAnswers | kacs/file_sd_cache.c:689-741 | after any calls on any objects an object that could be resolved still resolves to the same descriptor, however warm its ancestors became, and never goes deeper |
| SdResolve.WarmerIsShallower | kacs/file_sd_cache.c:538-543 | warming any slots never turns an answer into a depth failure |
| SdResolve.ColdRunIsTheGap | kacs/file_sd_cache.c:538-543 | with cold slots the recursion goes deeper than n exactly when the object and its n nearest ancestors all lack a descriptor |
| SdResolve.ColdBound | kacs/file_sd_cache.c:538-543 | a cold resolution fails by depth exactly when the object and its 32 nearest ancestors all lack a descriptor |
| SdResolve.DescriptorIffDerivable | kacs/file_sd_cache.c:551-687 | an object has descriptor b if and only if b can be derived: stored at the object, or made step by step from the nonempty bytes of each object above, up to stored bytes or the root; and it is tagged by where it came from and by the policy in force |
| SdResolve.NoDescriptorSaysWhy | kacs/file_sd_cache.c:404-440 | the answer is corrupt exactly for a bad stored descriptor, missing exactly where nothing is stored and the policy makes nothing, and a read error is passed on |
| SdResolve.FailureComesDown | kacs/file_sd_cache.c:597-634 | below any gap the failure of the nearest object that stores anything decides: its read error as it is, a corrupt or empty descriptor as a refusal |
| CopyUpAttachment.AlwaysSane | kacs/copy_up.c:455-554 | in every reachable state each context's count equals owner references plus attachment plus bound files plus references in transit |
| CopyUpAttachment.AttachedOnce | kacs/copy_up.c:497-554 | no two tasks carry the same context |
| CopyUpAttachment.ArmedMeansAttached | kacs/copy_up.c:349-361 | an armed phase implies that some task carries the context |
| CopyUpAttachment.ReachableIsAlive | kacs/copy_up.c:455-468 | a context whose count is zero is named by no task, no file and no owner, and is disarmed |
| CopyUpAttachment.DestroyedOnce | kacs/copy_up.c:414-468 | nothing ever touches a destroyed context again |
| CopyUpSealing.AlwaysStamped | kacs/copy_up.c:349-412 | in every reachable state a file stamped with the current generation is stamped with the current phase, and generations never go back |
| CopyUpSealing.AdmittedOnlyInItsPhase | kacs/copy_up.c:1776-1980 | an internal file is admitted only for a task that carries its context, while the very phase it is stamped with is armed |
| CopyUpSealing.NeverAdmittedAgain | kacs/copy_up.c:349-412 | once that phase is over the file is never admitted again, over every continuation that does not resume it |
| CopyUpObjects.ResumedFileOnlyReads | kacs/copy_up.c:1839-1947 | only the provider directory, opened read-only by its own context, is resumed, only into an armed source-read phase; and over every continuation a file once resumed admits no write and no metadata change |
| CopyUpLedger.AlwaysLedgers | kacs/copy_up.c:666-756 | in every reachable state the recorded creations and stamps have one entry per create phase and carry the bytes pinned for that phase |
| CopyUpLedger.CreatesAndStampsOnce | kacs/copy_up.c:1580-1687 | a create phase admits at most one named creation and stamps at most one inode, with exactly the pinned descriptor bytes |
| CopyUpOrigins.AlwaysOriginated | kacs/copy_up.c:666-756 | over every run each context, each armed phase and each descriptor given out goes back to the action that began, armed or saw it, and holds what that action was asked for |
| CopyUpOrigins.StampsCarryTheChosenDescriptor | kacs/copy_up.c:700-717 | over every run every descriptor given to a new inode has the bytes the context was begun with if the creation that armed its phase names the context's own provider, and that other provider's effective ones if not |
| CopyUpOrigins.HookSuppliesTheChosenDescriptor | kacs/copy_up.c:1603-1687 | whenever the creation hook supplies a descriptor, it is that one, for the first time in the phase |
| CopyUpAdmission.SuppliesExactlyTheAskedDescriptor | kacs/copy_up.c:1603-1687 | over every run the creation hook ignores exactly the creations the phase is not about, and supplies a descriptor exactly to the first one it is about, of the asked format and, if it has a name, after that name was admitted |
| CopyUpAdmission.ArmsExactlyWithGrounds | kacs/copy_up.c:349-361 | an operation arms its phase, with what it was asked for and under the next generation, exactly if none is armed, generations are left and the file system gives it grounds; otherwise nothing changes |
| CopyUpAdmission.AdmitsExactlyTheAskedChange | kacs/copy_up.c:1580-1763 | over every run an armed phase admits a creation, link, rename or removal if and only if the arming operation was asked for it and the file system still shows what it showed then; a named creation only once |
| CopyUpAdmission.AdmitsExactlyTheAskedAccess | kacs/copy_up.c:1514-1578 | over every run an armed phase gives each inode exactly one right, to read, to enter a directory, anything or nothing, by what the arming operation was asked |
| CopyUpAdmission.AdmitsExactlyTheAskedAttributes | kacs/copy_up.c:2046-2089 | over every run attributes and xattrs may be set exactly on the staging object while it is populated, and the staging mark also on the provider of an orphan; descriptors, ACLs and capabilities never through this hook |
| CopyUpAdmission.AdmitsExactlyTheAskedFile | kacs/copy_up.c:1776-1980 | over every run a bound file is refused to everybody but its context's task in its generation, and there admitted if and only if the phase is about it, a provider for reading only; metadata writes exactly on the staging file while it is populated |
| CopyUpAdmission.OpenBindsExactlyTheAskedFile | kacs/copy_up.c:1871-1911 | over every run an open binds a file exactly if the phase is about it, and a bound file is admitted at once |
| CopyUpStaging.StackedCreationExactly | kacs/copy_up.c:782-909 | over every run an armed phase marks the outer creation, takes the anonymous inode and registers the confirmed name if and only if each is what the arming operation asked for, where it asked for it; a creation that is asked for but comes out of turn is refused |
| CopyUpStaging.BindsExactlyThePendingInode | kacs/copy_up.c:911-959 | a bind succeeds if and only if nothing is armed or staged, the path could be staged when it was looked at and is still in the same place, and it shows the inode the context waits for; what it leaves is valid staging of that inode, whatever changed between the two looks |
| CopyUpStaging.RebindsExactlyTheStagedInode | kacs/copy_up.c:961-995 | a rebind succeeds if and only if nothing is armed and the path is a valid place of the staged inode, and it changes the path alone |
| CopyUpStaging.ClonesExactlyTheBegunCapability | kacs/copy_up.c:1084-1145 | over every run a clone starts if and only if the staging is valid and being populated, in the user namespace the context was begun in, for exactly the capability it was begun with, which the provider still has |
| CopyUpStaging.NoCapabilityAfterTheClone | kacs/copy_up.c:2091-2108 | once a clone or its phase is over, no capability write is admitted over any continuation that begins no clone |
| CopyUpStaging.AdoptsExactlyTheStagingFile | kacs/copy_up.c:997-1065 | a file is handed to an outer file if and only if the context's own task does it between phases, it is the valid staging file, stamped in the latest phase and not handed over before, and the outer file is managed and not internal; it then has the outer file's grant, and the context one reference less |
| CopyUpStaging.ResumesExactlyTheProviderDirectory | kacs/copy_up.c:1839-1869 | a file is resumed if and only if it is the context's own, opened only for reading on the provider directory, and a source-read phase is armed; it is then admitted in that phase |
| CopyUpLock.AlwaysItsOwn | stratafs/copy_up.c:1317-1372 | over every run that keeps the parent's lock, the name of a stacked creation that awaits confirmation shows exactly what its own phase made, or nothing |
| CopyUpLock.ConfirmsItsOwnIff | kacs/copy_up.c:864-909 | after such a run, whatever the file system has become, a stacked confirmation registers an inode of its own phase if and only if the name still shows what it showed |
| CopyUpObjects.AlwaysHonest | kacs/copy_up.c:837-959 | over every run that keeps the lock, all tracked, staged and cleanup inodes were made by their context |
| CopyUpObjects.DeletesOnlyWhatItMade | kacs/copy_up.c:1713-1734 | over every run that keeps the lock, every admitted unlink or rmdir outside orphan cleanup names an inode made in a create phase of this context, never the provider |
| CopyUpObjects.ForeignInodeBecomesDeletable | kacs/copy_up.c:1286-1381 | every confirmation that fails the condition makes an inode the context did not make deletable |
| CopyUpObjects.BrokenLockDeletesForeign | kacs/copy_up.c:864-909 | from every reachable confirmable state one change of the name to an inode the context did not make ends, three operations later, in its admitted deletion |
| CopyUpExample.DeletionOfForeignInode | kacs/copy_up.c:864-909 | a whole run from an empty system in which the lock is not kept and such a deletion is admitted |
| CopyUpObjects.StagingIsWriteOnce | kacs/copy_up.c:911-995 | between any two states of a run the staging inode, once bound, is the same |
| CopyUpObjects.StagingWasMade | kacs/copy_up.c:911-959 | over every run that keeps the lock, a bound staging inode was made in a create phase of its context |
| CopyUpObjects.PublishesOnlyWhatItMade | kacs/copy_up.c:1689-1763 | over every run that keeps the lock, an admitted link or rename moves an inode this context made onto a name that shows nothing, in the named directory |
| CopyUpObjects.PublicationIsExact | kacs/copy_up.c:1217-1284 | over every run that keeps the lock, with the file system changing between the two looks: finishing a publication disarms and seals every file of the context; accepted, staging goes by an entry that showed the staging inode, made by this context, in the armed directory; refused, it is what it was |
| CopyUpObjects.ProviderIsNeverWritten | kacs/copy_up.c:1514-1578 | over every run that keeps the lock, with armed parents distinct from the provider, no non-orphan phase admits a write mask, attribute or xattr change, deletion, writable open or metadata write on the provider's inode, and a capability write only after another call of the same clone |
| CopyUpObjects.CapabilityHookIsLooseAfterFirstUse | kacs/copy_up.c:2091-2108 | over every run that keeps the lock, a capability write to the provider is admitted exactly after the first hook of an active clone |
| CopyUpExample.CapabilityWriteToProvider | kacs/copy_up.c:1099-1145 | a whole run in which the provider's dentry is refused, the staging dentry is admitted, and then the provider's dentry is admitted |
| CopyUpObject.CopyUpContext.constructor | kacs/copy_up.c:470-495 | a new context is the machine's |
| CopyUpObject.CopyUpContext.ArmPhaseLocked | kacs/copy_up.c:349-361 | arms under a fresh generation, and refuses at the last one and when a phase is armed |
| CopyUpObject.CopyUpContext.ClearPhaseLocked | kacs/copy_up.c:363-412 | disarms everything a phase had set |
| CopyUpObject.CopyUpContext.ChooseSd | kacs/copy_up.c:700-717 | the context's own descriptor for its provider, the effective one for any other source, stale exactly if the provider shows another inode, refused exactly if another source has no descriptor |
| CopyUpObject.CopyUpContext.BeginCreateCommon | kacs/copy_up.c:666-756 | agrees with the machine on every error and on the armed state; armed, it holds the descriptor the context was begun with for the context's own provider and the effective one for any other |
| CopyUpObject.CopyUpContext.DentryCreateFilesAs | kacs/copy_up.c:782-811 | marks a stacked creation exactly when the dentry, its parent and the format are the armed ones; the machine's theorems hold of it |
| CopyUpObject.CopyUpContext.PostCreateTmpfileHook | kacs/copy_up.c:813-835 | takes an anonymous stacked inode as made only in the armed create phase and on the armed file system; the machine's theorems hold of it |
| CopyUpObject.CopyUpContext.AllowsCreateHook | kacs/copy_up.c:1580-1601 | admits what the machine admits and then refuses a second creation in the same phase |
| CopyUpObject.CopyUpContext.InitSecurityHook | kacs/copy_up.c:1603-1687 | agrees with the machine on which inode is stamped and with which bytes |
| CopyUpObject.CopyUpContext.ConfirmNamedCreate | kacs/copy_up.c:864-909 | changes the created list and answers exactly as the step that the honesty condition is about |
| CopyUpObject.CopyUpContext.BindStaging | kacs/copy_up.c:911-959 | binds and answers exactly as the write-once step of the machine, including the environment changing between its two looks |
| CopyUpObject.CopyUpContext.FinishPublishing | kacs/copy_up.c:1241-1284 | disarms, rebinds and answers exactly as the step that the publication lemma is about |
| CopyUpObject.CopyUpContext.CleanupTargetTracked | kacs/copy_up.c:1286-1317 | the list walk finds a victim exactly when some tracked creation names it |
| CopyUpObject.CopyUpContext.BeginCleaningUp | kacs/copy_up.c:1319-1381 | agrees with the machine on every error and on the armed victim |
| CopyUpObject.CopyUpContext.AllowsCapabilityHook | kacs/copy_up.c:2091-2108 | agrees with the machine, the first-use mark included |
| RateBucket.ConsumedWithinElapsed | kacs/kmes_rate.c:70-104 | the time charged for credited tokens never exceeds the time that passed, so the clamp never fires, and its product does not wrap |
| RateBucket.WrapOnlyUnderCredits | kacs/kmes_rate.c:70-104 | a product that wraps 64 bits loses tokens, and only such a product does |
| RateBucket.RateBucket.Refill | kacs/kmes_rate.c:70-104 | the new tokens and time stamp are those of the specification, the count stays within the rate, and a full bucket is charged for no time: its stamp becomes the present |
| RateBucket.RateBucket.Reserve | kacs/kmes_rate.c:109-134 | grants if and only if enough tokens are there after the refill, takes exactly those, and keeps the refill when it refuses |
| RateBucket.RateBucket.Refund | kacs/kmes_rate.c:136-151 | gives back up to the rate and leaves the time stamp |
| RateBucket.Reconfigure | kacs/kmes_rate.c:178-199 | every bucket of the list is lowered to the new rate, none is raised |
| RateBucket.AlwaysAccounted | kacs/kmes_rate.c:70-151 | over every run, with samples in any order that are not before the last refill, tokens plus grants equal the starting tokens plus what was credited and refunded, and even the credit before saturation is covered by elapsed time and one nanosecond per refill |
| RateBucket.NeverOverCredits | kacs/kmes_rate.c:70-151 | over every such run, with E up to the latest sample and n crediting refills, credits C satisfy C * 10^9 <= rate * (E + n), tokens stay within the rate, and grants are covered by what was there, credited or refunded |
| RateBucket.NeverUnderCredits | kacs/kmes_rate.c:70-151 | an unsaturated unwrapped run credits more than rate * E - 10^9, with E up to the latest sample of any refill |
| RateBucket.BurstAfterFull | kacs/kmes_rate.c:84-88 | at any reservation of an ordered run that meets a full bucket with sample s: later credits C satisfy C * 10^9 <= rate * (latest later sample - s + n), however long the bucket had been full, and what is granted from there on is at most the rate plus C plus refunds |
| RateBucket.ZeroRateOnlyDrains | kacs/kmes_rate.c:78-79 | at rate zero no run, whatever its clock, ever credits or refunds a token |
| MsgPack.RoundTrip | kacs/kmes_payload.rs:68-184 | decoding any written value followed by anything gives the value and the rest (MessagePack specification, Formats section) |
| MsgPack.IntegersAreShortest | kacs/kmes_payload.rs:1009-1028 | no byte string that decodes to an integer is shorter than what the writer writes for it |
| PayloadWriter.MsgpackWriter.WriteMapLen | kacs/kmes_payload.rs:91-103 | refuses exactly the lengths with no header; otherwise appends the header of a map of that many pairs |
| PayloadWriter.MsgpackWriter.WriteArrayLen | kacs/kmes_payload.rs:105-117 | the same for arrays |
| PayloadWriter.MsgpackWriter.WriteStr | kacs/kmes_payload.rs:119-138 | refuses exactly the strings with no header; otherwise appends bytes that decode to the string |
| PayloadWriter.MsgpackWriter.WriteBin | kacs/kmes_payload.rs:140-157 | the same for binary data |
| PayloadWriter.MsgpackWriter.WriteU64 | kacs/kmes_payload.rs:159-175 | appends the encoding of the number that the round trip is about |
| PayloadWriter.MsgpackWriter.WriteI64 | kacs/kmes_payload.rs:1009-1028 | the same for signed numbers |
| PayloadWriter.MsgpackWriter.IntoVec | kacs/kmes_payload.rs:79-81 | a record whose announced and written pairs agree at every level decodes to exactly one map of those pairs |
| PayloadWriter.DecodePairsThen | kacs/kmes_payload.rs:68-184 | decoding n pairs and then m pairs is decoding n + m pairs |
| PayloadWriter.MapEncodes | kacs/kmes_payload.rs:91-103 | a header followed by exactly the pairs it announces is one well-formed map |
| Payloads.WriteProcess | kacs/kmes_payload.rs:194-213 | adds exactly one pair, the process map, to the map being written |
| Payloads.EncodeEmitterMap | kacs/kmes_payload.rs:643-653 | one well-formed map describing the process |
| Payloads.EncodeEmitterThreadMap | kacs/kmes_payload.rs:969-983 | one well-formed map describing the process and thread |
| Payloads.WriteSids | kacs/kmes_payload.rs:565-583 | the groups array decodes to the SIDs in order |
| Payloads.WriteAttributes | kacs/kmes_payload.rs:565-583 | the attributes array decodes to the attributes in order |
| Payloads.EncodeSubjectMap | kacs/kmes_payload.rs:585-641 | one well-formed map whose headers equal the pairs written, for every combination of optional identifiers |
| Records.EncodeObjectMap | kacs/kmes_payload.rs:655-690 | no map for an object with nothing to say; otherwise one well-formed map with the fields that are present |
| Records.EncodeAccessChecked | kacs/kmes_payload.rs:732-782 | one well-formed map for every combination of optional maps, path and trigger; fails exactly where the source does |
| Records.EncodePrivilegeUsed | kacs/kmes_payload.rs:784-817 | the same for a privilege use |
| ObjectRecords.EncodeCaap | kacs/kmes_payload.rs:843-903 | the same for a central access policy diagnostic |
| ObjectRecords.EncodeHandleUsed | kacs/kmes_payload.rs:905-964 | the same for a handle use; fails exactly on an operation that is not UTF-8, an empty request or an empty match |
| ObjectRecords.WriteOutcome | kacs/kmes_payload.rs:985-1000 | adds exactly one outcome map with two or three pairs as announced |
| ObjectRecords.EncodeImpersonationStarted | kacs/kmes_payload.rs:1050-1112 | the same for an impersonation |
| ObjectRecords.WriteDescriptorObject | kacs/kmes_payload.rs:1398-1474 | adds exactly one object map for every kind of target and every combination of before and after descriptors |
| Utf8.SanitizeUtf8Lossy | kacs/kmes_payload.rs:348-375 | the loop ends and computes the text in which each maximal invalid sequence is one U+FFFD and everything else is kept, as the lemmas below say of every input |
| Utf8.LossyIsWellFormed | kacs/kmes_payload.rs:348-375 | the result is always well-formed (section 4 of RFC 3629) |
| Utf8.LossyIsIdentityOnValid | kacs/kmes_payload.rs:348-375 | the sanitiser leaves its input alone if and only if that is well-formed |
| Utf8.LossyIsIdempotent | kacs/kmes_payload.rs:348-375 | sanitising twice is sanitising once |
| Utf8.LossyReplacesMaximalSequences | kacs/kmes_payload.rs:357-372 | a well-formed beginning is kept, one maximal invalid sequence after it (the longest beginning of some character, or a byte that begins none) becomes one U+FFFD, and the rest is treated by itself |
| Utf8.FirstInvalidSequence | kacs/kmes_payload.rs:357-372 | every input that is not well-formed is a well-formed text, one maximal invalid sequence and a rest, so the law above covers every input |
| Utf8.LossyKeepsAscii | kacs/kmes_payload.rs:348-375 | no ASCII byte is lost, made up or moved |
| Utf8.TextIsWellFormed | kacs/kmes_payload.rs:348-375 | encoding any scalar values gives bytes that the well-formedness test accepts |
| Utf8.WellFormedIsText | kacs/kmes_payload.rs:348-375 | every accepted byte string is the encoding of some scalar values |
| StrataRecords.Mp.Raw | kacs/file_access.c:55-61 | measuring and writing advance by the same length, and a write stays inside the buffer |
| StrataRecords.Mp.CopyUpFields | kacs/file_access.c:203-232 | either pass produces the specified record: its length when measuring, its bytes when writing |
| StrataRecords.Mp.RefusalFields | kacs/file_access.c:301-332 | the same for a refusal |
| StrataRecords.AuditCopyUp | kacs/file_access.c:234-299 | a record is emitted if and only if it can be encoded, and it falls back to the reduced form exactly when the allocation fails |
| StrataRecords.RefusalPayload | kacs/file_access.c:334-380 | returns the record's length when it fits and zero otherwise, and fills exactly that much of the buffer |
| StrataRecords.AuditRefused | kacs/file_access.c:382-422 | a refusal that can be encoded is never lost |
| StrataRecords.ReducedCopyUpFits | kacs/file_access.c:203-299 | every reduced copy-up record fits 192 bytes |
| StrataRecords.ReducedRefusalFits | kacs/file_access.c:301-422 | every reduced refusal record fits 192 bytes |
| StrataDecode.CopyUpDecodes | kacs/file_access.c:203-232 | the copy-up record decodes to exactly one map with the stated fields, full or reduced, success or failure |
| AuditFields.OneMeaning | evman/README.md:1-12 | a map of a record stands for one dictionary of names only, whatever the order of its pairs |
| AuditFields.AccessCheckedFields | evman/kacs.evman:390-415 | the access-check record has exactly the catalogue's maps, each under its name |
| AuditFields.AccessFields | evman/kacs.evman:397-407 | under `access` a reader finds the requested mask as requested, the granted one as granted, and each withheld part under its own name exactly if it is not zero |
| AuditFields.TriggerFields | evman/kacs.evman:413-414 | the trigger is `sacl`, with the ACE, exactly when an ACE matched and no policy forced the record |
| AuditFields.TokenFields | kacs/kmes_payload.rs:585-641 | the subject's token: every field under its own name, numbers exactly as far as they are known, the level zero for a primary token |
| AuditFields.ProcessFields | kacs/kmes_payload.rs:643-653 | the emitting process: number, name and, if it is known, executable, each under its own name |
| AuditFields.SubjectFields | kacs/kmes_payload.rs:585-641 | the subject has its token and its process trust, type and level apart |
| AuditFields.TokenIdentityFields | kacs/kmes_payload.rs:655-730 | a token that is looked at is found by number and by GUID, each under its own name |
| AuditFields.PrivilegeUsedFields | evman/kacs.evman:469-536 | what the privilege contributed and what survived are found apart from what the check requested and granted |
| AuditFields.CaapFields | kacs/kmes_payload.rs:819-832 | the mask a staged policy would have granted is found apart from the granted one |
| AuditFields.PolicyFields | kacs/kmes_payload.rs:843-903 | policy, rule and phase of a skipped SACL are found each under its own name |
| AuditFields.CaapRecordFields | kacs/kmes_payload.rs:843-903 | the policy, rule, phase and reason are found exactly in the record of a skipped SACL |
| AuditFields.HandleAccessFields | evman/kacs.evman:452-459 | the four masks of a handle use are found each under its own name |
| AuditFields.HandleObjectFields | evman/kacs.evman:446-448 | the object is a file, with its path exactly if that is known |
| AuditFields.HandleRecordFields | evman/kacs.evman:445-467 | the handle-use record has exactly the catalogue's maps, each under its name |
| AuditFields.HandleOutcomeFields | evman/kacs.evman:460-467 | a reason is found exactly for a failure with a reason code |
| AuditFields.OutcomeFields | evman/kacs.evman:874-940 | an error number, and a reason if there is one, are found exactly on failure |
| AuditFields.ClientFields | evman/kacs.evman:874-940 | the client's token, with the level asked for and the level permitted under different names |
| AuditFields.ImpersonationFields | kacs/kmes_payload.rs:1050-1114 | the impersonation record has exactly these maps, and the privilege exactly if it was used |
| AuditFields.DescriptorFields | evman/kacs.evman:537-602 | the new descriptor's length, digest and owner are found under the plain names and the old one's under those marked previous |
| AuditFields.CopyUpFields | evman/stratafs.evman:123-162 | source and destination are found each under its own name, in the full and the reduced form |
| AuditFields.ObjectFields | kacs/file_access.c:120-145 | the object's path is reported with one slash in front, added exactly if it has none |
| AuditFields.StratumFields | kacs/file_access.c:203-232 | a stratum is found by its place in the stack, and by its path exactly in the full form |
| AuditFields.CopyUpOutcomeFields | kacs/file_access.c:203-232 | an error number is found exactly on failure |
| AuditFields.RefusalFields | evman/stratafs.evman:163-214 | the refused operation, its provider if there is one, the error and whether it was deferred, each under its own name |
| StrataDecode.RefusalDecodes | kacs/file_access.c:301-332 | the same for a refusal |
| HandleGrants.AuditNeverGrants | kacs/file_access.c:1429-1509 | emission never turns a refusal into a grant |
| HandleGrants.DestructionNeedsWriteData | kacs/file_access.c:1601-1774 | on a managed handle without WRITE_DATA no truncation, range-destroying fallocate or shared writable mapping is admitted, and a write that really does not append only if it was declared an append |
| HandleGrants.NonAppendAdmittedIff | kacs/file_access.c:1601-1693 | on an append-only handle a write that really does not append is admitted if and only if the mask, the handle's flag or the marker declared an append and the other gates pass |
| HandleGrants.IntendedWriteAppends | kacs/file_access.c:1701-1774 | after any operations, a write whose path began an intent with the write's own flags is admitted on an append-only handle only if it appends |
| HandleGrants.DeclaredAppendsAdmitted | kacs/file_access.c:1627-1672 | two inputs on append-only handles that are admitted and do not append: a declared append without O_APPEND, and RWF_NOAPPEND without an intent |
| HandleGrants.GrantIsFrozen | kacs/file_access.c:2166-2218 | no operation changes a handle's grant; only the append and no-atime flags move, and an append-only handle keeps its append flag |
| HandleGrants.StaysAppendOnly | kacs/file_access.c:2166-2339 | over every sequence of operations an append-only handle stays one |
| HandleGrants.AppendOnlyForever | kacs/file_access.c:2166-2339 | after any sequence of operations the only destructive operation admitted on it is a write declared an append that is none, exactly when its gates pass, and its append flag cannot be cleared |
| HandleGrants.AdmittedExactlyByTheGrant | kacs/file_access.c:1540-1774 | after any operations on any handles, each operation (reads, writes, flag changes, fcntl, truncation, allocation, mappings and re-protections) is admitted if and only if the grant the handle was opened with holds the rights it asks for and the record due for them gets out |
| HandleGrants.PermissionExactly | kacs/file_access.c:1601-1693 | a permission check on a managed handle passes if and only if every right that the mask, the handle's flag and the marker ask for is granted, each for its own bit |
| HandleGrants.MappingExactly | kacs/file_access.c:1560-1599 | a mapping of a managed handle passes if and only if reading, executing and writing, shared or private, each find their own right |
| HandleGrants.TaskSecurity.BeginWriteIntent | kacs/file_access.c:900-917 | the marker is set exactly as the machine sets it |
| HandleGrants.TaskSecurity.EndWriteIntent | kacs/file_access.c:919-936 | the marker is cleared |
| HandleGrants.TaskSecurity.CheckFilePermission | kacs/file_access.c:1601-1693 | the marker is used up by the check of its own file only, and then decides it; on a managed handle the check passes if and only if the grant holds READ_DATA for a read, TRAVERSE for an execute or change of directory, the write or append right the marker or the mask asks for, and the audit record due gets out |
| MetadataDecision.TaskSecurity.BeginDecision | kacs/file_metadata.c:850-905 | a decision starts only with a class and on a free slot |
| MetadataDecision.TaskSecurity.ConsumeDecision | kacs/file_metadata.c:929-986 | answers whether it matched; the slot survives only a matching StrataFS hook |
| MetadataDecision.TaskSecurity.RebindDecision | kacs/file_metadata.c:798-819 | moves the decision to the provider, or refuses and leaves it |
| MetadataDecision.TaskSecurity.EndMetadata | kacs/file_metadata.c:821-832 | ends the decision of that inode only |
| MetadataDecision.AlwaysSound | kacs/file_metadata.c:786-986 | in every reachable state uses, looks, begun decisions and the slot agree |
| MetadataDecision.ConsumedAtMostOnce | kacs/file_metadata.c:929-986 | each begun decision is consumed by at most one hook away from StrataFS, and nothing consumes it or passes it on after that |
| MetadataDecision.ConsumedForItsInode | kacs/file_metadata.c:786-986 | each consumption is for the decision's own class and its own inode, or for one reached from it by recorded rebindings |
| MetadataDecision.PeekedOnlyWhileOpen | kacs/file_metadata.c:131-147 | the look that does not consume happens only under a decision begun to set file attributes, on its own inode or one reached from it by recorded rebindings, and never once the decision was consumed |
| MetadataDecision.PeeksTakeNothing | kacs/file_metadata.c:907-919 | after any number of file-attribute reads on its inode the decision to set them is still there, unused |
| MetadataDecision.TaskSecurity.FileGetattrHook | kacs/file_metadata.c:131-147 | a read of file attributes is let through on a decision to set them, which stays, or on one to read them, which is consumed |
| MetadataDecision.MismatchEndsForGood | kacs/file_metadata.c:929-986 | a hook that does not match ends the decision for good: over every continuation it is never consumed, passed on or looked at again |
| MetadataDecision.EndingEndsForGood | kacs/file_metadata.c:821-928 | an ending call that names the decision's inode, or none in particular, ends it for good; one that names another inode changes nothing |
| MetadataDecision.AlwaysTraced | kacs/file_metadata.c:786-986 | over every run each hook let through is a call of the very class, and on the very inode, that an earlier call began a decision for in a free slot, as moved by the rebindings between the two |
| MetadataDecision.BegunDecisionAdmitsExactly | kacs/file_metadata.c:786-986 | after any run, a decision begun in a free slot and rebound any number of times lets the next hook through if and only if that is of its class and on the inode it has come to, and is there afterwards exactly on StrataFS |
| PrivilegeUse.ClaimsAreAccounted | kacs/capability.c:340-433 | over every run, for every GUID that does not come back: its standing claims lie in one place each, with a task, drained or released, and while it is the last noted they are exactly the gates seen |
| PrivilegeUse.RecordedOnce | kacs/capability.c:371-513 | under a GUID that does not come back no gate is recorded twice, whatever other tokens were used before and after |
| PrivilegeUse.CarriedOnce | kacs/capability.c:371-433 | under such a GUID no two tasks wait to record the same gate, and none waits for one already drained or released |
| PrivilegeUse.ClaimedAgainIff | kacs/capability.c:340-357 | over every run a gate claimed before is claimed again by the next note under the same GUID if and only if since that claim a note under another GUID was made or a note of the same gate and GUID failed |
| PrivilegeUse.StandingClaimedAgainIff | kacs/capability.c:340-369 | while the GUID has not come back, a claim that still stands is made again if and only if a note under another GUID lies between |
| PrivilegeUse.RecordedAgainIff | kacs/capability.c:455-493 | over every run noting, queueing and draining a gate claimed before writes one more record exactly in that case |
| PrivilegeUse.ReturningTokenRecordsTwice | kacs/capability.c:340-357 | one task's run that records one gate under one GUID twice |
| PrivilegeUse.StrayUnclaim | kacs/capability.c:359-369 | a run in which a note that fails late takes back another task's claim, and two tasks wait to record the same gate under the same GUID |
| PrivilegeUse.ProcessState.First | kacs/capability.c:340-357 | a use is first unless it was claimed under the same GUID; a new GUID forgets all claims |
| PrivilegeUse.ProcessState.Unclaim | kacs/capability.c:359-369 | takes back a claim under the same GUID only |
| PrivilegeUse.TaskSecurity.NotePrivilegeUse | kacs/capability.c:371-433 | the method's two steps are the machine's, for each way queueing the work can end |
| PrivilegeUse.DrainRecords | kacs/capability.c:455-493 | the nested bit loops emit each pair of a pending gate and a privilege behind it exactly once, and nothing else |

## Left out

- The Rust semantic core (descriptor parsing, inheritance, AccessCheck, token internals): synthesis, validation and stored bytes are parameters.
- The bytes on disk after a deferred write-back that races an explicit set-security: the xattr write runs outside the lock; only the slot and the queue claim are modelled.
- Grace-period internals: a displaced entry waits for the readers that were inside a read-side section when it was displaced.
- Allocation and `igrab` failures: a call that fails for one of them is a step that is not taken, except where the fallback is the point (`StrataRecords.AuditCopyUp`, `StrataRecords.AuditRefused`).
- SdCacheTheorems.SelectedAfterTheHook: states nothing about runs in which an open window spans 2^64 epochs, because the epoch can then come round; `SdCacheCounters.MissedExactlyWhenCountersComeRound` says exactly when it does.
- SdResolve.Mount.Resolve: is about a call without interference; interference, retries and the schedule of other threads are in `SdCacheInode` and the `SdCache*` theorems, on one inode.
- Whether a mount synthesizes is a parameter of each lookup step; the superblock policy lookup itself is not modelled.
- RateBucket.NeverOverCredits: takes clock samples at or after the last refill they meet, in any order among themselves; a sample taken before the lock can be older than that refill.
- CopyUpObject.CopyUpContext.ArmPhaseLocked: rebinding of staging, beginning a publication and beginning orphan cleanup exist as functions on values in `CopyUp` only, and the methods of the class do not cover them.
- Copy-up read-side hooks (readlink, getattr, getxattr, listxattr, capability use) and the backing-file user-path comparison of adoption: single-branch reads that would add easy members.
- Reading the provider's effective descriptor and capability when a copy-up begins: parameters of that step.
- Name tables (privileges, capabilities, reasons, logon types, policies) and the ioctl and fcntl classification tables: inputs; what each fcntl class requires is modelled.
- A token's GUID is fixed for the token's life.
- Unmanaged handles and the signed-execution gate: parameters of the handle checks.
- Other event payloads (configuration rejected, policy changed, mount policy changed, descriptor rejected, logon session destroyed): the same writer and the same argument again.
- System-call plumbing, user copies, trace points and error-number mapping, and the firmware, IPC, exec and credential files: short gates or calls into code that is not part of this model.
