# Consent floor, event pipeline and remote-config fence: a verified model

This project models the parts of the Go SDK that decide whether anything may be sent at all, and
proves what they keep over whole runs: the opt-in consent floor with its receipt outbox and decision
record, the event worker and its delivery clocks, the remote-config cache and fence, the experiment
subject handle, and the consent notice's locale rule.

`dafny verify dfyconfig.toml` checks everything.

## How it is built

Code that updates state step by step is modelled in place, as a class whose methods say outright what
they leave in their fields and are proved equal to functions on values (`ConsentOutbox`, `Client`,
`Deliveries`, `RemoteConfigState`, `Pipeline`, `ExperimentSubject`) or as a loop over an array
(`BuildBatchIsolating`). The properties are proved of those functions, and of machines whose steps are the sections of code between two lock boundaries or
one write to disk. Any step may be taken at any time, so any interleaving of these steps, any failed
write and a crash between any two writes is a run of the machine. Time, minted keys, the outcome of each
write, post and lock attempt are chosen by the environment, step by step. These steps are coarser than
the code:

- A hold of a dispatch pass is judged at one moment, although the second to the sixth read two or three
  things under separate short locks.
- The end of a decision's turn (`Finish`) unlocks, lowers the arming count and drops the ticket at once;
  a start's conclusions, its two writes and its fields are one step, and so is the close verdict, which
  reads several locked values.
- An attempt's begin marks the clocks of all its members, fences and, if the fence fails, takes the marks
  back in one step; its finish rolls back and fences in one step (`BeginAttempt`, `FinishAttempt`).
- The age check right before a send and the send of that fact are one step (`Release`).

- `decision_record`, `consent_receipts`: what the two files say, and how a reader classifies them.
- `consent_outbox`, `consent_outbox_laws`: the outbox in place, and the laws of its merging save.
- `consent_floor`: the step machine of decisions, retries, dispatch passes, starts and crashes.
- `floor_client`: the client in place. Each method takes exactly the machine's steps.
- `floor_shape`, `consent_mirror`, `floor_pairing`, `floor_marks`: the inductive invariant of that
  machine, in every run, through evictions and forgotten settlements.
- `floor_holds`: what each hold of a pass lets through, exactly, and what a posted receipt has behind it.
- `floor_evidence`, `floor_dispatch`, `floor_wire`, `floor_late`, `floor_close`, `floor_decisions`,
  `floor_period`, `floor_plain`: one property over all runs each; `floor_withheld` is what `floor_period`
  builds on, and `floor_late` adds posts that the server processes later.
- `floor_limits`: for each condition of those properties a run that meets the others and breaks it.
- `event_pipeline`, `event_worker`, `publish_gate`, `delivery_clock`, `batch_build`: the worker's side.
- `remote_config`, `remote_config_fence`, `remote_config_scope`: the cache, the fence, the scope key.
- `subject_handle`, `subject_records`: the experiment subject handle, on values and in place.
- `subject_handoff`, `subject_ledger`, `subject_plane`: its facts on their way to the wire, where everything
  it holds comes from, and its share in the plane's withdrawals.
- `consent_locale`: the locale scan against the grammar of section 2.1 of RFC 5646.

## Where the code keeps less than it promises

Four properties of the floor hold only under conditions. Each is proved under them for all runs, and
for each condition a concrete run that meets all the others shows that the property fails without it.

- A denial on disk stays decisive (`CrashClosedDenial`) unless two things come together in one run: a
  pass judges the denial between its append and its mark, and a later grant cannot mint its key. The
  owed slot is then the grant's, the denial's receipt is delivered and pruned although its record never
  landed, and nothing of it is left (`KeylessGrantLosesTheDenial`). Either one alone does no harm, and
  neither does an eviction. `LastDenialCleared` says the same of one pass, exactly: a denial that is the
  trail's last word and has no record is cleared precisely when it was judged that early, or had been
  answered before, and a grant without a key fills the slot.
- A receipt is posted under its record (`PairBeforeDispatch`) unless the pass judges its first hold
  between its append and its mark (`RacedDenialLeavesItsPair`), or an eviction takes it, and its mark
  with it, while the pass is judging it (`EvictedReceiptLeavesItsPair`). For a grant the early judgement
  does harm only when a mint fails as well. `HoldsExactly` says for every hold exactly what lets an
  uncovered receipt past it; `PostedUncovered` and `ClearedExactly` say over whole runs that a receipt is
  cleared uncovered exactly when all its holds let it through, each in its own state. A later hold still
  stops many receipts that were judged early: for a denial, as long as it ends the trail and a denial
  fills the slot.
- A withheld grant stays withheld until a fresh decision stands on disk (`WithheldStaysWithheld`), also
  when decisions are attempted and every write fails, unless the same two things come together as in the
  first point (`KeylessGrantReleases`): the denial is then delivered and pruned, and the prune's save
  writes an empty, readable trail beside the old grant.
- The server processes strictly newer decisions (`LateOrder`) when no start finds a forced-minor record
  older than the trail (`OlderMinorRecordReorders`), the server takes no terminal answer back
  (`TerminalAnswerReorders`), no pass judges a denial in that window whose append has failed
  (`UnlandedDenialReorders`), not both an early judgement and a failed grant mint occur
  (`KeylessGrantReorders`), and a post the server did not process when it was sent is processed later
  only while the client still has its receipt in mirror, file or pass, or when the server knows it
  (`LatePostReorders`). A receipt that is on disk, or covered, needs no condition of its own. That no
  grant is processed after a newer denial needs no condition on starts (`NoGrantAfterNewerDenialLate`).

A hand-off of an experiment fact reads the withdrawal stamp, lets its lock go and then enqueues. A
declaration or an age refusal can come between, so a fact can enter the queue under a pending declaration
(`DeclaredInTheGap`) or already withdrawn (`RefusedInTheGap`); `EnqueuedExactly` says exactly when. Neither
is sent: the stamp is older than the withdrawal, so the next attempt drops the fact (`DroppedExactly`),
and a pending declaration holds it. An attempt looks for withdrawals before it looks for declarations,
though, and a withdrawal between the two, such as a declaration that begins and ends unanswered there, lets
the fact through (`RacedFactIsSent`); `SentFacts` says that nothing else does.

One more is about a server: a 304 to a request that carried no validator would attach the old validator
to another attribute signature (`UnaskedRevalidation`). Section 15.4.5 of RFC 9110 rules that answer
out, and with it provenance holds (`ValidatorProvenance`).

## Model

| member | source | states |
|---|---|---|
| FloorEvidence.CrashClosedDenial | consent_outbox.go:1362-1498 | from files the floor wrote, through any faults, dispatches, prunes, evictions, crashes and restarts, if every grant gets its key or no pass judges a denial between its append and its mark: once a denial has stood on disk, as record or receipt, and no newer grant's receipt has, every restart resolves to a denial |
| FloorLimits.KeylessGrantLosesTheDenial | consent.go:409-550 | a run with a denial judged between its append and its mark and a failed grant mint after it, and every other condition met: a restart resolves to granted although the denial was on disk and no newer grant receipt ever was |
| FloorHolds.HoldsExactly | consent_outbox.go:2141-2237 | for each of the four holds of a denial and the six of a grant, an iff: what must be the case for a receipt under judgement that the record does not cover to pass it, evicted or not |
| FloorHolds.PostedUncovered | consent_outbox.go:2083-2237 | in every run a receipt posted while no record covers it was judged by all its holds, each in its own earlier state, uncovered there, and let through for the reason of that hold |
| FloorHolds.ClearedExactly | consent_outbox.go:2141-2237 | in every run the last check clears an uncovered receipt exactly when all its holds, in the states they were judged in, let it through |
| FloorHolds.LastDenialCleared | consent_outbox.go:1982-1989 | over the whole pass: with the lock free, a denial that ends the trail without its record is cleared exactly when its mark hold was judged before its mark, or after an earlier answer, and the slot is a grant's whose mint has failed |
| FloorDispatch.PairBeforeDispatch | consent_outbox.go:2141-2237 | a receipt about to be posted, in flight or about to be pruned stands under a record at least as new, or a forced-minor one, in every run where no pass judges it before its mark and no eviction takes it under judgement; for grants the first condition is not needed where no mint fails, and a mode without denials asks nothing of them |
| FloorMarks.FirstHoldExactly | consent_outbox.go:955-996 | a receipt under judgement whose record has not landed passes the owed-mark hold exactly between its append and its mark, after an eviction took it, or after an earlier answer |
| FloorLimits.RacedDenialLeavesItsPair | consent_outbox.go:2141-2183 | a run in which a denial judged before its mark is cleared for posting over an older record, with every other condition met |
| FloorLimits.EvictedReceiptLeavesItsPair | consent_outbox.go:756-768 | a run in which an append over a full trail evicts the receipt a pass is judging, and its mark, and the receipt is cleared over an older record, with every other condition met |
| FloorLate.LateOrder | consent_outbox.go:2083-2307 | the server processes receipts in strictly increasing decision stamps across retries, unanswered and late posts, late mints, evictions, crashes and restarts, if no answer is terminal, no start finds a forced-minor record older than the trail, no denial is judged before its mark after a failed append, either every grant gets its key or no receipt is judged before its mark, and a late post is processed while the client still has its receipt or when the server knows it |
| FloorLate.NoGrantAfterNewerDenialLate | consent_outbox.go:2083-2307 | the server processes no grant after a denial decided later, late posts included, under the same conditions without the one on starts, and with none but those on answers and late posts once a forced-minor record is down |
| FloorLimits.OlderMinorRecordReorders | consent_outbox.go:1442-1445 | a run in which only the condition on starts fails: a start beside an older forced-minor record leads to an older stamp after a newer one |
| FloorLimits.UnlandedDenialReorders | consent_outbox.go:2141-2183 | a run with every key minted in which a denial neither recorded nor saved is judged before its mark and processed, and after a crash an older stamp follows it |
| FloorLimits.KeylessGrantReorders | consent.go:409-550 | the same with the append saved and the later grant's mint failed |
| FloorLimits.TerminalAnswerReorders | consent_outbox.go:928-950 | a run in which only the condition on answers fails: a receipt refused for good whose prune was not written is processed after a restart, behind a newer one |
| FloorLimits.LatePostReorders | consent_outbox.go:2238-2300 | a run in which only the condition on late posts fails: a recorded denial's receipt was never saved, its post goes unanswered, the process crashes, and the post is processed behind a newer denial |
| FloorClose.CleanCloseRestarts | consent_outbox.go:2659-2698 | after any run, a nil close verdict with all tickets served means a restart resolves to the live state, which is the last accepted decision, and the trail on disk is exactly the mirror |
| FloorClose.UndeliveredStays | consent_outbox.go:928-950 | in a running process a receipt leaves the mirror only after the server has processed it, or in a run whose eviction counter has grown |
| FloorClose.DecisionDescribed | consent.go:301-388 | in every run, whenever the lock is free the owed slot, or with an empty slot the record on disk, describes the last accepted decision; with all tickets served that is the live state |
| FloorDecisions.LiveIsLastDecision | consent.go:301-388 | however fast and slow halves interleave and whatever fails, the live state is the decision in effect; with all tickets served it is the last accepted one |
| FloorDecisions.MinorForever | consent_outbox.go:1442-1445 | from any files, once this actor's record is a forced-minor denial it stays one, every process is in that state and every restart resolves to it |
| FloorDecisions.MinorInMemory | consent.go:275-287 | a process in the forced-minor state stays in it until it ends, whether or not its record landed |
| FloorPeriod.WithheldStaysWithheld | consent_outbox.go:1407-1550 | a withheld grant, over files of any shape and scope: until a receipt the files did not list or a record other than a mark stands on disk, through failed marks, records and appends, posts, prunes, crashes and restarts, no start resolves to granted, a process is granted only by its own decision, and the server gets no grant; if every grant gets its key or no pass judges a denial between its append and its mark |
| FloorPeriod.KeylessGrantReleases | consent_outbox.go:676-842 | a run with both faults: no fresh decision ever stands on disk, the denial is delivered and pruned, and the next start resolves to granted |
| FloorWithheld.RefusedExactly | consent_outbox.go:1407-1441 | a recorded grant beside an unreadable trail is withheld exactly when no newer denial at the trail's end overrides it |
| FloorWithheld.MarkSeals | consent_record.go:466-510 | the mark a start writes leaves the grant on record sealed against every receipt the trail holds |
| FloorWithheld.WritersFormMarks | consent_record.go:466-523 | whatever a decision or a start leaves on record, a grant's mark is never newer than the stamp beside it |
| FloorWithheld.SaveKeepsWithin | consent_outbox.go:689-725 | a save without a fresh decision lists only what mirror or file held, and leaves an unreadable file it must preserve untouched |
| FloorPlain.PlainRefined | consent_outbox.go:676-842 | on every run in which no prune makes the settled memory forget a key the file still lists, the reloading and merging outbox gives the same files, evictions, slots, passes and server log as a plain capped list |
| FloorShape.ShapeStep | consent_outbox.go:676-856 | every step, whatever fails, is evicted or forgotten, keeps mirror and file linked, stamps below the last one given, minted keys new, and the pass on a receipt of the mirror or on one an eviction has taken from under newer ones |
| FloorShape.BootPlain | consent_outbox.go:1314-1642 | over files the floor wrote, a start overrides the record exactly with a newer trail end and resolves to whichever of the two is newer |
| FloorPairing.PairingStep | consent.go:440-549 | every step, whatever fails, is evicted or forgotten, keeps owed slot, owed mint, record and trail in agreement at every point of every slow half |
| FloorPairing.NotServed | consent_outbox.go:2485-2494 | when the pair hold lets a grant pass, no lock holder works on it and it does not fill the slot |
| ConsentOutboxLaws.MergedExactly | consent_outbox.go:726-755 | the merged view is exactly the unsettled receipts on disk and the receipts this process owns, without repeats |
| ConsentOutboxLaws.SaveStores | consent_outbox.go:756-842 | a stored save leaves file and mirror equal, within cap and read limit, free of repeats and settled keys; what is missing is the counted oldest-first overflow, and own and settled keys stay disjoint |
| ConsentOutboxLaws.NeverSheds | consent_outbox.go:778-830 | without settled keys among the entries the size rule sheds nothing: it writes everything or refuses |
| ConsentOutboxLaws.SaveRefusesWhole | consent_outbox.go:676-842 | a failed, refused or held save evicts nothing, settles nothing and leaves the file alone |
| ConsentOutboxLaws.SaveReadsBack | consent_outbox.go:676-842 | saved over ordered parts, with this process's receipts newer than the disk's, the file is classified as parsed and is the same list |
| ConsentOutboxLaws.SaveSucceedsExactly | consent_outbox.go:676-842 | a save is held exactly without a fresh decision over evidence it preserves, refused exactly when what is left under the cap is too large, and stored exactly when neither holds and the write lands; anything but a stored save leaves the write owed |
| ConsentOutboxLaws.AppendJoins | consent_outbox.go:847-856 | an append that is stored makes file and mirror the same list with a new receipt at its end; one that is not keeps the file and parks the receipt in the mirror; room and the write decide which |
| ConsentOutboxLaws.PruneRemoves | consent_outbox.go:928-950 | from a mirror without repeats a pruned receipt is out and its key settled, whether or not the rewrite lands, and nothing settled before comes back with it while the memory of settled keys is not full |
| ConsentReceipts.ReadTrail | consent_outbox.go:498-598 | the one-pass reader's verdict is parsed exactly when every entry sanitizes, keys are new and each scope's stamps increase; the survivors are returned either way |
| ConsentReceipts.WrittenTrailReadsBack | consent_outbox.go:498-598 | a written ordered list of sound receipts reads back entry for entry |
| ConsentReceipts.SanitizeStored | consent_outbox.go:191-255 | sanitizing undoes storing on exactly the sound receipts |
| ConsentReceipts.SanitizedIsSound | consent_outbox.go:191-255 | whatever survives the sanitizer is a sound receipt |
| ConsentOutbox.ConsentOutbox.constructor | consent_outbox.go:363-372 | a new outbox is empty over the file it was given |
| ConsentOutbox.ConsentOutbox.RecordSettled | consent_outbox.go:384-397 | the settled memory as a set and a queue is the bounded first-in first-out memory |
| ConsentOutbox.ConsentOutbox.LoadTrail | consent_outbox.go:607-636 | loading adopts the file's list and owns exactly the keys of its own scope |
| ConsentOutbox.ConsentOutbox.SaveLocked | consent_outbox.go:676-842 | reload, merge, cap, size rule, write and adoption in place are the merging save |
| ConsentOutbox.ConsentOutbox.MergeLoop | consent_outbox.go:726-755 | the two loops over the disk view and the mirror give the merged view |
| ConsentOutbox.ConsentOutbox.Fit | consent_outbox.go:756-830 | the eviction loops cut exactly the overflow and what the size rule sheds |
| ConsentOutbox.ConsentOutbox.AppendReceipt | consent_outbox.go:847-856 | an append makes the key its own before the decisive save, and reports only a durable failure |
| ConsentOutbox.ConsentOutbox.PruneReceipt | consent_outbox.go:928-950 | a prune settles the key before the save, so that the merge cannot bring the receipt back |
| ConsentOutbox.ConsentOutbox.NextDispatchable | consent_outbox.go:1012-1037 | the first receipt of the scope that is not a grant held as unprovable; none only if there is no such receipt |
| ConsentOutbox.ConsentOutbox.MaxDecidedAt | consent_outbox.go:884-899 | the newest stamp of the whole mirror: one that occurs, above which none does |
| ConsentOutbox.ConsentOutbox.LatestMatching | consent_outbox.go:907-916 | the last receipt of the scope by position; none only if there is none |
| ConsentOutbox.ConsentOutbox.MarkRecordOwed | consent_outbox.go:955-962 | one more owed mark, none for an empty key, all else unchanged |
| ConsentOutbox.ConsentOutbox.MarkRecordOwedWhere | consent_outbox.go:967-975 | marks exactly the matching receipts |
| ConsentOutbox.ConsentOutbox.ClearRecordOwedMarks | consent_outbox.go:981-985 | no mark is left, all else unchanged |
| ConsentOutbox.ConsentOutbox.SetGrantsUnprovable | consent_outbox.go:662-666 | the hold on grants is set, all else unchanged |
| ConsentOutbox.ConsentOutbox.PreserveEvidence | consent_outbox.go:670-674 | the unreadable file is preserved from now on, all else unchanged |
| ConsentOutbox.ConsentOutbox.RetrySave | consent_outbox.go:1062-1069 | an owed write is retried without counting as a fresh decision |
| DecisionRecord.SaveThenLoad | consent_record.go:512-523 | a saved decision loads back as itself for its actor, through the plain loader too, and as foreign for every other |
| DecisionRecord.MarkThenLoad | consent_record.go:466-510 | marking keeps decision and provenance, sets the mark with its stamp and moves no stamp backward; the plain loader then gives a denial and no grant |
| DecisionRecord.DamageNeverLaundersTheMark | consent_record.go:273-403 | while a trace of the mark is left, no other damage to the record lets a grant through |
| DecisionRecord.OlderBuildStaysClosed | consent_record.go:466-510 | a build that ignores the mark reads a withheld grant as a denial no covered receipt supersedes |
| DecisionRecord.LoadPlain | consent_record.go:209-227 | the plain loader returns a grant only from an unmarked, fully read record |
| FloorClient.Client.constructor | consent_outbox.go:1314-1642 | a start in place gives exactly the machine's start, for any two files and outcomes of its two writes |
| FloorClient.StartExactly | consent_outbox.go:1314-1642 | for all files: a scope's newest receipt that overrides the record is written into it, or owed and marked; a start that must withhold grants goes live with none, dispatches none and leaves the decision it keeps marked in the file, or its evidence preserved; any other start writes nothing more and goes live as receipt or record says |
| FloorClient.Client.SeedStamp | consent_outbox.go:2456-2474 | the stamp clock starts at the newest stamp of record and trail |
| FloorClient.Client.Admit | consent.go:275-329 | only a forced-minor state turns a decision away, and only one that is not forced-minor again; an admitted decision gets the last ticket, a denial is live at once under a new epoch, and nothing else changes |
| FloorClient.Client.TakeTurn | consent.go:345-388 | the oldest ticket takes its turn: a stamp newer than the last one, and the clock's reading unless that is behind; a grant goes live only if no denial overtook it |
| FloorClient.Client.MintReceipt | consent_outbox.go:2397-2450 | a minted receipt clears the owed mint, a failed mint replaces it |
| FloorClient.Client.ServeGrant | consent.go:440-509 | the grant's slow half, outcome by outcome: nothing but the turn after a failed purge; live only if no denial overtook it; without a key both mint and record are owed; with one the receipt joins the trail or stays in the mirror with the write owed; the record is written exactly over a stored receipt, empties slot and marks, and otherwise the old one stays, the slot holds the grant and its receipt is marked |
| FloorClient.Client.ServeDenial | consent.go:510-549 | the denial's slow half, outcome by outcome: the record is written or the slot holds the denial; without a key the mint is owed and the trail unchanged; with one the receipt joins the trail or stays in the mirror with the write owed, marked exactly while its record is owed |
| FloorClient.Client.SetRecordOwed | consent_outbox.go:1745-1764 | a landed record empties slot and marks, a failed one fills the slot and keeps the marks |
| FloorClient.Client.RetryOwedMint | consent_outbox.go:1888-1918 | with the lock free, a mint owed and a key minted, the owed decision's receipt joins the trail, no mint is owed and a receipt of the owed record is marked; otherwise nothing changes |
| FloorClient.Client.RetryOwedRecord | consent_outbox.go:1784-1829 | an owed record is written exactly when the lock is free and, for a grant, its receipt is minted and the trail's write not owed; landed it leaves neither slot nor mark, failed it leaves both, and otherwise nothing changes |
| FloorClient.Client.RetryOwedWrite | consent_outbox.go:1062-1069 | an owed trail write is retried: with no evidence to keep it lands exactly with room and a successful write, then file and mirror agree; still owed, it has changed nothing |
| FloorClient.Client.NewerHeld | consent_outbox.go:1934-1949 | whether a held denial of the scope stands behind the grant in the trail |
| FloorClient.Client.NewerInTrail | consent_outbox.go:1957-1970 | whether any denial of the scope stands behind the grant |
| FloorClient.Client.ProofHeld | consent_outbox.go:1982-1989 | whether the receipt is the only proof of an owed denial |
| FloorClient.Client.GrantPairIncomplete | consent_outbox.go:2485-2494 | whether a grant is arming, owed, or the trail's write is owed |
| FloorClient.Client.Judge | consent_outbox.go:2141-2237 | the holds in their order: the receipt is cleared exactly when none of them applies, and rests otherwise |
| FloorClient.Client.Deliver | consent_outbox.go:2238-2300 | the server gets a processed receipt it does not know, once; an acknowledgement or a terminal status settles the receipt, which leaves the mirror whether or not the rewrite lands; any other outcome changes nothing in the outbox |
| FloorClient.Client.DispatchPass | consent_outbox.go:2083-2307 | a whole pass is a run of the machine; it starts exactly with a next receipt none of whose holds applies, and stops exactly when the exchanges are used up, the last one brought no final answer, or no such receipt is left; the server knows every receipt its exchange processed and nothing else is new to it, the keys handed over are those of the posts answered at all, an acknowledged or refused receipt is out of a mirror without repeats (an earlier one for as long as the memory of settled keys is not full), an unanswered one still in it |
| EventPipeline.PartitionAndConservation | client.go:1490-1573 | at every step the batch carries exactly the settled epoch, every admitted event is in exactly one place, and the dropped counter counts each discarded event once, although drains and worker race on one queue |
| EventPipeline.DiscardedForCause | client.go:1490-1573 | in every run an event among the discarded was taken by a denial's drain or with the whole batch, or a denial, or a refusal of its experiment and subject, came after its intake |
| EventPipeline.LowWaterMark | client.go:1581-1592 | the published mark never decreases, and no fact below it is in queue, batch or waiting aside |
| EventPipeline.SkippingIsFiltering | experiment_facts.go:1484-1510 | not filtering while the refusal generation stands still gives the batch that filtering would give |
| EventPipeline.KeysSettledStep | experiment_facts.go:1364-1398 | in every interleaving a batch member is withdrawn only by a refusal the worker has not looked at yet |
| EventWorker.Pipeline.Enqueue | queue.go:22-29 | the event is accepted exactly when the queue has room, and is then its last with the epoch and generation of that moment; a refused fact still uses up its sequence number |
| EventWorker.Pipeline.DropBatchOnConsentEpoch | client.go:1509-1526 | the batch is emptied exactly when the epoch has moved, keeps exactly the members no refusal has met when only the generation has, and stays as it is otherwise; what goes is counted and listed once |
| EventWorker.Pipeline.AdmitReceived | client.go:1542-1573 | the held batch settles first; then the event is its last exactly when its intake stamp is not older than the epoch of that moment and nothing refused it after it was built, and is discarded and counted otherwise; nothing is lost or counted twice |
| EventWorker.Pipeline.DrainQueueAdmitted | client.go:1603-1617 | the loop ends with a full batch or an empty queue; every event it took that belongs to the epoch and is not refused is in the batch, and every other one is counted |
| EventWorker.Pipeline.DrainAll | queue.go:35-53 | a drain takes the whole queue, discards and counts exactly that, once, and raises the mark to its highest fact |
| EventWorker.Pipeline.DropKeyWithdrawn | experiment_facts.go:1484-1510 | exactly the members withdrawn since they were built go, the survivors keep their order, the others are counted and listed once |
| EventWorker.Pipeline.SeparateAgeHeld | experiment_age_delivery.go:79-98 | exactly the facts of an undecided age are set aside, in order, and the others keep theirs |
| EventWorker.Pipeline.RejoinAgeHeld | experiment_age_delivery.go:100-109 | each fact set aside joins the batch exactly when it belongs to the epoch of that moment and is not refused; the others are counted and none stays behind |
| EventWorker.Pipeline.PublishExpPipelineLow | client.go:1581-1592 | the mark is the least fact still in the batch, or one above the last taken off the queue |
| PublishGate.NoPublishPastADenial | client.go:2010-2049 | a publish neither refused nor cancelled loaded its gate after every completed denial and was checked under a later grant |
| PublishGate.DeliveredExactly | client.go:2010-2049 | whatever runs between its sections, a publish is delivered exactly when consent stood at its re-check and no denial that swapped the gate it loaded has completed by its end |
| DeliveryClock.HandoffsWithinWindow | analytics_retry.go:118-192 | any two handoffs of one event that may have been committed carry recorded clocks less than fifteen minutes apart, under any clock, failed fences, failed rollbacks and crashes |
| DeliveryClock.ClockHasReason | analytics_retry.go:145-192 | in every run, between attempts, a clock runs only if a handoff of its event may have been committed or a restart found that clock in the file; an event nothing may have delivered does not expire before the retry cap |
| DeliveryClock.RollbackSparesEarlier | analytics_retry.go:155-191 | a rollback never erases the clock of an earlier attempt |
| DeliveryClock.TakenBack | analytics_retry.go:159-183 | taking back what an attempt started restores every clock |
| DeliveryClock.KeptStep | transport.go:412-437 | every step of an attempt, of the spool and of a crash keeps recorded clocks, spool and handoffs in agreement |
| DeliveryClock.Deliveries.PersistDelivery | analytics_retry.go:65-109 | an attempt may go on without a spool, or with no denial pending when the file can be read and written; a refused one leaves the file alone, and after one that goes on with a spooled member, disk and memory agree on every member in the file |
| DeliveryClock.Deliveries.Begin | analytics_retry.go:145-183 | where the fence can land, an attempt begins exactly when no member has expired; it sets the clocks that were not running, on its own members and nowhere else, and names exactly those as started; refused, it leaves every clock and the file as they were |
| DeliveryClock.Deliveries.Finish | analytics_retry.go:184-191 | after a definite non-delivery every started clock that is still this attempt's is back to none and no other clock changes, after any other end none does; the disk is told where it can be |
| BatchBuild.BuildBatchIsolating | envelope.go:256-300 | the compaction in the batch's own array returns kept members, request and poisoned ids as the specification has them, and moves nothing while nothing is poisoned |
| BatchBuild.BuildAligns | envelope.go:256-300 | batch, ids and bytes are aligned by position; the reused prefix keeps its retained bytes, the rest is kept exactly where it encodes, everything else is poisoned |
| BatchBuild.OrderKept | envelope.go:256-300 | every member of the rest stands in the batch, or its id in the poisoned list, at the place that counts the members before it that went the same way |
| BatchBuild.FirstBytesForever | experiment_facts.go:1515-1531 | over any sequence of failed and finished builds, joins, withdrawals, holds and rejoins, a member once encoded keeps its first bytes |
| BatchBuild.WithoutEnvelopeIds | experiment_facts.go:1515-1531 | the filter drops envelope and bytes of the removed ids together |
| RemoteConfig.OnlyInstallReopens | remote_config.go:728-812 | only an installing outcome of the current scope reopens a closed one |
| RemoteConfig.ApplyExactly | remote_config.go:367-451 | which answer becomes what: a fresh body serves its own content and is the next record, a confirmed cache its own under the old validator, a transient answer decides nothing and falls back on a cache that parses, every other answer decides against any values |
| RemoteConfig.SettleShows | remote_config.go:843-873 | after an outcome that installs or is adopted every key looks up to its value in that content and to none otherwise; after one that decides against values none does; every other outcome leaves the getters of an open scope alone |
| RemoteConfig.RemoteConfigState.LoadCacheLocked | remote_config.go:515-528 | nothing for a withdrawn scope; of held and usable durable record of the scope the newer one, the held one on a tie |
| RemoteConfig.RemoteConfigState.RaiseStampAboveSuperseded | remote_config.go:696-710 | the record is stamped above every record it supersedes, and nothing else of it changes |
| RemoteConfig.RemoteConfigState.InstallLocked | remote_config.go:728-812 | an installing outcome publishes its content, holds its record, reopens its scope and, written, is the durable record; an adopted one publishes its content and holds the record it was served from; every other outcome leaves records and content alone, but one that decides against values takes the content away |
| RemoteConfig.RemoteConfigState.ClearPublicationLocked | remote_config.go:568-584 | the scope loads nothing any more, what it was compared with is remembered, and the durable copy goes exactly when it is no fresher and the tombstone lands, a failure reported |
| RemoteConfig.RemoteConfigState.SettleLocked | remote_config.go:843-873 | settling does to the getters what SettleShows says, and the caller gets the outcome, or a failure while the scope is closed |
| RemoteConfigFence.ValidatorProvenance | remote_config.go:1010-1107 | a validator is only sent with a request of the scope and attribute signature whose 200 issued it, across concurrent fetches, consent flips, attribute changes, failed writes, siblings and restarts |
| RemoteConfigFence.NextFetchRevalidates | remote_config.go:947-1107 | after an install the next fetch of the same attribute signature carries the validator just issued, and one of another signature carries none |
| RemoteConfigFence.UnaskedRevalidation | remote_config.go:1092-1107 | a 304 nobody asked for would break that provenance, in a concrete state |
| RemoteConfigFence.OutcomesInOrder | remote_config.go:843-873 | authoritative outcomes of a scope land in the order the fetches were numbered |
| RemoteConfigFence.ClosedUntilReopened | remote_config.go:728-812 | until a restart a closed scope serves only defaults unless a fetch newer than all settled at its closing installed in it |
| RemoteConfigFence.GettersShowLastPublished | remote_config.go:1163-1175 | in every run, while the current scope is open, every key looks up to its value in the content last installed, adopted or reloaded, unless a decision against values came after; while it is closed none does |
| RemoteConfigScope.EscapeSegment | remote_config.go:238-251 | the byte loop computes the escape |
| RemoteConfigScope.EscapeInjective | remote_config.go:238-251 | distinct byte strings have distinct escapes |
| RemoteConfigScope.ScopeInjective | remote_config.go:300-305 | distinct workspaces, environments, clients or endpoints never share a scope |
| RemoteConfigScope.IdentityScopeDiffers | remote_config.go:300-305 | a scope with a client is never the identifier-free scope |
| SubjectHandoff.PendingExactly | experiment_subject.go:585-624 | in every run, a non-adult declaration of the key is pending exactly when one was begun and no adult declaration, platform withdrawal or end of its own fetch came after |
| SubjectHandoff.PendingPeriod | experiment_subject.go:630-646 | as long as one stays pending, whatever else happens, no age-gated record of the experiment is added, no outcome gets an age-gated application to follow, no fact of it sets out and none is sent, wherever it was |
| SubjectHandle.PendingAnswersNothingGated | experiment_subject.go:520-534 | then no fetch hands its caller an age-gated assignment, fenced out, fallen back on or fresh, but the declaring one its own applied answer |
| SubjectHandoff.PendingPeriodServes | experiment_subject.go:630-646 | at every point of such a period nothing age-gated is served, and every answer that arrives in it hands out an age-gated assignment only as the declaring fetch's own applied answer |
| SubjectHandoff.EnqueuedExactly | experiment_subject.go:942-972 | whatever comes between the head check and the queue: the fact enters under a pending declaration exactly when one was begun in between and stands, already withdrawn exactly when its experiment was withdrawn in between, and never after a denial of its player |
| SubjectHandoff.DroppedExactly | experiment_subject.go:1171-1186 | the next check of the built batch drops a queued fact exactly when it was withdrawn since its head check |
| SubjectHandoff.SentFacts | experiment_age_delivery.go:46-76 | every fact sent was checked under a grant with no declaration pending, passed a later batch check with no withdrawal in between, and was released later with no declaration pending; it is withdrawn at the send exactly when that came between the last two |
| SubjectLedger.SentRecorded | experiment_subject.go:942-990 | a fact sent has its record made by an application or outcome of the run, and from there to the withdrawal check of the attempt that sent it its player did not deny |
| SubjectLedger.ReleasedExactly | experiment_age_delivery.go:46-76 | a vetted fact is sent exactly when no declaration of its experiment is pending, and waits in the queue otherwise |
| SubjectLedger.HeldExactly | experiment_subject.go:426-484 | in every run an assignment is cached exactly when some unfenced answer installed it and nothing withdrew or replaced it since, and a record is owed exactly when some application or outcome made it and it was neither withdrawn nor handed off nor crowded out by its experiment's eight newer ones since |
| SubjectLedger.NothingSurvivesDenial | experiment_subject.go:221-238 | right after a denial nothing is held, and whatever is served or owed later was installed or recorded after it |
| SubjectLedger.AppliedOnce | experiment_subject.go:683-709 | between two first applications of the same assignment its marks were withdrawn |
| SubjectLedger.AnswerReachesCaller | experiment_subject.go:453-556 | an unfenced assignment is installed and returned to its caller, exactly unless it is age-gated while another fetch's declaration of the experiment is pending |
| SubjectHandoff.DeclaredInTheGap | experiment_subject.go:942-972 | a run in which a fact is queued while a declaration is pending |
| SubjectHandoff.RefusedInTheGap | experiment_subject.go:942-972 | a run in which a fact is queued already withdrawn, and the next check drops it |
| SubjectHandoff.RacedFactIsSent | experiment_age_delivery.go:46-76 | a run in which a declaration begins and ends unanswered between the two checks of an attempt, and the withdrawn fact is sent |
| SubjectHandle.UnansweredDeclaration | experiment_subject.go:608-624 | a declaration whose fetch ends unanswered leaves nothing age-gated cached, and only a fetch dispatched later can install one again, in any order of responses |
| SubjectPlane.WipedDeclaration | experiment_subject.go:262-276 | the platform's withdrawal with a declaration pending: once the handle notices nothing stays cached or recorded and the declaration's end changes nothing more, and whatever happens later, no fetch that had read its credentials' epoch before the withdrawal is the source of anything cached then, also one the withdrawal caught in its dispatch |
| SubjectHandle.WithheldExactlyAfterWithdrawal | experiment_subject.go:1129-1140 | the send point withholds a fact exactly when the player denied or the experiment was withdrawn for age after the fact's stamp was read |
| SubjectRecords.AppendOwedKeeps | experiment_subject.go:782-799 | the bound holds per experiment, the new record is last, and no other experiment's record goes |
| SubjectRecords.ExperimentSubject.AppendOwedLocked | experiment_subject.go:782-799 | the record is the last one; at the experiment's bound its oldest goes, below it none does |
| SubjectRecords.ExperimentSubject.WithdrawAgeLocked | experiment_subject.go:305-330 | the experiment's records, marks and last application go, its assignment when asked, under a new stamp; the other experiments' stay in order and the dropped records are returned |
| SubjectRecords.ExperimentSubject.WithdrawAllLocked | experiment_subject.go:281-288 | no record, assignment, mark or application is left |
| SubjectRecords.ExperimentSubject.BeginDeclarationLocked | experiment_subject.go:585-598 | a non-adult declaration becomes pending with its fence, an adult one settles below its fetch |
| SubjectRecords.ExperimentSubject.EndDeclarationOf | experiment_subject.go:608-624 | only the fetch's own declaration ends; an undecided one withdraws the experiment's records, marks and application, its assignment unless that needs no age, and settles up to its fence |
| SubjectRecords.ExperimentSubject.SetConsent | experiment_subject.go:221-238 | anything but a grant leaves no record, assignment, mark or application, and a stamp that withdraws every fact handed off before; a grant changes nothing but the consent |
| SubjectRecords.ExperimentSubject.CheckOldest | experiment_subject.go:942-958 | the head check passes exactly under a grant with an owed head no declaration holds, and the stamp it reads makes the fact not withdrawn at that moment |
| SubjectRecords.ExperimentSubject.Hand | experiment_subject.go:959-968 | the queue gets exactly the checked fact, or nothing; only a refusing queue leaves the record to be handed off again |
| SubjectRecords.ExperimentSubject.RemoveHanded | experiment_subject.go:969-990 | the hand-off ends, and the record goes exactly if it is still the head |
| ConsentLocale.UniqueSubtags | consent_notice.go:55-81 | the loop with its map, array and flag decides what the recursive scan decides |
| ConsentLocale.ScanMeetsGrammar | consent_notice.go:55-81 | on every tag of the grammar of RFC 5646, in any case, the scan accepts exactly when the parse repeats no variant (section 2.2.5) and no extension singleton (section 2.2.6), private use aside |
| ConsentLocale.LocaleRule | consent_notice.go:24-49 | a locale is valid exactly when it is short enough ASCII with a parse that repeats nothing, and then no parse of it repeats anything |

## Left out

- FloorEvidence.CrashClosedDenial: does not model runs in which a failed grant mint and an early judgement of a denial come together, because the property fails there; KeylessGrantLosesTheDenial is such a run.
- FloorDispatch.PairBeforeDispatch: does not model runs with an uncovered receipt judged before its mark or evicted under judgement, because the property fails there; PostedUncovered covers them exactly.
- FloorLate.LateOrder: does not model runs outside its five conditions, because the order fails there; floor_limits has a run for each.
- FloorPeriod.WithheldStaysWithheld: does not model runs in which a failed grant mint and an early judgement of a denial come together, because the property fails there; KeylessGrantReleases is such a run.
- FloorClose.UndeliveredStays: does not say which receipt an eviction takes; the laws of the save do.
- FloorPlain.PlainRefined: does not model a settled memory that forgets a key the file still lists; all other run properties do.
- FloorClient.Client.GrantPairIncomplete: does not model other goroutines between its three reads, because a hold is one step of the machine.
- FloorHolds.HoldsExactly: does not model other goroutines between the reads of one hold: the denial, proof and pair holds and the re-check are one step each.
- RemoteConfigFence.ValidatorProvenance: stated for servers that answer 304 only to a conditional request.
- One scope per directory in the floor's runs, and one process at a time; the save's laws and the withheld grant hold with siblings' receipts in the file.
- Notices in the floor's runs: receipts carry none there; the reader and the sanitizer treat them in full.
- Files the floor did not write, in the runs of `Shape`: unreadable, foreign and marked files are the subject of FloorPeriod, FloorWithheld and DecisionRecord.
- A write that lands although it reports failure (directory sync after the rename): every write lands or fails as reported.
- Decisions of an actor whose identity is invalid (neither minted nor owed), and the wipe of local data around a grant beyond its success or failure.
- Mirror receipts are sanitized again before each write in the code; here they are sound when they enter the mirror.
- The attempt's context deadline and its refusal for an undecided age: they only end attempts earlier.
- The arming counter of a grant is read off the admitted tickets.
- Deferral, back-off, wake timers, dispatch claims and deadlines: a pass may start and end at any time instead.
- The server: it processes a key once, at the post or, in FloorLate, at any later time; an acknowledgement means it did, a terminal status that it did not.
- A second HTTP attempt of the same request, and facts of a handle in the spool: a fact past the age check is sent once.
- HTTP, gzip, JSON and the regular-expression engine: a decoded value, an outcome, or the grammar the expression spells out.
- `spool.go` is not part of this model: a keyed store whose rewrite succeeds or fails and which removes an entry only with its event; attempts at one event are sequential.
- `experiments.go` is not part of this model: an assignment is age-gated or not, and the owed bound is a constant.
- Remote-config retry windows beyond parking a scope, and writes of a sibling process between the steps of one install.
- The other experiment filters of sentinel withdrawal and subject denial: they repeat the key filter with another predicate.
- Statistics, rejection ring, logging, callbacks, panic recovery, typed config getters, anonymous id, JWT, purchases and economy: easy members.
