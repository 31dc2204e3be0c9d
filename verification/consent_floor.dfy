/**
 The opt-in consent floor as a step machine.

 One step is one section of code between two lock boundaries or one write to disk:
 the fast half of a decision, each part of its slow half, the retries of owed work,
 the parts of a dispatch pass, a start of the process and a crash. Any step may be
 taken at any time; one that does not apply leaves the state as it is. The
 environment chooses clocks, minted keys, and which writes and posts succeed.
 */
module ConsentFloor {
  import opened Basics
  import opened DecisionRecord
  import opened ConsentReceipts
  import opened ConsentOutbox

  /** The client's own identity and the digest its decision record carries. */
  datatype Config = Config(me: Identity, digest: string)

  datatype Disk = Disk(trail: TrailFile, record: RecordFile)

  /** An owed record write or an owed receipt mint. */
  datatype Owed = Owed(decision: Decision, at: int)

  /** An admitted decision waiting for, or holding, its turn; `epoch` is the denial epoch it was admitted under. */
  datatype Ticket = Ticket(decision: Decision, epoch: nat)

  /** Who holds the record-apply lock, and how far they have come. */
  datatype Slow =
    | Idle
    | GrantStamped(at: int)
    | GrantUnminted(at: int)
    | GrantMinted(r: Receipt)
    | GrantAppended(r: Receipt, stored: bool)
    | GrantRecorded(r: Receipt, written: bool)
    | GrantSettled(r: Receipt)
    | DenyStamped(d: Decision, at: int)
    | DenyRecorded(d: Decision, at: int, written: bool)
    | DenySettled(d: Decision, at: int, written: bool)
    | DenyMinted(r: Receipt, written: bool)
    | DenyAppended(r: Receipt, written: bool)
    | Served
    | RetryMinted(r: Receipt)
    | RetryAppended(r: Receipt)
    | RetryRecorded(o: Owed, written: bool)

  /** The serial dispatch pass: how many of its holds `r` has passed, then the post and its settlement. */
  datatype Pass =
    | Resting
    | Checking(r: Receipt, passed: nat)
    | Cleared(r: Receipt)
    | InFlight(r: Receipt, processed: bool)
    | Settling(r: Receipt)

  datatype Proc = Proc(
    live: Live,
    epoch: nat,
    box: Outbox,
    lastStamp: Option<int>,
    recordOwed: Option<Owed>,
    mintOwed: Option<Owed>,
    tickets: seq<Ticket>,
    slow: Slow,
    pass: Pass,
    // observers: the state this process started in, the decisions it accepted in ticket order, the keys it has pruned
    started: Live,
    accepted: seq<Decision>,
    answered: set<string>)

  datatype State = State(
    cfg: Config,
    disk: Disk,
    proc: Option<Proc>,
    // the receipts the server processed, first time each
    server: seq<Receipt>,
    // observers: keys minted so far; stamps of denials and of grant receipts that ever stood on disk
    used: set<string>,
    denials: set<int>,
    grants: set<int>)

  datatype Outcome = Ack | Terminal | Retryable | NoAnswer

  datatype Step =
    | Start(healOk: bool, markOk: bool)
    | Crash
    | Decide(decision: Decision)
    | Begin(clock: int, purgeOk: bool)
    | Mint(key: Option<string>, bytes: nat)
    | AppendReceipt(ok: bool)
    | WriteRecord(ok: bool)
    | SettleSlot
    | MarkOwed
    | Finish
    | TakeOwedMint(key: Option<string>, bytes: nat)
    | TakeOwedRecord(ok: bool)
    | PersistAgain(ok: bool)
    | Pick
    | Check
    | Send(processed: bool)
    | Answer(outcome: Outcome)
    | PruneReceipt(ok: bool)

  // ---------------------------------------------------------------- starting

  function DecisionOf(r: Receipt): Decision {
    if r.granted then Grant else if r.forcedMinor then ForcedMinor else Deny
  }

  /** tailBlockedByUnusableTrail: when the newest receipt may not override the record. */
  predicate TailBlocked(read: ReadClass, l: Loaded, tail: Receipt) {
    tail.granted &&
    (read == ReadUnusable || l.read == RecUnusable || l.read == RecForeign || !MarkSupersededBy(l.info, Some(tail.at)))
  }

  /** What a start concludes from the two files, before it writes anything. */
  datatype Conclusion = Conclusion(
    info: RecordInfo, known: bool, overridden: bool, grantsUnprovable: bool, markAt: Option<int>)

  function Conclude(cfg: Config, disk: Disk): Conclusion {
    var rs := Listed(disk.trail);
    var read := ClassOf(disk.trail);
    var l := Load(disk.record, cfg.digest);
    var tail := Latest(rs, cfg.me);
    var overridden :=
      && tail.Some?
      && l.info.state != DeniedForcedMinor
      && !TailBlocked(read, l, tail.value)
      && (!l.ok || Supersedes(Some(tail.value.at), l.info.decidedAt));
    var info := if overridden
                then RecordInfo(LiveOf(DecisionOf(tail.value)), Some(tail.value.at), true, false, None)
                else l.info;
    var recordRead := if overridden then RecParsed else l.read;
    var unprovable := read == ReadUnusable || recordRead == RecUnusable || recordRead == RecForeign || info.unwitnessed;
    var markAt := if MaxAt(rs).Some? then MaxAt(rs) else info.decidedAt;
    Conclusion(info, l.ok || overridden, overridden, unprovable, markAt)
  }

  /** The live state a start from these files resolves to. */
  function Resolve(cfg: Config, disk: Disk): Live {
    var c := Conclude(cfg, disk);
    if !c.known || (c.info.state == Granted && (c.grantsUnprovable || !c.info.floor)) then Unknown
    else c.info.state
  }

  /** The receipts of the scope that the record as loaded does not cover. */
  function UncoveredKeys(rs: seq<Receipt>, me: Identity, l: Loaded): set<string> {
    set i | 0 <= i < |rs| && InScope(rs[i], me) && (!l.ok || Supersedes(Some(rs[i].at), l.info.decidedAt)) :: rs[i].key
  }

  /** initConsentFloor, with the outcomes of its two writes. */
  function Boot(cfg: Config, disk: Disk, healOk: bool, markOk: bool): (Disk, Proc) {
    var rs := Listed(disk.trail);
    var l := Load(disk.record, cfg.digest);
    var c := Conclude(cfg, disk);
    var box := LoadBox(disk.trail, cfg.me);
    var seeded := MaxStamp(l.info.decidedAt, MaxAt(rs));
    var tail := Latest(rs, cfg.me);
    var healed := if c.overridden && healOk
                  then SaveRecord(DecisionOf(tail.value), cfg.digest, Some(tail.value.at), true)
                  else disk.record;
    var owedRecord := if c.overridden && !healOk then Some(Owed(DecisionOf(tail.value), tail.value.at)) else None;
    var owedKeys := if owedRecord.None? then {} else UncoveredKeys(rs, cfg.me, l);
    var marks := c.grantsUnprovable && c.known && c.info.state != Unknown && MarkSupersededBy(c.info, c.markAt);
    var markFile := MarkRecord(c.info, cfg.digest, c.markAt);
    var record := if marks && markOk && markFile.Some? then markFile.value else healed;
    var preserve := c.grantsUnprovable && ((marks && !markOk) || !c.known);
    var live := Resolve(cfg, disk);
    (Disk(disk.trail, record),
     Proc(live, 0, box.(owed := owedKeys, grantsUnprovable := c.grantsUnprovable, preserveUnusable := preserve),
          seeded, owedRecord, None, [], Idle, Resting, live, [], {}))
  }

  // ---------------------------------------------------------------- pieces of the decision path

  /** consentDecisionStamp: strictly monotonic, whatever the clock does. */
  function StampAfter(last: Option<int>, clock: int): int {
    if last.Some? && clock <= last.value then last.value + 1 else clock
  }

  function MintReceipt(cfg: Config, key: string, d: Decision, at: int, bytes: nat): Receipt {
    Receipt(key, cfg.me.scope, cfg.me.anonymousID, d == Grant, d == ForcedMinor, at, NoNotice, bytes)
  }

  /** setConsentRecordOwed: a landed record settles every pair. */
  function SetSlot(p: Proc, o: Owed, persisted: bool): Proc {
    if persisted then p.(recordOwed := None, box := p.box.(owed := {}))
    else p.(recordOwed := Some(o))
  }

  function MarkKey(p: Proc, key: string): Proc {
    if key == "" then p else p.(box := p.box.(owed := p.box.owed + {key}))
  }

  /** consentGrantArming: grants admitted and not yet finished. */
  predicate Arming(p: Proc) {
    exists i :: 0 <= i < |p.tickets| && p.tickets[i].decision == Grant
  }

  predicate IsDenial(o: Option<Owed>) {
    o.Some? && o.value.decision != Grant
  }

  predicate IsGrant(o: Option<Owed>) {
    o.Some? && o.value.decision == Grant
  }

  // ---------------------------------------------------------------- the holds of a dispatch pass

  predicate DenyProofHeld(p: Proc, me: Identity, r: Receipt) {
    IsDenial(p.recordOwed) &&
    var proof := Latest(p.box.receipts, me);
    proof.Some? && proof.value.key == r.key
  }

  /** A denial of this scope stands behind `r` in the trail. */
  predicate NewerDenialInTrail(p: Proc, me: Identity, r: Receipt) {
    exists i, j :: 0 <= i < j < |p.box.receipts| && p.box.receipts[i].key == r.key && DenialBehind(p, me, r, p.box.receipts[j])
  }

  predicate DenialBehind(p: Proc, me: Identity, r: Receipt, e: Receipt) {
    e.key != r.key && !e.granted && InScope(e, me)
  }

  predicate NewerDenialHeld(p: Proc, me: Identity, r: Receipt) {
    exists i, j :: 0 <= i < j < |p.box.receipts| && p.box.receipts[i].key == r.key
                   && HeldBehind(p, me, r, p.box.receipts[j])
  }

  predicate HeldBehind(p: Proc, me: Identity, r: Receipt, e: Receipt) {
    DenialBehind(p, me, r, e) && (e.key in p.box.owed || DenyProofHeld(p, me, e))
  }

  predicate PairIncomplete(p: Proc) {
    p.box.dirty || Arming(p) || IsGrant(p.recordOwed)
  }

  predicate LiveDenied(p: Proc) {
    p.live == Denied || p.live == DeniedForcedMinor
  }

  /** The hold number `n` of the pass, in the order the pass evaluates them; a held receipt ends the pass. */
  predicate Held(p: Proc, me: Identity, r: Receipt, n: nat) {
    if n == 0 then r.key in p.box.owed
    else if n == 1 then r.granted && IsDenial(p.mintOwed)
    else if n == 2 then r.granted && NewerDenialHeld(p, me, r)
    else if n == 3 then DenyProofHeld(p, me, r)
    else if n == 4 then PairIncomplete(p)
    else
      // re-checked under the record-apply lock, when it is free
      || p.slow != Idle
      || IsDenial(p.mintOwed)
      || NewerDenialHeld(p, me, r)
      || (LiveDenied(p) && !NewerDenialInTrail(p, me, r))
  }

  /** Denials pass four holds, grants six. */
  function HoldCount(r: Receipt): nat {
    if r.granted then 6 else 4
  }

  // ---------------------------------------------------------------- the steps

  function NextProc(s: State, step: Step, p: Proc): State {
    match step
    case Start(_, _) => s
    case Crash => s.(proc := None)
    case Decide(d) => s.(proc := Some(FastHalf(p, d)))
    case Begin(clock, purgeOk) => s.(proc := Some(BeginTurn(p, clock, purgeOk)))
    case Mint(key, bytes) => MintStep(s, p, key, bytes)
    case AppendReceipt(ok) => AppendStep(s, p, ok)
    case WriteRecord(ok) => RecordStep(s, p, ok)
    case SettleSlot => s.(proc := Some(SlotStep(p)))
    case MarkOwed => s.(proc := Some(MarkStep(p)))
    case Finish =>
      if p.slow == Served && p.tickets != [] then s.(proc := Some(p.(tickets := p.tickets[1..], slow := Idle))) else s
    case TakeOwedMint(key, bytes) => TakeMintStep(s, p, key, bytes)
    case TakeOwedRecord(ok) => TakeRecordStep(s, p, ok)
    case PersistAgain(ok) =>
      var saved := RetryPersist(p.box, s.disk.trail, ok);
      s.(disk := s.disk.(trail := saved.file), proc := Some(p.(box := saved.box)))
    case Pick => s.(proc := Some(PickStep(s.cfg, p)))
    case Check => s.(proc := Some(CheckStep(s.cfg, p)))
    case Send(processed) => SendStep(s, p, processed)
    case Answer(outcome) => s.(proc := Some(AnswerStep(p, outcome)))
    case PruneReceipt(ok) =>
      if !p.pass.Settling? then s
      else
        var saved := Prune(p.box, s.disk.trail, p.pass.r.key, ok);
        s.(disk := s.disk.(trail := saved.file),
           proc := Some(p.(box := saved.box, pass := Resting, answered := p.answered + {p.pass.r.key})))
  }

  /** The fast half: a denial is live at once; a forced-minor state refuses grants and ignores denials. */
  function FastHalf(p: Proc, d: Decision): Proc {
    if p.live == DeniedForcedMinor && d != ForcedMinor then p
    else
      var q := p.(tickets := p.tickets + [Ticket(d, p.epoch)]);
      if d == Grant then q else q.(live := LiveOf(d), epoch := p.epoch + 1)
  }

  /** The oldest ticket takes its turn: a grant goes live unless a denial overtook it. */
  function BeginTurn(p: Proc, clock: int, purgeOk: bool): Proc {
    if p.slow != Idle || p.tickets == [] then p
    else
      var t := p.tickets[0];
      var at := StampAfter(p.lastStamp, clock);
      if t.decision != Grant then
        p.(lastStamp := Some(at), slow := DenyStamped(t.decision, at), accepted := p.accepted + [t.decision])
      else if !purgeOk then
        p.(slow := Served)
      else
        p.(live := if p.epoch == t.epoch then Granted else p.live,
           lastStamp := Some(at), slow := GrantStamped(at), accepted := p.accepted + [Grant])
  }

  function MintStep(s: State, p: Proc, key: Option<string>, bytes: nat): State {
    if key.Some? && (key.value == "" || key.value in s.used) then s
    else
      var s' := s.(used := if key.Some? then s.used + {key.value} else s.used);
      match p.slow
      case GrantStamped(at) =>
        if key.None? then s.(proc := Some(p.(mintOwed := Some(Owed(Grant, at)), slow := GrantUnminted(at))))
        else s'.(proc := Some(p.(mintOwed := None, slow := GrantMinted(MintReceipt(s.cfg, key.value, Grant, at, bytes)))))
      case DenySettled(d, at, written) =>
        if key.None? then s.(proc := Some(p.(mintOwed := Some(Owed(d, at)), slow := Served)))
        else s'.(proc := Some(p.(mintOwed := None, slow := DenyMinted(MintReceipt(s.cfg, key.value, d, at, bytes), written))))
      case _ => s
  }

  function AppendStep(s: State, p: Proc, ok: bool): State {
    if !p.slow.GrantMinted? && !p.slow.DenyMinted? && !p.slow.RetryMinted? then s
    else
      var r := p.slow.r;
      var saved := Append(p.box, s.disk.trail, r, ok);
      var slow := match p.slow
        case GrantMinted(_) => GrantAppended(r, !FailedDurably(saved.error))
        case DenyMinted(_, written) => DenyAppended(r, written)
        case _ => RetryAppended(r);
      s.(disk := s.disk.(trail := saved.file), proc := Some(p.(box := saved.box, slow := slow)))
  }

  function RecordStep(s: State, p: Proc, ok: bool): State {
    match p.slow
    case GrantAppended(r, true) =>
      WriteDecision(s, Grant, r.at, ok).(proc := Some(p.(slow := GrantRecorded(r, ok))))
    case DenyStamped(d, at) =>
      WriteDecision(s, d, at, ok).(proc := Some(p.(slow := DenyRecorded(d, at, ok))))
    case _ => s
  }

  function WriteDecision(s: State, d: Decision, at: int, ok: bool): State {
    if ok then s.(disk := s.disk.(record := SaveRecord(d, s.cfg.digest, Some(at), true))) else s
  }

  function SlotStep(p: Proc): Proc {
    match p.slow
    case GrantUnminted(at) => SetSlot(p, Owed(Grant, at), false).(slow := Served)
    case GrantAppended(r, false) => SetSlot(p, Owed(Grant, r.at), false).(slow := GrantSettled(r))
    case GrantRecorded(r, written) =>
      SetSlot(p, Owed(Grant, r.at), written).(slow := if written then Served else GrantSettled(r))
    case DenyRecorded(d, at, written) => SetSlot(p, Owed(d, at), written).(slow := DenySettled(d, at, written))
    case RetryRecorded(o, written) => SetSlot(p, o, written).(slow := Idle)
    case _ => p
  }

  function MarkStep(p: Proc): Proc {
    match p.slow
    case GrantSettled(r) => MarkKey(p, r.key).(slow := Served)
    case DenyAppended(r, written) => (if written then p else MarkKey(p, r.key)).(slow := Served)
    case RetryAppended(r) =>
      (if p.recordOwed.Some? && p.recordOwed.value.at == r.at then MarkKey(p, r.key) else p).(slow := Idle)
    case _ => p
  }

  /** retryOwedConsentMint takes the lock only when it is free. */
  function TakeMintStep(s: State, p: Proc, key: Option<string>, bytes: nat): State {
    if p.slow != Idle || p.mintOwed.None? || key.None? || key.value == "" || key.value in s.used then s
    else
      var m := p.mintOwed.value;
      s.(used := s.used + {key.value},
         proc := Some(p.(mintOwed := None, slow := RetryMinted(MintReceipt(s.cfg, key.value, m.decision, m.at, bytes)))))
  }

  /** retryOwedConsentRecord: a grant's record waits for its receipt. */
  function TakeRecordStep(s: State, p: Proc, ok: bool): State {
    if p.slow != Idle || p.recordOwed.None? then s
    else
      var o := p.recordOwed.value;
      if o.decision == Grant && (p.box.dirty || (p.mintOwed.Some? && p.mintOwed.value.at == o.at)) then s
      else WriteDecision(s, o.decision, o.at, ok).(proc := Some(p.(slow := RetryRecorded(o, ok))))
  }

  function PickStep(cfg: Config, p: Proc): Proc {
    if p.pass != Resting then p
    else
      var next := NextUp(p.box.receipts, HoldsGrants(p.box), cfg.me);
      if next.None? then p else p.(pass := Checking(next.value, 0))
  }

  function CheckStep(cfg: Config, p: Proc): Proc {
    if !p.pass.Checking? then p
    else
      var r, n := p.pass.r, p.pass.passed;
      if Held(p, cfg.me, r, n) then p.(pass := Resting)
      else if n + 1 < HoldCount(r) then p.(pass := Checking(r, n + 1))
      else p.(pass := Cleared(r))
  }

  /** The request reaches the server or it does not; a key the server knows changes nothing there. */
  function SendStep(s: State, p: Proc, processed: bool): State {
    if !p.pass.Cleared? then s
    else
      var r := p.pass.r;
      s.(server := if processed && !HasKey(s.server, r.key) then s.server + [r] else s.server,
         proc := Some(p.(pass := InFlight(r, processed))))
  }

  /** An acknowledgement means the server processed the receipt, a terminal status that it did not. */
  function AnswerStep(p: Proc, outcome: Outcome): Proc {
    if !p.pass.InFlight? then p
    else match outcome
      case Ack => if p.pass.processed then p.(pass := Settling(p.pass.r)) else p
      case Terminal => if p.pass.processed then p else p.(pass := Settling(p.pass.r))
      case Retryable => p.(pass := Resting)
      case NoAnswer => p.(pass := Resting)
  }

  /** What stands on disk is remembered by the observers. */
  function Observe(s: State): State {
    var rs := Listed(s.disk.trail);
    var recorded := if s.disk.record.File? && s.disk.record.wire.analytics.Word?
                       && s.disk.record.wire.analytics.decision != Grant && s.disk.record.wire.decidedAt.Some?
                    then {s.disk.record.wire.decidedAt.value} else {};
    s.(denials := s.denials + recorded + (set i | 0 <= i < |rs| && !rs[i].granted :: rs[i].at),
       grants := s.grants + (set i | 0 <= i < |rs| && rs[i].granted :: rs[i].at))
  }

  function NextRaw(s: State, step: Step): State {
    if s.proc.Some? then NextProc(s, step, s.proc.value)
    else if step.Start? then
      var (disk, p) := Boot(s.cfg, s.disk, step.healOk, step.markOk);
      s.(disk := disk, proc := Some(p))
    else s
  }

  function Next(s: State, step: Step): State {
    Observe(NextRaw(s, step))
  }

  function Run(s: State, steps: seq<Step>): State {
    if steps == [] then s else Next(Run(s, steps[..|steps| - 1]), steps[|steps| - 1])
  }
}
