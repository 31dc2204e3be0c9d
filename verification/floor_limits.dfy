/**
 Where the consent floor's promises stop: for each condition of the main theorems a run
 that meets all the others and breaks the promise.
 */
module FloorLimits {
  import opened Basics
  import opened DecisionRecord
  import opened ConsentReceipts
  import opened ConsentOutbox
  import opened ConsentMirror
  import opened ConsentFloor
  import opened FloorShape
  import opened FloorPairing
  import opened FloorClose
  import opened FloorMarks
  import opened FloorHolds
  import opened FloorEvidence
  import opened FloorDispatch
  import opened FloorWire
  import opened FloorPlain
  import opened FloorLate

  // ---------------------------------------------------------------- which conditions a run meets

  /**
   What a run takes care of: clean starts, minted keys, no judgement inside a window, none there after a
   failed append, no eviction of the receipt under judgement, no terminal answers.
   */
  datatype Care = Care(clean: bool, keyed: bool, calm: bool, landed: bool, kept: bool, answers: bool)

  const ALL := Care(true, true, true, true, true, true)

  ghost predicate Careful(s: State, step: Step, c: Care) {
    && (c.clean && s.proc.None? && step.Start? ==> CleanStart(s))
    && (c.keyed ==> !(step.Mint? && step.key.None?))
    && (c.calm ==> Unraced(s, step, false) && Unraced(s, step, true))
    && (c.landed ==> Landed(s, step))
    && (c.kept ==> Kept(s, step, Mode(true, true)))
    && (c.answers ==> step != Answer(Terminal))
  }

  ghost predicate CarefulRun(s: State, steps: seq<Step>, c: Care) {
    steps == [] ||
    (CarefulRun(s, steps[..|steps| - 1], c) && Careful(Run(s, steps[..|steps| - 1]), steps[|steps| - 1], c))
  }

  // ---------------------------------------------------------------- running the plain floor

  function PlainAfter(s: State, step: Step): State {
    Observe(PlainNext(s, step))
  }

  /** The plain run stays within what refines the real one, and is as careful as asked. */
  ghost predicate Tame(s: State, steps: seq<Step>, c: Care) {
    steps == [] ||
    (Tame(s, steps[..|steps| - 1], c) &&
     var e := PlainRun(s, steps[..|steps| - 1]);
     Unforgetting(e, steps[|steps| - 1]) && Careful(e, steps[|steps| - 1], c))
  }

  /** Forgetting and care look at what the plain floor has. */
  lemma TameStep(s: State, step: Step, c: Care)
    ensures Unforgetting(PlainOf(s), step) == Unforgetting(s, step)
    ensures Careful(PlainOf(s), step, c) == Careful(s, step, c)
  {
    ForgetsSame(s, step);
    CaresSame(s, step);
    hide Unforgetting, Unraced, FloorWire.Landed, Kept, Simplify;
  }

  lemma CaresSame(s: State, step: Step)
    ensures forall granted :: Unraced(PlainOf(s), step, granted) == Unraced(s, step, granted)
    ensures FloorWire.Landed(PlainOf(s), step) == FloorWire.Landed(s, step)
    ensures Kept(PlainOf(s), step, Mode(true, true)) == Kept(s, step, Mode(true, true))
  {
    hide Covers, Window;
  }

  lemma ForgetsSame(s: State, step: Step)
    ensures Unforgetting(PlainOf(s), step) == Unforgetting(s, step)
  {
    if s.proc.Some? && s.proc.value.pass.Settling? { UnlistedSame(s.proc.value.box, s.proc.value.pass.r.key); }
    hide Unlisted, HasKey;
  }

  lemma UnlistedSame(box: Outbox, key: string)
    ensures Unlisted(Simplify(box), key).receipts == Unlisted(box, key).receipts
    ensures Unlisted(Simplify(box), key).settled == Unlisted(box, key).settled
  {
    hide Without, Settle;
  }

  /** A tame run of the plain floor is a careful run of the real one. */
  lemma {:induction false} TameIsReal(s: State, steps: seq<Step>, c: Care)
    requires Shape(s) && s.proc.None? && Tame(s, steps, c)
    ensures Remembering(s, steps) && CarefulRun(s, steps, c) && PlainOf(Run(s, steps)) == PlainRun(s, steps)
  {
    hide Shape, Next, PlainNext, Observe, Unforgetting, Careful;
    if steps != [] {
      var front := steps[..|steps| - 1];
      TameIsReal(s, front, c);
      TameStep(Run(s, front), steps[|steps| - 1], c);
    }
    PlainRefined(s, steps);
  }

  /** `s` is where the tame plain run `steps` leads from `s0`. */
  ghost predicate Walked(s0: State, steps: seq<Step>, s: State, c: Care) {
    Tame(s0, steps, c) && s == PlainRun(s0, steps)
  }

  predicate Ungranted(trail: TrailFile) {
    forall i :: 0 <= i < |Listed(trail)| ==> !Listed(trail)[i].granted
  }

  lemma PlainSets(s: State, step: Step)
    ensures PlainNext(s, step).denials == s.denials && PlainNext(s, step).grants == s.grants
  {
    SetsStay(s, step);
    hide NextRaw, FileBytes, Cut;
  }

  lemma ObservedSets(s: State)
    ensures s.denials <= Observe(s).denials && Observe(s).disk == s.disk
    ensures Ungranted(s.disk.trail) ==> Observe(s).grants == s.grants
    ensures forall i :: 0 <= i < |Listed(s.disk.trail)| && !Listed(s.disk.trail)[i].granted ==>
              Listed(s.disk.trail)[i].at in Observe(s).denials
  {
  }

  lemma Walk(s0: State, steps: seq<Step>, s: State, step: Step, c: Care) returns (steps': seq<Step>, s': State)
    requires Walked(s0, steps, s, c) && Unforgetting(s, step) && Careful(s, step, c)
    ensures Walked(s0, steps', s', c) && s' == PlainAfter(s, step) && steps' == steps + [step]
    ensures s.denials <= s'.denials && (Ungranted(s'.disk.trail) ==> s'.grants == s.grants)
    ensures forall i :: 0 <= i < |Listed(s'.disk.trail)| && !Listed(s'.disk.trail)[i].granted ==> Listed(s'.disk.trail)[i].at in s'.denials
  {
    PlainSets(s, step);
    ObservedSets(PlainNext(s, step));
    hide PlainNext, Observe, Unforgetting, Careful;
    steps', s' := steps + [step], PlainAfter(s, step);
    assert steps'[..|steps|] == steps;
  }

  lemma NoSteps(s0: State, c: Care)
    ensures Walked(s0, [], s0, c)
  {
  }

  /** Most steps need no care. */
  lemma Carefree(s: State, step: Step, c: Care)
    requires !step.Start? && !step.Check? && !step.PruneReceipt? && step != Answer(Terminal)
    requires !(step.Mint? && step.key.None? && c.keyed)
    ensures Careful(s, step, c) && Unforgetting(s, step)
  {
  }

  /** A step that needs no care. */
  lemma Stroll(s0: State, steps: seq<Step>, s: State, step: Step, c: Care) returns (steps': seq<Step>, s': State)
    requires Walked(s0, steps, s, c) && !step.Start? && !step.Check? && !step.PruneReceipt? && step != Answer(Terminal)
    requires !(step.Mint? && step.key.None? && c.keyed)
    ensures Walked(s0, steps', s', c) && s' == PlainAfter(s, step) && steps' == steps + [step]
    ensures s.denials <= s'.denials && (Ungranted(s'.disk.trail) ==> s'.grants == s.grants)
    ensures forall i :: 0 <= i < |Listed(s'.disk.trail)| && !Listed(s'.disk.trail)[i].granted ==> Listed(s'.disk.trail)[i].at in s'.denials
  {
    Carefree(s, step, c);
    steps', s' := Walk(s0, steps, s, step, c);
  }

  /** `s` is `t`, whatever the observers of the disk have seen. */
  predicate Looks(s: State, t: State) {
    s == t.(denials := s.denials, grants := s.grants)
  }

  predicate Plainly(p: Proc) {
    p.box == Simplify(p.box)
  }

  predicate Inner(step: Step) {
    || step.Decide? || step.Begin? || step.SettleSlot? || step.MarkOwed? || step.Finish?
    || step.Pick? || step.Check? || step.Answer?
    || (step.WriteRecord? && !step.ok) || (step.Mint? && step.key.None?)
  }

  /** The steps that stay within the process. */
  function ProcAfter(cfg: Config, p: Proc, step: Step): Proc
    requires Inner(step)
  {
    match step
    case Decide(d) => FastHalf(p, d)
    case Begin(clock, purgeOk) => BeginTurn(p, clock, purgeOk)
    case SettleSlot => SlotStep(p)
    case MarkOwed => MarkStep(p)
    case Finish => if p.slow == Served && p.tickets != [] then p.(tickets := p.tickets[1..], slow := Idle) else p
    case Pick => PickStep(cfg, p)
    case Check => CheckStep(cfg, p)
    case Answer(outcome) => AnswerStep(p, outcome)
    case WriteRecord(_) => RecordFails(p)
    case Mint(_, _) => MintFails(p)
  }

  function RecordFails(p: Proc): Proc {
    match p.slow
    case GrantAppended(r, true) => p.(slow := GrantRecorded(r, false))
    case DenyStamped(d, at) => p.(slow := DenyRecorded(d, at, false))
    case _ => p
  }

  function MintFails(p: Proc): Proc {
    match p.slow
    case GrantStamped(at) => p.(mintOwed := Some(Owed(Grant, at)), slow := GrantUnminted(at))
    case DenySettled(d, at, written) => p.(mintOwed := Some(Owed(d, at)), slow := Served)
    case _ => p
  }

  lemma WalkInner(s: State, t: State, step: Step)
    requires Looks(s, t) && t.proc.Some? && Plainly(t.proc.value) && Inner(step)
    ensures Looks(PlainAfter(s, step), t.(proc := Some(ProcAfter(t.cfg, t.proc.value, step))))
    ensures Plainly(ProcAfter(t.cfg, t.proc.value, step))
  {
    InnerPlain(t.cfg, t.proc.value, step);
    hide FastHalf, BeginTurn, SlotStep, MarkStep, PickStep, CheckStep, AnswerStep;
  }

  lemma InnerPlain(cfg: Config, p: Proc, step: Step)
    requires Plainly(p) && Inner(step)
    ensures Plainly(ProcAfter(cfg, p, step))
  {
    hide Held;
  }

  /** A key is minted. */
  lemma WalkMint(s: State, t: State, key: string, bytes: nat, r: Receipt, slow: Slow)
    requires Looks(s, t) && t.proc.Some? && Plainly(t.proc.value) && key != "" && key !in t.used
    requires match t.proc.value.slow
             case GrantStamped(at) => r == MintReceipt(t.cfg, key, Grant, at, bytes) && slow == GrantMinted(r)
             case DenySettled(d, at, written) => r == MintReceipt(t.cfg, key, d, at, bytes) && slow == DenyMinted(r, written)
             case _ => false
    ensures Looks(PlainAfter(s, Mint(Some(key), bytes)),
                  t.(used := t.used + {key}, proc := Some(t.proc.value.(mintOwed := None, slow := slow))))
  {
  }

  lemma NothingCut(box: Outbox)
    ensures Cut(box, 0) == box
  {
    assert KeysOf(box.receipts[..0]) == [];
    assert box.owed - (set k | k in KeysOf(box.receipts[..0])) == box.owed;
  }

  /** The lock holder's place after an append. */
  function AppendedTo(slow: Slow, stored: bool): Slow
    requires slow.GrantMinted? || slow.DenyMinted?
  {
    match slow
    case GrantMinted(r) => GrantAppended(r, stored)
    case DenyMinted(r, written) => DenyAppended(r, written)
  }

  /** A receipt lands at the end of a trail that fits. */
  lemma WalkAppend(s: State, t: State)
    requires Looks(s, t) && t.proc.Some? && Plainly(t.proc.value) && (t.proc.value.slow.GrantMinted? || t.proc.value.slow.DenyMinted?)
    requires |t.proc.value.box.receipts| < CAP
    requires FileBytes(t.proc.value.box.receipts + [MintedIn(t.proc.value.slow).value]) <= READ_LIMIT
    ensures var p := t.proc.value;
            var rs := p.box.receipts + [MintedIn(p.slow).value];
            Looks(PlainAfter(s, AppendReceipt(true)),
                  t.(disk := t.disk.(trail := ParsedTrail(rs)),
                     proc := Some(p.(slow := AppendedTo(p.slow, true), box := p.box.(receipts := rs, dirty := false)))))
  {
    var p := t.proc.value;
    var rs := p.box.receipts + [MintedIn(p.slow).value];
    NothingCut(p.box.(receipts := rs));
    assert rs[0..] == rs;
    hide FileBytes, Cut;
  }

  /** A receipt's save fails. */
  lemma WalkAppendFails(s: State, t: State)
    requires Looks(s, t) && t.proc.Some? && Plainly(t.proc.value) && (t.proc.value.slow.GrantMinted? || t.proc.value.slow.DenyMinted?)
    ensures var p := t.proc.value;
            var rs := p.box.receipts + [MintedIn(p.slow).value];
            Looks(PlainAfter(s, AppendReceipt(false)),
                  t.(proc := Some(p.(slow := AppendedTo(p.slow, false), box := p.box.(receipts := rs, dirty := true)))))
  {
    hide FileBytes, Cut;
  }

  lemma WalkSend(s: State, t: State)
    requires Looks(s, t) && t.proc.Some? && Plainly(t.proc.value) && t.proc.value.pass.Cleared?
    requires !HasKey(t.server, t.proc.value.pass.r.key)
    ensures var r := t.proc.value.pass.r;
            Looks(PlainAfter(s, Send(true)), t.(server := t.server + [r], proc := Some(t.proc.value.(pass := InFlight(r, true)))))
  {
  }

  lemma WalkCrash(s: State, t: State)
    requires Looks(s, t) && t.proc.Some?
    ensures Looks(PlainAfter(s, Crash), t.(proc := None))
  {
  }

  lemma WalkRecordLands(s: State, t: State)
    requires Looks(s, t) && t.proc.Some? && Plainly(t.proc.value) && t.proc.value.slow.DenyStamped?
    ensures var p := t.proc.value;
            Looks(PlainAfter(s, WriteRecord(true)),
                  t.(disk := t.disk.(record := SaveRecord(p.slow.d, t.cfg.digest, Some(p.slow.at), true)),
                     proc := Some(p.(slow := DenyRecorded(p.slow.d, p.slow.at, true)))))
  {
  }

  /** The settled receipt stands alone: the file is written empty. */
  lemma WalkPrune(s: State, t: State)
    requires Looks(s, t) && t.proc.Some? && Plainly(t.proc.value) && t.proc.value.pass.Settling?
    requires t.proc.value.box.receipts == [t.proc.value.pass.r]
    ensures var p := t.proc.value;
            var key := p.pass.r.key;
            Looks(PlainAfter(s, PruneReceipt(true)),
                  t.(disk := t.disk.(trail := ParsedTrail([])),
                     proc := Some(p.(pass := Resting, answered := p.answered + {key},
                                     box := p.box.(receipts := [], settled := Settle(p.box.settled, key),
                                                   owed := p.box.owed - {key}, dirty := false)))))
  {
    var p := t.proc.value;
    var key := p.pass.r.key;
    assert p.box.receipts[0].key == key && Without(p.box.receipts, key) == [];
    NothingCut(p.box.(receipts := [], settled := Settle(p.box.settled, key), owed := p.box.owed - {key}));
    NoBytes();
    hide FileBytes, Settle, Cut;
  }

  lemma NoBytes()
    ensures FileBytes([]) <= READ_LIMIT
  {
  }

  // ---------------------------------------------------------------- walking

  /** The walk has come to a state that looks like `t`. */
  ghost predicate At(s0: State, steps: seq<Step>, s: State, t: State, c: Care) {
    Walked(s0, steps, s, c) && Looks(s, t) && (t.proc.Some? ==> Plainly(t.proc.value))
  }

  /** What the observers of the disk keep through a walk. */
  ghost predicate Seen(s: State, s': State, trail: TrailFile) {
    s.denials <= s'.denials && (Ungranted(trail) ==> s'.grants == s.grants)
  }

  /** A step within the process that needs no care. */
  lemma Move(s0: State, steps: seq<Step>, s: State, t: State, step: Step, c: Care) returns (steps': seq<Step>, s': State, t': State)
    requires At(s0, steps, s, t, c) && t.proc.Some? && Inner(step) && !step.Check? && step != Answer(Terminal)
    requires !(step.Mint? && c.keyed)
    ensures t' == t.(proc := Some(ProcAfter(t.cfg, t.proc.value, step))) && At(s0, steps', s', t', c) && Seen(s, s', t.disk.trail)
  {
    WalkInner(s, t, step);
    hide PlainAfter, Tame, PlainRun, ProcAfter;
    steps', s' := Stroll(s0, steps, s, step, c);
    t' := t.(proc := Some(ProcAfter(t.cfg, t.proc.value, step)));
  }

  lemma Picks(s0: State, steps: seq<Step>, s: State, t: State, c: Care) returns (steps': seq<Step>, s': State)
    requires At(s0, steps, s, t, c) && t.proc.Some?
    ensures At(s0, steps', s', t.(proc := Some(PickStep(t.cfg, t.proc.value))), c) && Seen(s, s', t.disk.trail)
  {
    hide At, PickStep, Seen;
    var t';
    steps', s', t' := Move(s0, steps, s, t, Pick, c);
  }

  /** A check, as careful as asked. */
  lemma Judge(s0: State, steps: seq<Step>, s: State, t: State, c: Care) returns (steps': seq<Step>, s': State, t': State)
    requires At(s0, steps, s, t, c) && t.proc.Some? && Careful(t, Check, c)
    ensures t' == t.(proc := Some(CheckStep(t.cfg, t.proc.value))) && At(s0, steps', s', t', c) && Seen(s, s', t.disk.trail)
  {
    CheckInner(t.cfg, t.proc.value);
    CareLooks(s, t, c);
    hide Tame, PlainRun, CheckStep, Careful, ProcAfter, Inner, Unforgetting;
    WalkInner(s, t, Check);
    hide PlainAfter;
    steps', s' := Walk(s0, steps, s, Check, c);
    t' := t.(proc := Some(CheckStep(t.cfg, t.proc.value)));
  }

  lemma CheckInner(cfg: Config, p: Proc)
    ensures Inner(Check) && ProcAfter(cfg, p, Check) == CheckStep(cfg, p)
  {
    hide CheckStep;
  }

  lemma CareLooks(s: State, t: State, c: Care)
    requires Looks(s, t) && Careful(t, Check, c)
    ensures Careful(s, Check, c) && Unforgetting(s, Check)
  {
    hide Covers, Window;
  }

  /** A step whose effect is known and that needs no care. */
  lemma Take(s0: State, steps: seq<Step>, s: State, t: State, step: Step, t': State, c: Care) returns (steps': seq<Step>, s': State)
    requires At(s0, steps, s, t, c) && Looks(PlainAfter(s, step), t') && (t'.proc.Some? ==> Plainly(t'.proc.value))
    requires !step.Start? && !step.Check? && !step.PruneReceipt? && step != Answer(Terminal)
    requires !(step.Mint? && step.key.None? && c.keyed)
    ensures At(s0, steps', s', t', c) && Seen(s, s', t'.disk.trail) && steps' == steps + [step]
    ensures forall i :: 0 <= i < |Listed(t'.disk.trail)| && !Listed(t'.disk.trail)[i].granted ==> Listed(t'.disk.trail)[i].at in s'.denials
  {
    hide PlainAfter, Tame, PlainRun;
    steps', s' := Stroll(s0, steps, s, step, c);
  }

  // ---------------------------------------------------------------- a denial decided, recorded, appended and posted

  const ME := Identity(Scope("w", "a", "e", "u", "anon"), "")
  const CFG := Config(ME, "digest")

  /** Nothing is owed and nothing is under way. */
  predicate Ready(p: Proc) {
    && Plainly(p) && p.slow == Idle && p.pass == Resting && p.tickets == [] && p.recordOwed.None? && p.mintOwed.None?
    && p.box.receipts == [] && p.box.owed == {}
  }

  predicate MayDeny(p: Proc, d: Decision, at: int) {
    d != Grant && (p.live == DeniedForcedMinor ==> d == ForcedMinor) && p.lastStamp.Some? && p.lastStamp.value < at
  }

  function Serving(p: Proc, d: Decision, at: int, slow: Slow): Proc {
    p.(live := LiveOf(d), epoch := p.epoch + 1, tickets := [Ticket(d, p.epoch)], accepted := p.accepted + [d],
       lastStamp := Some(at), slow := slow)
  }

  lemma Admission(p: Proc, d: Decision, at: int)
    requires p.slow == Idle && p.tickets == [] && MayDeny(p, d, at)
    ensures BeginTurn(FastHalf(p, d), at, true) == Serving(p, d, at, DenyStamped(d, at))
  {
    assert [] + [Ticket(d, p.epoch)] == [Ticket(d, p.epoch)];
  }

  /** A denial is admitted and takes its turn. */
  lemma Admitted(s0: State, steps0: seq<Step>, s1: State, t: State, p: Proc, d: Decision, at: int, c: Care)
    returns (steps: seq<Step>, s: State, u: State)
    requires At(s0, steps0, s1, t, c) && t.proc == Some(p) && p.slow == Idle && p.tickets == [] && MayDeny(p, d, at)
    ensures u == t.(proc := Some(Serving(p, d, at, DenyStamped(d, at)))) && At(s0, steps, s, u, c) && Seen(s1, s, t.disk.trail)
  {
    Admission(p, d, at);
    hide FastHalf, BeginTurn, At, Ready, MayDeny, Serving;
    steps, s, u := Move(s0, steps0, s1, t, Decide(d), c);
    steps, s, u := Move(s0, steps, s, u, Begin(at, true), c);
  }

  /** Its record write fails, and it fills the slot. */
  function Failing(p: Proc, d: Decision, at: int): Proc {
    Serving(p, d, at, DenySettled(d, at, false)).(recordOwed := Some(Owed(d, at)))
  }

  lemma FailingIs(p: Proc, d: Decision, at: int)
    ensures RecordFails(Serving(p, d, at, DenyStamped(d, at))) == Serving(p, d, at, DenyRecorded(d, at, false))
    ensures SlotStep(Serving(p, d, at, DenyRecorded(d, at, false))) == Failing(p, d, at)
  {
  }

  lemma Unrecorded(s0: State, steps0: seq<Step>, s1: State, t: State, p: Proc, d: Decision, at: int, c: Care)
    returns (steps: seq<Step>, s: State)
    requires At(s0, steps0, s1, t, c) && t.proc == Some(p) && p.slow == Idle && p.tickets == [] && MayDeny(p, d, at)
    ensures At(s0, steps, s, t.(proc := Some(Failing(p, d, at))), c) && Seen(s1, s, t.disk.trail)
  {
    var u;
    FailingIs(p, d, at);
    hide At, Serving, Failing, SlotStep, RecordFails, MayDeny;
    steps, s, u := Admitted(s0, steps0, s1, t, p, d, at, c);
    steps, s, u := Move(s0, steps, s, u, WriteRecord(false), c);
    steps, s, u := Move(s0, steps, s, u, SettleSlot, c);
  }

  /** Its record lands. */
  lemma Recorded(s0: State, steps0: seq<Step>, s1: State, t: State, p: Proc, d: Decision, at: int, c: Care)
    returns (steps: seq<Step>, s: State, u: State)
    requires At(s0, steps0, s1, t, c) && t.proc == Some(p) && Ready(p) && MayDeny(p, d, at) && t.cfg == CFG
    ensures u == t.(disk := t.disk.(record := SaveRecord(d, CFG.digest, Some(at), true)),
                    proc := Some(Serving(p, d, at, DenySettled(d, at, true))))
    ensures At(s0, steps, s, u, c)
  {
    steps, s, u := Admitted(s0, steps0, s1, t, p, d, at, c);
    RecordSettled(p, d, at);
    hide At, Seen, Ready, MayDeny, SlotStep;
    steps, s, u := Lands(s0, steps, s, u, p, d, at, c);
    steps, s, u := Move(s0, steps, s, u, SettleSlot, c);
  }

  lemma Lands(s0: State, steps0: seq<Step>, s1: State, t: State, p: Proc, d: Decision, at: int, c: Care)
    returns (steps: seq<Step>, s: State, u: State)
    requires At(s0, steps0, s1, t, c) && t.proc == Some(Serving(p, d, at, DenyStamped(d, at))) && t.cfg == CFG
    ensures u == t.(disk := t.disk.(record := SaveRecord(d, CFG.digest, Some(at), true)),
                    proc := Some(Serving(p, d, at, DenyRecorded(d, at, true))))
    ensures At(s0, steps, s, u, c)
  {
    WalkRecordLands(s1, t);
    u := t.(disk := t.disk.(record := SaveRecord(d, CFG.digest, Some(at), true)), proc := Some(Serving(p, d, at, DenyRecorded(d, at, true))));
    hide PlainAfter, Tame, PlainRun;
    steps, s := Take(s0, steps0, s1, t, WriteRecord(true), u, c);
  }

  lemma RecordSettled(p: Proc, d: Decision, at: int)
    requires Ready(p)
    ensures SlotStep(Serving(p, d, at, DenyRecorded(d, at, true))) == Serving(p, d, at, DenySettled(d, at, true))
  {
  }

  /** A key is minted for the receipt of the decision at the lock. */
  function Keying(t: State, r: Receipt, slow: Slow): State
    requires t.proc.Some?
  {
    t.(used := t.used + {r.key}, proc := Some(t.proc.value.(mintOwed := None, slow := slow)))
  }

  lemma Mints(s0: State, steps0: seq<Step>, s1: State, t: State, r: Receipt, slow: Slow, c: Care)
    returns (steps: seq<Step>, s: State)
    requires At(s0, steps0, s1, t, c) && t.proc.Some? && r.key != "" && r.key !in t.used
    requires match t.proc.value.slow
             case GrantStamped(at) => r == MintReceipt(t.cfg, r.key, Grant, at, 10) && slow == GrantMinted(r)
             case DenySettled(d, at, written) => r == MintReceipt(t.cfg, r.key, d, at, 10) && slow == DenyMinted(r, written)
             case _ => false
    ensures At(s0, steps, s, Keying(t, r, slow), c) && Seen(s1, s, t.disk.trail)
  {
    WalkMint(s1, t, r.key, 10, r, slow);
    hide PlainAfter, Tame, PlainRun;
    steps, s := Take(s0, steps0, s1, t, Mint(Some(r.key), 10), Keying(t, r, slow), c);
  }

  /** A receipt is appended, or the append's write fails. */
  function Appending(t: State, lands: bool): State
    requires t.proc.Some? && (t.proc.value.slow.GrantMinted? || t.proc.value.slow.DenyMinted?)
  {
    var p := t.proc.value;
    var rs := p.box.receipts + [MintedIn(p.slow).value];
    t.(disk := t.disk.(trail := if lands then ParsedTrail(rs) else t.disk.trail),
       proc := Some(p.(slow := AppendedTo(p.slow, lands), box := p.box.(receipts := rs, dirty := !lands))))
  }

  lemma Appends(s0: State, steps0: seq<Step>, s1: State, t: State, lands: bool, c: Care)
    returns (steps: seq<Step>, s: State)
    requires At(s0, steps0, s1, t, c) && t.proc.Some? && (t.proc.value.slow.GrantMinted? || t.proc.value.slow.DenyMinted?)
    requires |t.proc.value.box.receipts| < CAP
    requires FileBytes(t.proc.value.box.receipts + [MintedIn(t.proc.value.slow).value]) <= READ_LIMIT
    ensures At(s0, steps, s, Appending(t, lands), c) && Seen(s1, s, Appending(t, lands).disk.trail)
    ensures var r := MintedIn(t.proc.value.slow).value; lands && !r.granted ==> r.at in s.denials
  {
    if lands { WalkAppend(s1, t); } else { WalkAppendFails(s1, t); }
    var u := Appending(t, lands);
    var rs := t.proc.value.box.receipts;
    hide PlainAfter, Tame, PlainRun, FileBytes;
    steps, s := Take(s0, steps0, s1, t, AppendReceipt(lands), u, c);
    if lands { assert Listed(u.disk.trail)[|rs|] == MintedIn(t.proc.value.slow).value; }
  }

  lemma OneReceipt(r: Receipt)
    requires r.bytes == 10
    ensures FileBytes([r]) <= READ_LIMIT
  {
    var one := [r];
    assert one[1..] == [];
    assert SumBytes(one) == r.bytes + SumBytes([]);
  }

  /** The decision is served, and its receipt stands alone in the mirror under its record. */
  function Standing(t: State, p: Proc, d: Decision, r: Receipt, lands: bool): State {
    t.(used := t.used + {r.key},
       disk := Disk(if lands then ParsedTrail([r]) else t.disk.trail, SaveRecord(d, CFG.digest, Some(r.at), true)),
       proc := Some(Serving(p, d, r.at, Idle).(tickets := [], box := p.box.(receipts := [r], dirty := !lands))))
  }

  lemma ServedAlone(p: Proc, d: Decision, r: Receipt, lands: bool)
    requires Ready(p)
    ensures var q := Serving(p, d, r.at, DenyAppended(r, true)).(box := p.box.(receipts := [r], dirty := !lands));
            var m := MarkStep(q);
            && m == q.(slow := Served)
            && m.(tickets := m.tickets[1..], slow := Idle) ==
                 Serving(p, d, r.at, Idle).(tickets := [], box := p.box.(receipts := [r], dirty := !lands))
  {
  }

  /** Its record is down, and its receipt has just been appended. */
  function Shown(t: State, p: Proc, d: Decision, r: Receipt, lands: bool): State {
    t.(used := t.used + {r.key},
       disk := Disk(if lands then ParsedTrail([r]) else t.disk.trail, SaveRecord(d, CFG.digest, Some(r.at), true)),
       proc := Some(Serving(p, d, r.at, DenyAppended(r, true)).(box := p.box.(receipts := [r], dirty := !lands))))
  }

  function Down(t: State, p: Proc, d: Decision, at: int): State {
    t.(disk := t.disk.(record := SaveRecord(d, CFG.digest, Some(at), true)),
       proc := Some(Serving(p, d, at, DenySettled(d, at, true))))
  }

  lemma ShownIs(t: State, p: Proc, d: Decision, r: Receipt, lands: bool)
    requires Ready(p)
    ensures var u := Keying(Down(t, p, d, r.at), r, DenyMinted(r, true));
            && u.proc.value.slow == DenyMinted(r, true) && u.proc.value.box.receipts == []
            && Appending(u, lands) == Shown(t, p, d, r, lands)
  {
    assert [] + [r] == [r];
  }

  lemma Shows(s0: State, steps0: seq<Step>, s1: State, t: State, p: Proc, d: Decision, r: Receipt, lands: bool, c: Care)
    returns (steps: seq<Step>, s: State)
    requires At(s0, steps0, s1, t, c) && t.proc == Some(p) && Ready(p) && MayDeny(p, d, r.at) && t.cfg == CFG
    requires r == MintReceipt(CFG, r.key, d, r.at, 10) && r.key != "" && r.key !in t.used
    ensures At(s0, steps, s, Shown(t, p, d, r, lands), c)
  {
    var u;
    steps, s, u := Recorded(s0, steps0, s1, t, p, d, r.at, c);
    assert u == Down(t, p, d, r.at);
    ShownIs(t, p, d, r, lands);
    OneReceipt(r);
    assert [] + [r] == [r];
    hide At, Seen, FileBytes, Ready, MayDeny, Keying, Appending, Shown;
    steps, s := Mints(s0, steps, s, u, r, DenyMinted(r, true), c);
    steps, s := Appends(s0, steps, s, Keying(u, r, DenyMinted(r, true)), lands, c);
  }

  /** A denial is decided, its record lands, its receipt is appended, or not, and its turn ends. */
  lemma Stands(s0: State, steps0: seq<Step>, s1: State, t: State, p: Proc, d: Decision, r: Receipt, lands: bool, c: Care)
    returns (steps: seq<Step>, s: State)
    requires At(s0, steps0, s1, t, c) && t.proc == Some(p) && Ready(p) && MayDeny(p, d, r.at) && t.cfg == CFG
    requires r == MintReceipt(CFG, r.key, d, r.at, 10) && r.key != "" && r.key !in t.used
    ensures At(s0, steps, s, Standing(t, p, d, r, lands), c)
  {
    steps, s := Shows(s0, steps0, s1, t, p, d, r, lands, c);
    ServedAlone(p, d, r, lands);
    hide At, Seen, FileBytes, Ready, MayDeny, MarkStep;
    var u;
    steps, s, u := Serves(s0, steps, s, Shown(t, p, d, r, lands), c);
  }

  /** The mark is decided and the turn ends. */
  lemma Serves(s0: State, steps0: seq<Step>, s1: State, t: State, c: Care) returns (steps: seq<Step>, s: State, u: State)
    requires At(s0, steps0, s1, t, c) && t.proc.Some?
    requires var m := MarkStep(t.proc.value); m.slow == Served && m.tickets != []
    ensures var m := MarkStep(t.proc.value); u == t.(proc := Some(m.(tickets := m.tickets[1..], slow := Idle)))
    ensures At(s0, steps, s, u, c) && Seen(s1, s, t.disk.trail)
  {
    hide At, MarkStep;
    steps, s, u := Move(s0, steps0, s1, t, MarkOwed, c);
    steps, s, u := Move(s0, steps, s, u, Finish, c);
  }

  /** A denial alone in the trail, with nothing owed, is picked up and cleared. */
  lemma AloneCleared(s0: State, steps0: seq<Step>, s1: State, t: State, r: Receipt, c: Care) returns (steps: seq<Step>, s: State, u: State)
    requires At(s0, steps0, s1, t, c) && t.proc.Some? && t.cfg == CFG && InScope(r, ME) && !r.granted
    requires var p := t.proc.value;
             p.pass == Resting && p.slow == Idle && p.recordOwed.None? && p.box.owed == {} && p.box.receipts == [r]
    ensures u == t.(proc := Some(t.proc.value.(pass := Cleared(r)))) && At(s0, steps, s, u, c) && Seen(s1, s, t.disk.trail)
  {
    var p := t.proc.value;
    AlonePicked(t, r);
    hide At, CheckStep, PickStep, Careful;
    steps, s, u := Move(s0, steps0, s1, t, Pick, c);
    var n := 0;
    while n < 4
      invariant 0 <= n <= 4 && At(s0, steps, s, u, c) && Seen(s1, s, t.disk.trail)
      invariant u == t.(proc := Some(p.(pass := if n < 4 then Checking(r, n) else Cleared(r))))
    {
      AloneChecked(u, r, n, c);
      steps, s, u := Judge(s0, steps, s, u, c);
      n := n + 1;
    }
  }

  lemma AlonePicked(t: State, r: Receipt)
    requires t.proc.Some? && Plainly(t.proc.value) && t.proc.value.pass == Resting && t.proc.value.box.receipts == [r]
    requires InScope(r, ME)
    ensures PickStep(CFG, t.proc.value) == t.proc.value.(pass := Checking(r, 0))
  {
  }

  lemma AloneChecked(t: State, r: Receipt, n: nat, c: Care)
    requires t.proc.Some? && n < 4 && t.proc.value.pass == Checking(r, n) && t.proc.value.slow == Idle && t.proc.value.recordOwed.None?
    requires t.proc.value.box.owed == {} && t.proc.value.box.receipts == [r] && !r.granted
    ensures CheckStep(CFG, t.proc.value) == t.proc.value.(pass := if n + 1 < 4 then Checking(r, n + 1) else Cleared(r))
    ensures Careful(t, Check, c)
  {
    hide NewerDenialHeld, Covers;
  }

  /** A cleared receipt is posted and processed. */
  lemma Posts(s0: State, steps0: seq<Step>, s1: State, t: State, r: Receipt, c: Care) returns (steps: seq<Step>, s: State, u: State)
    requires At(s0, steps0, s1, t, c) && t.proc.Some? && t.proc.value.pass == Cleared(r) && !HasKey(t.server, r.key)
    ensures u == t.(server := t.server + [r], proc := Some(t.proc.value.(pass := InFlight(r, true))))
    ensures At(s0, steps, s, u, c) && Seen(s1, s, t.disk.trail)
  {
    WalkSend(s1, t);
    u := t.(server := t.server + [r], proc := Some(t.proc.value.(pass := InFlight(r, true))));
    hide PlainAfter, Tame, PlainRun, HasKey;
    steps, s := Take(s0, steps0, s1, t, Send(true), u, c);
  }

  lemma Crashes(s0: State, steps0: seq<Step>, s1: State, t: State, c: Care) returns (steps: seq<Step>, s: State)
    requires At(s0, steps0, s1, t, c) && t.proc.Some?
    ensures At(s0, steps, s, t.(proc := None), c) && Seen(s1, s, t.disk.trail) && steps == steps0 + [Crash]
  {
    WalkCrash(s1, t);
    hide PlainAfter, Tame, PlainRun;
    steps, s := Take(s0, steps0, s1, t, Crash, t.(proc := None), c);
  }

  lemma Starts(s0: State, steps0: seq<Step>, s1: State, t: State, step: Step, u: State, c: Care) returns (steps: seq<Step>, s: State)
    requires At(s0, steps0, s1, t, c) && t.proc.None? && step.Start? && (c.clean ==> CleanStart(t))
    requires Looks(PlainAfter(s1, step), u) && (u.proc.Some? ==> Plainly(u.proc.value))
    ensures At(s0, steps, s, u, c) && Seen(s1, s, u.disk.trail)
  {
    StartCare(s1, t, step, c);
    hide PlainAfter, Tame, PlainRun, Careful, Unforgetting;
    steps, s := Walk(s0, steps0, s1, step, c);
  }

  lemma StartCare(s: State, t: State, step: Step, c: Care)
    requires Looks(s, t) && t.proc.None? && step.Start? && (c.clean ==> CleanStart(t))
    ensures Careful(s, step, c) && Unforgetting(s, step)
  {
  }

  /** An acknowledged receipt that stands alone is pruned. */
  lemma Prunes(s0: State, steps0: seq<Step>, s1: State, t: State, r: Receipt, c: Care) returns (steps: seq<Step>, s: State, u: State)
    requires At(s0, steps0, s1, t, c) && t.proc.Some? && t.proc.value.pass == Settling(r) && t.proc.value.box.receipts == [r]
    requires r.key != "" && t.proc.value.box.settled == [] && Listed(t.disk.trail) == [r]
    ensures var p := t.proc.value;
            u == t.(disk := t.disk.(trail := ParsedTrail([])),
                    proc := Some(p.(pass := Resting, answered := p.answered + {r.key},
                                    box := p.box.(receipts := [], settled := [r.key], owed := p.box.owed - {r.key}, dirty := false))))
    ensures At(s0, steps, s, u, c) && Seen(s1, s, u.disk.trail)
  {
    WalkPrune(s1, t);
    var p := t.proc.value;
    assert Settle([], r.key) == [r.key];
    u := t.(disk := t.disk.(trail := ParsedTrail([])),
            proc := Some(p.(pass := Resting, answered := p.answered + {r.key},
                            box := p.box.(receipts := [], settled := [r.key], owed := p.box.owed - {r.key}, dirty := false))));
    assert Careful(s1, PruneReceipt(true), c);
    assert Unforgetting(s1, PruneReceipt(true)) by { PruneRecalls(s1, r); }
    hide PlainAfter, Tame, PlainRun, Unforgetting, Careful;
    steps, s := Walk(s0, steps0, s1, PruneReceipt(true), c);
  }

  lemma PruneRecalls(s: State, r: Receipt)
    requires s.proc.Some? && s.proc.value.pass == Settling(r) && s.proc.value.box.settled == [] && r.key != ""
    requires Listed(s.disk.trail) == [r]
    ensures Unforgetting(s, PruneReceipt(true)) && Unforgetting(s, PruneReceipt(false))
  {
    hide Without, HasKey;
  }

  /** What the plain run shows of the files and the pass holds of the real run. */
  lemma ReadBack(s0: State, steps: seq<Step>, s: State, t: State, c: Care)
    requires Shape(s0) && s0.proc.None? && At(s0, steps, s, t, c)
    ensures CarefulRun(s0, steps, c)
    ensures var e := Run(s0, steps);
            && e.disk == t.disk && e.server == t.server && e.cfg == t.cfg && e.used == t.used
            && e.denials == s.denials && e.grants == s.grants
            && (e.proc.Some? <==> t.proc.Some?)
            && (t.proc.Some? ==> e.proc.value.pass == t.proc.value.pass && e.proc.value.box.receipts == t.proc.value.box.receipts)
  {
    TameIsReal(s0, steps, c);
    hide Shape, Run, PlainRun, Tame, CarefulRun, Remembering;
  }

  // ---------------------------------------------------------------- a denial whose record fails, judged before its mark

  function OldGrant(): RecordFile {
    SaveRecord(Grant, CFG.digest, Some(-10), true)
  }

  /** A recorded grant whose receipt was delivered long ago. */
  function Granted0(): State {
    State(CFG, Disk(MissingTrail, OldGrant()), None, [], {}, {}, {-10})
  }

  lemma Granted0Rests()
    ensures AtRest(Granted0()) && LogRest(Granted0(), false)
  {
  }

  function Proc0(): Proc {
    Proc(Granted, 0, PlainBox([], [], {}, false), Some(-10), None, None, [], Idle, Resting, Granted, [], {})
  }

  function Running(trail: TrailFile, used: set<string>, p: Proc): State {
    State(CFG, Disk(trail, OldGrant()), Some(p), [], used, {}, {})
  }

  /** A start over the old grant and an empty trail. */
  lemma StartsOver(x: State, t: State)
    requires Looks(x, t) && t.proc.None? && t.cfg == CFG && t.disk.record == OldGrant()
    requires t.disk.trail == MissingTrail || t.disk.trail == ParsedTrail([])
    ensures Looks(PlainAfter(x, Start(true, true)), t.(proc := Some(Proc0())))
  {
  }

  function Denial(): Receipt {
    MintReceipt(CFG, "d", Deny, 1, 10)
  }

  function Later(): Receipt {
    MintReceipt(CFG, "g", Grant, 2, 10)
  }

  /** Its record write has failed and filled the slot. */
  function Denying(slow: Slow): Proc {
    Serving(Proc0(), Deny, 1, slow).(recordOwed := Some(Owed(Deny, 1)))
  }

  /** The process starts over the old grant. */
  lemma Begun(c: Care) returns (steps: seq<Step>, s: State)
    ensures At(Granted0(), steps, s, Running(MissingTrail, {}, Proc0()), c) && s.grants == Granted0().grants
  {
    var s0 := Granted0();
    NoSteps(s0, c);
    StartsOver(s0, s0);
    hide PlainAfter, Tame, PlainRun;
    steps, s := Starts(s0, [], s0, s0, Start(true, true), s0.(proc := Some(Proc0())), c);
    SameLooks(s0, steps, s, s0.(proc := Some(Proc0())), Running(MissingTrail, {}, Proc0()), c);
  }

  /** The denial is admitted, and its record write fails. */
  lemma Filled(c: Care) returns (steps: seq<Step>, s: State)
    ensures At(Granted0(), steps, s, Running(MissingTrail, {}, Denying(DenySettled(Deny, 1, false))), c)
    ensures s.grants == Granted0().grants
  {
    steps, s := Begun(c);
    hide At;
    steps, s := Unrecorded(Granted0(), steps, s, Running(MissingTrail, {}, Proc0()), Proc0(), Deny, 1, c);
  }

  lemma SameLooks(s0: State, steps: seq<Step>, s: State, t: State, u: State, c: Care)
    requires At(s0, steps, s, t, c) && t == u.(denials := t.denials, grants := t.grants)
    ensures At(s0, steps, s, u, c)
  {
    hide Tame;
  }

  /** The denial in its window, its receipt's save landed or failed. */
  function InWindow(lands: bool, pass: Pass): State {
    Running(if lands then ParsedTrail([Denial()]) else MissingTrail, {"d"},
            Denying(DenyAppended(Denial(), false)).(box := PlainBox([Denial()], [], {}, !lands), pass := pass))
  }

  /** Its receipt is appended, or its save fails. */
  lemma InWindowNow(lands: bool, c: Care) returns (steps: seq<Step>, s: State)
    ensures At(Granted0(), steps, s, InWindow(lands, Resting), c)
    ensures s.grants == Granted0().grants && (lands ==> Denial().at in s.denials)
  {
    var s0 := Granted0();
    steps, s := Filled(c);
    InWindowIs(lands);
    hide At, FileBytes, Keying, Appending, Running, Denying, InWindow;
    var u := Running(MissingTrail, {}, Denying(DenySettled(Deny, 1, false)));
    steps, s := Mints(s0, steps, s, u, Denial(), DenyMinted(Denial(), false), c);
    steps, s := Appends(s0, steps, s, Keying(u, Denial(), DenyMinted(Denial(), false)), lands, c);
  }

  lemma InWindowIs(lands: bool)
    ensures var t := Running(MissingTrail, {}, Denying(DenySettled(Deny, 1, false)));
            && t.proc.Some? && t.proc.value.slow == DenySettled(Deny, 1, false) && t.cfg == CFG && t.used == {}
            && t.disk.trail == MissingTrail && Ungranted(MissingTrail)
            && var u := Keying(t, Denial(), DenyMinted(Denial(), false));
               && u.proc.Some? && u.proc.value.slow == DenyMinted(Denial(), false) && u.proc.value.box.receipts == []
               && FileBytes([] + [Denial()]) <= READ_LIMIT
               && Appending(u, lands) == InWindow(lands, Resting)
    ensures InWindow(lands, Resting).disk.trail == (if lands then ParsedTrail([Denial()]) else MissingTrail)
    ensures Ungranted(InWindow(lands, Resting).disk.trail)
  {
    assert [] + [Denial()] == [Denial()] && {} + {"d"} == {"d"};
    OneReceipt(Denial());
    hide FileBytes;
  }

  lemma EarlyChecks(lands: bool, c: Care)
    requires !c.calm && (!lands ==> !c.landed)
    ensures var t, u := InWindow(lands, Resting), InWindow(lands, Checking(Denial(), 0));
            && t.proc.Some? && t.cfg == CFG && t.(proc := Some(PickStep(CFG, t.proc.value))) == u
            && u.proc.Some? && u.cfg == CFG && u.(proc := Some(CheckStep(CFG, u.proc.value))) == InWindow(lands, Checking(Denial(), 1))
            && Careful(u, Check, c)
    ensures InWindow(lands, Checking(Denial(), 0)).disk.trail == InWindow(lands, Resting).disk.trail
    ensures Ungranted(InWindow(lands, Resting).disk.trail)
  {
  }

  /** A pass takes it up before its mark. */
  lemma PickedEarly(lands: bool, c: Care) returns (steps: seq<Step>, s: State)
    requires !c.calm && (!lands ==> !c.landed)
    ensures At(Granted0(), steps, s, InWindow(lands, Checking(Denial(), 0)), c)
    ensures s.grants == Granted0().grants && (lands ==> Denial().at in s.denials)
  {
    steps, s := InWindowNow(lands, c);
    EarlyChecks(lands, c);
    hide At, CheckStep, PickStep, Careful, InWindow, Granted0, Denial, Ungranted, FastHalf, BeginTurn, SlotStep, MarkStep, AnswerStep;
    steps, s := Picks(Granted0(), steps, s, InWindow(lands, Resting), c);
  }

  /** The pass judges its first hold before the mark. */
  lemma JudgedEarly(lands: bool, c: Care) returns (steps: seq<Step>, s: State)
    requires !c.calm && (!lands ==> !c.landed)
    ensures At(Granted0(), steps, s, InWindow(lands, Checking(Denial(), 1)), c)
    ensures s.grants == Granted0().grants && (lands ==> Denial().at in s.denials)
  {
    steps, s := PickedEarly(lands, c);
    EarlyChecks(lands, c);
    hide At, CheckStep, PickStep, Careful, InWindow, Granted0, Denial, Ungranted;
    var u;
    steps, s, u := Judge(Granted0(), steps, s, InWindow(lands, Checking(Denial(), 0)), c);
  }

  /** A grant at the lock, behind the denial under judgement. */
  function Overtaking(lands: bool, slow: Slow): State {
    Running(if lands then ParsedTrail([Denial()]) else MissingTrail, {"d"},
            Denying(slow).(live := Granted, tickets := [Ticket(Grant, 1)], accepted := [Deny, Grant], lastStamp := Some(2),
                           box := PlainBox([Denial()], [], {"d"}, !lands), pass := Checking(Denial(), 1)))
  }

  lemma OvertakingIs(lands: bool)
    ensures var t, u := InWindow(lands, Checking(Denial(), 1)), Overtaking(lands, GrantStamped(2));
            && t.proc.Some? && u.proc.Some? && t.cfg == CFG && Ungranted(t.disk.trail)
            && var m := MarkStep(t.proc.value);
               && m.slow == Served && m.tickets != []
               && t.(proc := Some(BeginTurn(FastHalf(m.(tickets := m.tickets[1..], slow := Idle), Grant), 2, true))) == u
  {
    EarlyMarked(lands);
    assert [] + [Deny] == [Deny] && [Deny] + [Grant] == [Deny, Grant];
    assert [] + [Ticket(Grant, 1)] == [Ticket(Grant, 1)];
    hide MarkStep;
  }

  lemma EarlyMarked(lands: bool)
    ensures var p := InWindow(lands, Checking(Denial(), 1)).proc.value;
            MarkStep(p) == p.(slow := Served, box := PlainBox([Denial()], [], {"d"}, !lands)) && p.tickets[1..] == []
  {
    assert {} + {"d"} == {"d"};
    assert [Ticket(Deny, 0)][1..] == [];
  }

  /** The denial is marked and served; a grant takes the next turn. */
  lemma Overtaken(lands: bool, c: Care) returns (steps: seq<Step>, s: State)
    requires !c.calm && (!lands ==> !c.landed)
    ensures At(Granted0(), steps, s, Overtaking(lands, GrantStamped(2)), c)
    ensures s.grants == Granted0().grants && (lands ==> Denial().at in s.denials)
  {
    var s0 := Granted0();
    steps, s := JudgedEarly(lands, c);
    OvertakingIs(lands);
    hide At, MarkStep, FastHalf, BeginTurn, InWindow, Overtaking;
    var u;
    steps, s, u := Serves(s0, steps, s, InWindow(lands, Checking(Denial(), 1)), c);
    steps, s, u := Move(s0, steps, s, u, Decide(Grant), c);
    steps, s, u := Move(s0, steps, s, u, Begin(2, true), c);
  }

  /** Over a grant's slot the remaining holds of a denial pass. */
  lemma OtherHoldsPass(t: State, n: nat, c: Care)
    requires t.proc.Some? && t.proc.value.pass == Checking(Denial(), n) && 1 <= n <= 3 && !IsDenial(t.proc.value.recordOwed)
    ensures CheckStep(CFG, t.proc.value) == t.proc.value.(pass := if n < 3 then Checking(Denial(), n + 1) else Cleared(Denial()))
    ensures Careful(t, Check, c)
  {
    hide NewerDenialHeld;
  }

  /** Three more checks of a denial over a grant's slot clear it. */
  lemma Clears(s0: State, steps0: seq<Step>, s1: State, t: State, c: Care) returns (steps: seq<Step>, s: State, u: State)
    requires At(s0, steps0, s1, t, c) && t.proc.Some? && t.cfg == CFG
    requires t.proc.value.pass == Checking(Denial(), 1) && !IsDenial(t.proc.value.recordOwed)
    ensures u == t.(proc := Some(t.proc.value.(pass := Cleared(Denial())))) && At(s0, steps, s, u, c) && Seen(s1, s, t.disk.trail)
  {
    hide At, CheckStep, Careful;
    OtherHoldsPass(t, 1, c);
    steps, s, u := Judge(s0, steps0, s1, t, c);
    OtherHoldsPass(u, 2, c);
    steps, s, u := Judge(s0, steps, s, u, c);
    OtherHoldsPass(u, 3, c);
    steps, s, u := Judge(s0, steps, s, u, c);
  }

  // ---------------------------------------------------------------- first limit: a pair broken by a raced mark

  /** The grant's receipt is appended or not, its record is not written, and its slot replaces the denial's. */
  function SlotTaken(lands: bool): State {
    var t := Overtaking(lands, GrantSettled(Later()));
    var p := t.proc.value;
    t.(used := {"d", "g"}, disk := t.disk.(trail := if lands then ParsedTrail([Denial(), Later()]) else MissingTrail),
       proc := Some(p.(box := PlainBox([Denial(), Later()], [], {"d"}, !lands), recordOwed := Some(Owed(Grant, 2)))))
  }

  /** The grant's receipt in its window. */
  function SlotAppended(lands: bool): State {
    var t := SlotTaken(lands);
    t.(proc := Some(t.proc.value.(slow := GrantAppended(Later(), lands), recordOwed := Some(Owed(Deny, 1)))))
  }

  lemma TwoReceipts()
    ensures FileBytes([Denial(), Later()]) <= READ_LIMIT
  {
    assert [Denial(), Later()][1..] == [Later()];
    OneReceipt(Later());
  }

  lemma SlotOverwritten(lands: bool, c: Care) returns (steps: seq<Step>, s: State)
    requires !c.calm && (!lands ==> !c.landed)
    ensures At(Granted0(), steps, s, SlotTaken(lands), c)
  {
    var s0 := Granted0();
    steps, s := Overtaken(lands, c);
    SlotAppendedIs(lands);
    hide At, FileBytes, Keying, Appending, Overtaking, SlotAppended, SlotTaken;
    var u := Overtaking(lands, GrantStamped(2));
    steps, s := Mints(s0, steps, s, u, Later(), GrantMinted(Later()), c);
    steps, s := Appends(s0, steps, s, Keying(u, Later(), GrantMinted(Later())), lands, c);
    steps, s := SlotSettles(s0, steps, s, lands, c);
  }

  lemma SlotAppendedIs(lands: bool)
    ensures var t := Overtaking(lands, GrantStamped(2));
            && t.proc.Some? && t.proc.value.slow == GrantStamped(2) && t.cfg == CFG && t.used == {"d"}
            && var u := Keying(t, Later(), GrantMinted(Later()));
               && u.proc.Some? && u.proc.value.slow == GrantMinted(Later()) && u.proc.value.box.receipts == [Denial()]
               && FileBytes([Denial()] + [Later()]) <= READ_LIMIT
               && Appending(u, lands) == SlotAppended(lands)
  {
    TwoReceipts();
    assert [Denial()] + [Later()] == [Denial(), Later()] && {"d"} + {"g"} == {"d", "g"};
    hide FileBytes;
  }

  lemma SlotSettles(s0: State, steps0: seq<Step>, s1: State, lands: bool, c: Care) returns (steps: seq<Step>, s: State)
    requires At(s0, steps0, s1, SlotAppended(lands), c)
    ensures At(s0, steps, s, SlotTaken(lands), c)
  {
    var u := SlotAppended(lands);
    steps, s := steps0, s1;
    hide At;
    if lands { steps, s, u := Move(s0, steps, s, u, WriteRecord(false), c); }
    steps, s, u := Move(s0, steps, s, u, SettleSlot, c);
    assert u == SlotTaken(lands);
  }

  /**
   Without the condition on races, pair before dispatch fails: the pass judged the denial's first
   hold before its mark, a later grant took the slot the fourth hold looks at, and the denial is
   cleared for posting over a record older than it. The run meets every other condition.
   */
  lemma RacedDenialLeavesItsPair() returns (s0: State, steps: seq<Step>)
    ensures AtRest(s0) && CarefulRun(s0, steps, ALL.(calm := false))
    ensures var e := Run(s0, steps);
            && e.proc.Some? && e.proc.value.pass == Cleared(Denial())
            && !Absorbing(e.disk.record) && !Covers(e.disk.record, Denial().at)
  {
    hide Run, Tame, CarefulRun, At;
    s0 := Granted0();
    Granted0Rests();
    var s, u;
    steps, s := SlotOverwritten(true, ALL.(calm := false));
    steps, s, u := Clears(s0, steps, s, SlotTaken(true), ALL.(calm := false));
    ReadBack(s0, steps, s, u, ALL.(calm := false));
  }

  // ---------------------------------------------------------------- second limit: a pair broken by an eviction

  /** Keys of every length. */
  function KeyOf(n: nat): string {
    seq(n + 1, _ => 'k')
  }

  function Old(n: nat): Receipt {
    MintReceipt(CFG, KeyOf(n), Deny, n as int + 1, 10)
  }

  function Olds(n: nat): seq<Receipt> {
    seq(n, i requires 0 <= i < n => Old(i))
  }

  /** A full trail of denials over the old record. */
  function Full0(): State {
    State(CFG, Disk(ParsedTrail(Olds(CAP)), OldGrant()), None, [], set i | 0 <= i < CAP :: KeyOf(i),
          set i | 0 <= i < CAP :: Old(i).at, {-10})
  }

  lemma OldsAre(n: nat)
    ensures forall i, j :: 0 <= i < j < n ==> Olds(n)[i].at < Olds(n)[j].at && Olds(n)[i].key != Olds(n)[j].key
    ensures forall i :: 0 <= i < n ==> Olds(n)[i] == Old(i) && Old(i).key != "" && InScope(Old(i), ME) && !Old(i).granted
  {
    forall i, j | 0 <= i < j < n ensures KeyOf(i) != KeyOf(j) { assert |KeyOf(i)| != |KeyOf(j)|; }
  }

  lemma Full0Rests()
    ensures AtRest(Full0()) && CleanStart(Full0())
  {
    var rs := Olds(CAP);
    OldsAre(CAP);
    FullObserved();
    forall k | HasKey(rs, k) ensures k in Full0().used { var i :| 0 <= i < |rs| && rs[i].key == k; assert KeyOf(i) == k; }
    assert rs[|rs| - 1] == Old(CAP - 1);
    hide KeyOf, Olds;
  }

  lemma FullObserved()
    ensures forall e :: e in Olds(CAP) ==> e.at in Full0().denials && !e.granted
    ensures forall x :: x in Full0().denials ==> x <= CAP
  {
    var rs := Olds(CAP);
    OldsAre(CAP);
    forall i | 0 <= i < CAP ensures Old(i).at in Full0().denials {}
    forall e | e in rs ensures e.at in Full0().denials && !e.granted { var i :| 0 <= i < |rs| && rs[i] == e; }
    hide KeyOf;
  }

  const EVICTED := ALL.(kept := false)

  /** The process over the full trail: its start could not heal the record. */
  function FullProc(): Proc {
    var p := Boot(CFG, Full0().disk, false, true).1;
    p.(box := Simplify(p.box))
  }

  lemma FullProcIs()
    ensures var p := FullProc();
            && Plainly(p) && p.slow == Idle && p.pass == Resting && p.tickets == [] && p.lastStamp == Some(CAP) && p.live == Denied
            && p.mintOwed.None? && IsDenial(p.recordOwed) && p.box.receipts == Olds(CAP) && p.box.settled == [] && !p.box.dirty
    ensures Boot(CFG, Full0().disk, false, true).0 == Full0().disk
  {
    Full0Rests();
    OldsAre(CAP);
    assert Olds(CAP)[CAP - 1] == Old(CAP - 1);
    hide Boot, Conclude, Resolve, Olds, KeyOf;
    BootPlain(Full0(), false, true);
    LoadBoxLists(Full0().disk.trail, ME);
  }

  lemma FullStarts(s: State)
    requires Looks(s, Full0())
    ensures Looks(PlainAfter(s, Start(false, true)), Full0().(proc := Some(FullProc())))
  {
    FullProcIs();
    hide Boot, Olds, KeyOf;
  }

  function New(): Receipt {
    MintReceipt(CFG, "n", Deny, 40, 10)
  }

  /** A pass holds the oldest receipt of the full trail. */
  function Held0(): Proc {
    FullProc().(pass := Checking(Old(0), 0))
  }

  lemma FullPicks()
    ensures PickStep(CFG, FullProc()) == Held0()
    ensures var p := Held0(); p.slow == Idle && p.tickets == [] && MayDeny(p, Deny, 40)
  {
    FullProcIs();
    OldsAre(CAP);
    assert Olds(CAP)[0] == Old(0);
    hide FullProc, Olds, KeyOf;
  }

  lemma FullPicked() returns (steps: seq<Step>, s: State)
    ensures At(Full0(), steps, s, Full0().(proc := Some(Held0())), EVICTED)
  {
    var s0 := Full0();
    var t := s0.(proc := Some(FullProc()));
    NoSteps(s0, EVICTED);
    FullStarts(s0);
    FullProcIs();
    Full0Rests();
    FullPicks();
    hide PlainAfter, Tame, PlainRun, FullProc, Full0, Olds, PickStep, Old, Held0;
    steps, s := Starts(s0, [], s0, s0, Start(false, true), t, EVICTED);
    hide At;
    steps, s := Picks(s0, steps, s, t, EVICTED);
  }

  /** Then a denial's record write fails, and its receipt gets its key. */
  function Crowded(): State {
    Keying(Full0().(proc := Some(Failing(Held0(), Deny, 40))), New(), DenyMinted(New(), false))
  }

  lemma CrowdedNow() returns (steps: seq<Step>, s: State)
    ensures At(Full0(), steps, s, Crowded(), EVICTED)
  {
    steps, s := FullPicked();
    FullPicks();
    NewKey();
    hide At, Full0, Held0, MayDeny;
    steps, s := Unrecorded(Full0(), steps, s, Full0().(proc := Some(Held0())), Held0(), Deny, 40, EVICTED);
    steps, s := Mints(Full0(), steps, s, Full0().(proc := Some(Failing(Held0(), Deny, 40))), New(), DenyMinted(New(), false), EVICTED);
  }

  lemma NewKey()
    ensures New().key !in Full0().used && Full0().cfg == CFG
  {
    forall i | 0 <= i < CAP ensures KeyOf(i) != "n" { assert KeyOf(i)[0] == 'k'; }
  }

  lemma {:induction false} TenBytes(rs: seq<Receipt>)
    requires forall i :: 0 <= i < |rs| ==> rs[i].bytes == 10
    ensures SumBytes(rs) == 10 * |rs|
  {
    if rs != [] { TenBytes(rs[1..]); }
  }

  lemma ShortEnough(rs: seq<Receipt>)
    requires |rs| <= CAP && forall i :: 0 <= i < |rs| ==> rs[i].bytes == 10
    ensures FileBytes(rs) <= READ_LIMIT
  {
    TenBytes(rs);
  }

  /** The list after the append: the oldest is gone, the new one is last. */
  function Shifted(): seq<Receipt> {
    Olds(CAP)[1..] + [New()]
  }

  lemma ShiftedIs()
    ensures (Olds(CAP) + [New()])[1..] == Shifted() && |Shifted()| == CAP && FileBytes(Shifted()) <= READ_LIMIT
    ensures KeysOf((Olds(CAP) + [New()])[..1]) == [Old(0).key]
    ensures Shifted()[CAP - 1] == New() && New().key != Old(0).key && forall i :: 0 <= i < CAP ==> Shifted()[i].key != Old(0).key
  {
    OldsAre(CAP);
    var rs := Shifted();
    assert Olds(CAP)[0] == Old(0);
    assert New().key != Old(0).key by { NewKey(); assert KeyOf(0) in Full0().used; }
    hide KeyOf, Olds, FileBytes, Full0;
    forall i | 0 <= i < CAP ensures rs[i].bytes == 10 && rs[i].key != Old(0).key {
      if i < CAP - 1 { assert rs[i] == Olds(CAP)[i + 1]; }
    }
    assert FileBytes(rs) <= READ_LIMIT by { ShortEnough(rs); }
    assert (Olds(CAP) + [New()])[..1] == [Old(0)];
  }

  /** The append evicts the oldest receipt, and its mark with it. */
  function Evicting(): Proc {
    var p := Crowded().proc.value;
    p.(slow := DenyAppended(New(), false),
       box := p.box.(receipts := Shifted(), settled := SettleAll(p.box.settled, [Old(0).key]),
                     owed := p.box.owed - (set k | k in [Old(0).key]), evicted := p.box.evicted + 1, dirty := false))
  }

  lemma WalkEvicts(s: State)
    requires Looks(s, Crowded())
    ensures Looks(PlainAfter(s, AppendReceipt(true)),
                  Crowded().(disk := Crowded().disk.(trail := ParsedTrail(Shifted())), proc := Some(Evicting())))
    ensures Plainly(Evicting())
  {
    ShiftedIs();
    FullProcIs();
    hide FullProc, Full0, Olds, FileBytes, SettleAll, KeysOf, Shifted;
    EvictingBox(s.proc.value.box);
    assert PlainNext(s, AppendReceipt(true)).proc == Some(Evicting());
    hide PlainNext, Evicting;
    EvictingPlain();
  }

  lemma EvictingPlain()
    ensures Plainly(Evicting())
  {
    FullProcIs();
    hide FullProc, Full0, Olds, SettleAll, KeysOf, Shifted;
  }

  lemma EvictingBox(box: Outbox)
    requires box.receipts == Olds(CAP)
    ensures PlainSaved(box.(receipts := Olds(CAP) + [New()]), MissingTrail, true).0 ==
              box.(receipts := Shifted(), settled := SettleAll(box.settled, [Old(0).key]),
                   owed := box.owed - (set k | k in [Old(0).key]), evicted := box.evicted + 1, dirty := false)
    ensures forall file :: PlainSaved(box.(receipts := Olds(CAP) + [New()]), file, true)
                             == (PlainSaved(box.(receipts := Olds(CAP) + [New()]), MissingTrail, true).0, ParsedTrail(Shifted()))
  {
    ShiftedIs();
    assert |Olds(CAP)| == CAP;
    hide Olds, FileBytes, SettleAll, KeysOf, Shifted;
  }

  lemma EvictingIs()
    ensures var p := Evicting();
            && IsDenial(p.recordOwed) && p.slow == DenyAppended(New(), false) && Old(0).key !in p.box.owed
            && Latest(p.box.receipts, ME) == Some(New()) && New().key != Old(0).key && !Old(0).granted && New() != Old(0)
  {
    ShiftedIs();
    OldsAre(CAP);
    hide Shifted, Olds, FullProc, Full0, SettleAll;
  }

  /** Without its mark, and not the trail's end, the evicted receipt passes every hold of a denial. */
  lemma EvictedPasses(t: State, p: Proc, n: nat)
    requires n < 4 && p == Evicting().(pass := Checking(Old(0), n)) && t.proc == Some(p)
    ensures CheckStep(CFG, p) == p.(pass := if n < 3 then Checking(Old(0), n + 1) else Cleared(Old(0)))
    ensures Careful(t, Check, EVICTED)
  {
    EvictingIs();
    hide Evicting, Old, New, NewerDenialHeld, Latest, Covers;
  }

  /**
   Without the condition on evictions, pair before dispatch fails: over a full trail the append of a new
   denial's receipt evicts the oldest one, which a pass is about to judge, and its mark with it. The
   receipt is cleared for posting although no record covers it. The run meets every other condition.
   */
  lemma EvictedReceiptLeavesItsPair() returns (s0: State, steps: seq<Step>, r: Receipt)
    ensures AtRest(s0) && CarefulRun(s0, steps, EVICTED)
    ensures var e := Run(s0, steps);
            && e.proc.Some? && e.proc.value.pass == Cleared(r) && r !in e.proc.value.box.receipts
            && !Absorbing(e.disk.record) && !Covers(e.disk.record, r.at)
  {
    s0, r := Full0(), Old(0);
    var s, u;
    steps, s, u := EvictedClears();
    Full0Rests();
    EvictedGone();
    hide Run, Tame, CarefulRun, At, Evicting;
    ReadBack(s0, steps, s, u, EVICTED);
  }

  lemma EvictedGone()
    ensures Old(0) !in Evicting().box.receipts
  {
    ShiftedIs();
    hide Shifted, FullProc, Failing;
  }

  lemma EvictedClears() returns (steps: seq<Step>, s: State, u: State)
    ensures u == Crowded().(disk := Crowded().disk.(trail := ParsedTrail(Shifted())),
                            proc := Some(Evicting().(pass := Cleared(Old(0)))))
    ensures At(Full0(), steps, s, u, EVICTED)
  {
    steps, s := CrowdedNow();
    WalkEvicts(s);
    CrowdedPass();
    hide PlainAfter, Tame, PlainRun, Crowded, Evicting, CheckStep, Careful, Old, Shifted;
    u := Crowded().(disk := Crowded().disk.(trail := ParsedTrail(Shifted())), proc := Some(Evicting()));
    steps, s := Take(Full0(), steps, s, Crowded(), AppendReceipt(true), u, EVICTED);
    hide At;
    var n := 0;
    var v := u;
    while n < 4
      invariant 0 <= n <= 4 && At(Full0(), steps, s, v, EVICTED)
      invariant v == u.(proc := Some(Evicting().(pass := if n < 4 then Checking(Old(0), n) else Cleared(Old(0)))))
    {
      EvictedPasses(v, v.proc.value, n);
      steps, s, v := Judge(Full0(), steps, s, v, EVICTED);
      n := n + 1;
    }
    u := v;
  }

  lemma CrowdedPass()
    ensures Crowded().cfg == CFG && Evicting().pass == Checking(Old(0), 0)
  {
    hide FullProc, Shifted;
  }

  // ---------------------------------------------------------------- third limit: a denial lost to a grant without a key

  const KEYLESS := ALL.(keyed := false, calm := false)

  function SlotKeyless(): State {
    var t := Overtaking(true, Served);
    t.(proc := Some(t.proc.value.(recordOwed := Some(Owed(Grant, 2)), mintOwed := Some(Owed(Grant, 2)))))
  }

  lemma KeylessIs()
    ensures var t := Overtaking(true, GrantStamped(2));
            && t.proc.Some? && t.cfg == CFG && Ungranted(t.disk.trail)
            && SlotKeyless() == t.(proc := Some(SlotStep(MintFails(t.proc.value))))
    ensures var u := SlotKeyless();
            && u.proc.Some? && u.cfg == CFG && u.disk == Disk(ParsedTrail([Denial()]), OldGrant()) && u.server == [] && u.used == {"d"}
            && u.proc.value.pass == Checking(Denial(), 1) && !IsDenial(u.proc.value.recordOwed)
            && u.proc.value.box.receipts == [Denial()] && u.proc.value.box.settled == []
  {
  }

  /** The grant's key cannot be minted, and its slot replaces the denial's all the same. */
  lemma SlotWithoutReceipt() returns (steps: seq<Step>, s: State)
    ensures At(Granted0(), steps, s, SlotKeyless(), KEYLESS)
    ensures s.grants == Granted0().grants && Denial().at in s.denials
  {
    steps, s := Overtaken(true, KEYLESS);
    KeylessIs();
    hide At, Overtaking, SlotKeyless, SlotStep, MintFails, Ungranted, Granted0, Denial;
    steps, s := Unminted(Granted0(), steps, s, Overtaking(true, GrantStamped(2)), KEYLESS);
  }

  lemma Unminted(s0: State, steps0: seq<Step>, s1: State, t: State, c: Care) returns (steps: seq<Step>, s: State)
    requires At(s0, steps0, s1, t, c) && t.proc.Some? && !c.keyed
    ensures At(s0, steps, s, t.(proc := Some(SlotStep(MintFails(t.proc.value)))), c) && Seen(s1, s, t.disk.trail)
  {
    hide At, SlotStep, MintFails;
    var u;
    steps, s, u := Move(s0, steps0, s1, t, Mint(None, 0), c);
    steps, s, u := Move(s0, steps, s, u, SettleSlot, c);
  }

  /** After the denial has been delivered and pruned, and a crash. */
  function Lost(trail: TrailFile, used: set<string>): State {
    State(CFG, Disk(trail, OldGrant()), None, [Denial()], used, {}, {})
  }

  /** The denial is cleared, posted, acknowledged and pruned, and the process crashes. */
  lemma DenialDelivered() returns (steps: seq<Step>, s: State)
    ensures At(Granted0(), steps, s, Lost(ParsedTrail([]), {"d"}), KEYLESS)
    ensures s.grants == Granted0().grants && Denial().at in s.denials
  {
    var s0 := Granted0();
    steps, s := SlotWithoutReceipt();
    KeylessIs();
    hide At, SlotKeyless, Granted0;
    var u;
    assert Ungranted(ParsedTrail([Denial()])) && Ungranted(ParsedTrail([]));
    assert [] + [Denial()] == [Denial()];
    hide Denial, OldGrant, Ungranted;
    steps, s, u := Clears(s0, steps, s, SlotKeyless(), KEYLESS);
    steps, s, u := Posts(s0, steps, s, u, Denial(), KEYLESS);
    steps, s, u := Move(s0, steps, s, u, Answer(Ack), KEYLESS);
    assert Denial().key != "" by { DenialKey(); }
    steps, s, u := Prunes(s0, steps, s, u, Denial(), KEYLESS);
    steps, s := Crashes(s0, steps, s, u, KEYLESS);
    SameLooks(s0, steps, s, u.(proc := None), Lost(ParsedTrail([]), {"d"}), KEYLESS);
  }

  lemma DenialKey()
    ensures Denial().key != ""
  {
  }

  /**
   Without the conditions on mints and on races together, the crash-closed denial fails: the denial was
   judged before its mark, a grant without a key took its slot, its receipt was on disk and is delivered
   and pruned, no newer grant's receipt ever was, and a restart resolves to granted.
   */
  lemma KeylessGrantLosesTheDenial() returns (s0: State, steps: seq<Step>)
    ensures AtRest(s0) && CarefulRun(s0, steps, KEYLESS)
    ensures var e := Run(s0, steps);
            && Denial().at in e.denials && (forall g :: g in e.grants ==> g < Denial().at)
            && Resolve(e.cfg, e.disk) == Granted
  {
    s0 := Granted0();
    Granted0Rests();
    EmptyGranted();
    var s;
    steps, s := DenialDelivered();
    hide Run, Tame, CarefulRun, At, Resolve, OldGrant;
    ReadBack(s0, steps, s, Lost(ParsedTrail([]), {"d"}), KEYLESS);
  }

  lemma EmptyGranted()
    ensures Resolve(CFG, Disk(ParsedTrail([]), OldGrant())) == Granted
  {
  }

  // ---------------------------------------------------------------- wire order: an older stamp after a newer one

  /** Decided after a restart whose clock is behind. */
  function Behind(): Receipt {
    MintReceipt(CFG, "e", Deny, -3, 10)
  }

  lemma Disordered(log: seq<Receipt>, a: Receipt, b: Receipt)
    requires log == [a, b] && b.at <= a.at
    ensures !Ordered(log, false)
  {
    assert log[0] == a && log[1] == b;
  }

  /** With the denial delivered and nothing newer than the old record on disk, a restart gives an older stamp. */
  lemma OlderFollows(s0: State, steps0: seq<Step>, s1: State, trail: TrailFile, used: set<string>, c: Care)
    returns (steps: seq<Step>, s: State, u: State)
    requires At(s0, steps0, s1, Lost(trail, used), c) && (trail == MissingTrail || trail == ParsedTrail([])) && "e" !in used
    ensures At(s0, steps, s, u, c) && u.server == [Denial(), Behind()]
  {
    var v := Lost(trail, used).(proc := Some(Proc0()));
    steps, s := StartedOver(s0, steps0, s1, trail, used, c);
    hide At, Standing;
    steps, s := Stands(s0, steps, s, v, Proc0(), Deny, Behind(), true, c);
    BehindStands(v);
    steps, s, u := AloneCleared(s0, steps, s, Standing(v, Proc0(), Deny, Behind(), true), Behind(), c);
    steps, s, u := Posts(s0, steps, s, u, Behind(), c);
    assert [Denial()] + [Behind()] == [Denial(), Behind()];
  }

  lemma StartedOver(s0: State, steps0: seq<Step>, s1: State, trail: TrailFile, used: set<string>, c: Care)
    returns (steps: seq<Step>, s: State)
    requires At(s0, steps0, s1, Lost(trail, used), c) && (trail == MissingTrail || trail == ParsedTrail([]))
    ensures At(s0, steps, s, Lost(trail, used).(proc := Some(Proc0())), c)
  {
    var t := Lost(trail, used);
    StartsOver(s1, t);
    hide PlainAfter, Tame, PlainRun;
    steps, s := Starts(s0, steps0, s1, t, Start(true, true), t.(proc := Some(Proc0())), c);
  }

  lemma BehindStands(v: State)
    requires v.cfg == CFG && v.server == [Denial()]
    ensures var t := Standing(v, Proc0(), Deny, Behind(), true);
            && t.proc.Some? && t.cfg == CFG && t.server == v.server && !HasKey(t.server, Behind().key)
            && var p := t.proc.value;
               && p.pass == Resting && p.slow == Idle && p.recordOwed.None? && p.box.owed == {} && p.box.receipts == [Behind()]
  {
  }

  /** The same two conditions are needed for the wire order. */
  lemma KeylessGrantReorders() returns (s0: State, steps: seq<Step>)
    ensures AtRest(s0) && LogRest(s0, false) && CarefulRun(s0, steps, KEYLESS)
    ensures !Ordered(Run(s0, steps).server, false)
  {
    s0 := Granted0();
    Granted0Rests();
    var s, u;
    steps, s := DenialDelivered();
    steps, s, u := OlderFollows(s0, steps, s, ParsedTrail([]), {"d"}, KEYLESS);
    Disordered(u.server, Denial(), Behind());
    hide Run, Tame, CarefulRun, At, Ordered;
    ReadBack(s0, steps, s, u, KEYLESS);
  }

  const UNLANDED := ALL.(calm := false, landed := false)

  /** The grant's receipt is not on disk either when the process posts the denial and crashes. */
  lemma UnlandedDelivered() returns (steps: seq<Step>, s: State)
    ensures At(Granted0(), steps, s, Lost(MissingTrail, {"d", "g"}), UNLANDED)
  {
    var s0 := Granted0();
    var t := SlotTaken(false);
    steps, s := SlotOverwritten(false, UNLANDED);
    var u;
    TakenIs();
    hide At, SlotTaken, Granted0, Denial, OldGrant;
    steps, s, u := Clears(s0, steps, s, t, UNLANDED);
    steps, s, u := Posts(s0, steps, s, u, Denial(), UNLANDED);
    steps, s := Crashes(s0, steps, s, u, UNLANDED);
    assert [] + [Denial()] == [Denial()];
    SameLooks(s0, steps, s, u.(proc := None), Lost(MissingTrail, {"d", "g"}), UNLANDED);
  }

  lemma TakenIs()
    ensures var t := SlotTaken(false);
            && t.proc.Some? && t.cfg == CFG && t.disk == Disk(MissingTrail, OldGrant()) && t.server == [] && t.used == {"d", "g"}
            && t.proc.value.pass == Checking(Denial(), 1) && !IsDenial(t.proc.value.recordOwed)
  {
  }

  /**
   Without the condition on judgements after a failed append, wire order fails although every key is
   minted: neither the denial's record nor its receipt is on disk when the pass judges it, a later grant's
   failed append takes its slot, the denial is processed, and after a crash a start with the clock behind
   gives an older stamp.
   */
  lemma UnlandedDenialReorders() returns (s0: State, steps: seq<Step>)
    ensures AtRest(s0) && LogRest(s0, false) && CarefulRun(s0, steps, UNLANDED)
    ensures !Ordered(Run(s0, steps).server, false)
  {
    s0 := Granted0();
    Granted0Rests();
    var s, u;
    steps, s := UnlandedDelivered();
    steps, s, u := OlderFollows(s0, steps, s, MissingTrail, {"d", "g"}, UNLANDED);
    Disordered(u.server, Denial(), Behind());
    hide Run, Tame, CarefulRun, At, Ordered;
    ReadBack(s0, steps, s, u, UNLANDED);
  }

  // ---- a start under an older forced-minor record

  const UNCLEAN := ALL.(clean := false)

  function Minor(key: string, at: int): Receipt {
    MintReceipt(CFG, key, ForcedMinor, at, 10)
  }

  function MinorRecord(at: int): RecordFile {
    SaveRecord(ForcedMinor, CFG.digest, Some(at), true)
  }

  /** A second forced-minor decision left its receipt but not its record. */
  function Minor0(): State {
    State(CFG, Disk(ParsedTrail([Minor("a", 9)]), MinorRecord(5)), None, [], {"a"}, {5, 9}, {})
  }

  lemma Minor0Rests()
    ensures AtRest(Minor0()) && LogRest(Minor0(), false)
  {
  }

  function MinorProc(rs: seq<Receipt>, last: int): Proc {
    Proc(DeniedForcedMinor, 0, PlainBox(rs, [], {}, false), Some(last), None, None, [], Idle, Resting, DeniedForcedMinor, [], {})
  }

  /** An older forced-minor record keeps the start from healing, and from owing. */
  lemma MinorStarts(s: State, t: State)
    requires Looks(s, t) && t.proc.None? && t.cfg == CFG && t.disk.record == MinorRecord(5)
    requires t.disk.trail == ParsedTrail([]) || t.disk.trail == ParsedTrail([Minor("a", 9)])
    ensures Looks(PlainAfter(s, Start(true, true)),
                  t.(proc := Some(MinorProc(Listed(t.disk.trail), if t.disk.trail == ParsedTrail([]) then 5 else 9))))
  {
  }

  /** A receipt alone in mirror and file, with nothing owed, is delivered, and the process crashes. */
  lemma AloneDelivered(s0: State, steps0: seq<Step>, s1: State, t: State, r: Receipt, c: Care) returns (steps: seq<Step>, s: State)
    requires At(s0, steps0, s1, t, c) && t.proc.Some? && t.cfg == CFG && InScope(r, ME) && !r.granted && r.key != ""
    requires var p := t.proc.value;
             p.pass == Resting && p.slow == Idle && p.recordOwed.None? && p.box.owed == {} && p.box.receipts == [r] && p.box.settled == []
    requires Listed(t.disk.trail) == [r] && !HasKey(t.server, r.key)
    ensures At(s0, steps, s, t.(server := t.server + [r], disk := t.disk.(trail := ParsedTrail([])), proc := None), c)
  {
    hide At, HasKey;
    var u;
    steps, s, u := AloneCleared(s0, steps0, s1, t, r, c);
    steps, s, u := Posts(s0, steps, s, u, r, c);
    steps, s, u := Move(s0, steps, s, u, Answer(Ack), c);
    steps, s, u := Prunes(s0, steps, s, u, r, c);
    steps, s := Crashes(s0, steps, s, u, c);
  }

  /** The first start delivers the newer receipt and crashes; the second one's clock is behind. */
  lemma MinorDelivered() returns (steps: seq<Step>, s: State, t: State)
    ensures t == State(CFG, Disk(ParsedTrail([]), MinorRecord(5)), Some(MinorProc([], 5)), [Minor("a", 9)], {"a"}, {5, 9}, {})
    ensures At(Minor0(), steps, s, t, UNCLEAN)
  {
    var s0 := Minor0();
    var p := MinorProc([Minor("a", 9)], 9);
    NoSteps(s0, UNCLEAN);
    MinorStarts(s0, s0);
    hide PlainAfter, Tame, PlainRun;
    steps, s := Starts(s0, [], s0, s0, Start(true, true), s0.(proc := Some(p)), UNCLEAN);
    assert [] + [Minor("a", 9)] == [Minor("a", 9)];
    steps, s := AloneDelivered(s0, steps, s, s0.(proc := Some(p)), Minor("a", 9), UNCLEAN);
    t := State(CFG, Disk(ParsedTrail([]), MinorRecord(5)), None, [Minor("a", 9)], {"a"}, {5, 9}, {});
    MinorStarts(s, t);
    steps, s := Starts(s0, steps, s, t, Start(true, true), t.(proc := Some(MinorProc([], 5))), UNCLEAN);
    t := t.(proc := Some(MinorProc([], 5)));
  }

  lemma MinorStands(v: State)
    requires v.cfg == CFG && v.server == [Minor("a", 9)]
    ensures var t := Standing(v, MinorProc([], 5), ForcedMinor, Minor("b", 6), true);
            && t.proc.Some? && t.cfg == CFG && t.server == v.server && !HasKey(t.server, Minor("b", 6).key)
            && var p := t.proc.value;
               && p.pass == Resting && p.slow == Idle && p.recordOwed.None? && p.box.owed == {} && p.box.receipts == [Minor("b", 6)]
  {
  }

  /**
   Without the condition on starts, wire order fails: the older forced-minor record kept the first
   start from healing, the receipt it does not cover was delivered and pruned, and after a restart with
   the clock behind the server processes an older stamp. The run meets every other condition.
   */
  lemma OlderMinorRecordReorders() returns (s0: State, steps: seq<Step>)
    ensures AtRest(s0) && LogRest(s0, false) && CarefulRun(s0, steps, UNCLEAN)
    ensures !Ordered(Run(s0, steps).server, false)
  {
    s0 := Minor0();
    Minor0Rests();
    var s, t;
    steps, s, t := MinorDelivered();
    hide At, Run, Tame, CarefulRun, Ordered;
    steps, s, t := MinorReordered(s0, steps, s, t);
    Disordered(t.server, Minor("a", 9), Minor("b", 6));
    ReadBack(s0, steps, s, t, UNCLEAN);
  }

  lemma MinorReordered(s0: State, steps0: seq<Step>, s1: State, t: State) returns (steps: seq<Step>, s: State, u: State)
    requires At(s0, steps0, s1, t, UNCLEAN)
    requires t == State(CFG, Disk(ParsedTrail([]), MinorRecord(5)), Some(MinorProc([], 5)), [Minor("a", 9)], {"a"}, {5, 9}, {})
    ensures At(s0, steps, s, u, UNCLEAN) && u.server == [Minor("a", 9), Minor("b", 6)]
  {
    MinorStands(t);
    u := Standing(t, MinorProc([], 5), ForcedMinor, Minor("b", 6), true);
    hide At, Standing;
    steps, s := Stands(s0, steps0, s1, t, MinorProc([], 5), ForcedMinor, Minor("b", 6), true, UNCLEAN);
    steps, s, u := AloneCleared(s0, steps, s, u, Minor("b", 6), UNCLEAN);
    steps, s, u := Posts(s0, steps, s, u, Minor("b", 6), UNCLEAN);
    assert [Minor("a", 9)] + [Minor("b", 6)] == [Minor("a", 9), Minor("b", 6)];
  }

  // ---- a terminal answer taken back

  const TERMINAL := ALL.(answers := false)

  function Early(): Receipt {
    MintReceipt(CFG, "a", Deny, 3, 10)
  }

  function After6(): Receipt {
    MintReceipt(CFG, "b", Deny, 6, 10)
  }

  function DenyRecord(at: int): RecordFile {
    SaveRecord(Deny, CFG.digest, Some(at), true)
  }

  /** A recorded denial with its predecessor's receipt undelivered. */
  function Early0(): State {
    State(CFG, Disk(ParsedTrail([Early()]), DenyRecord(5)), None, [], {"a"}, {3, 5}, {})
  }

  lemma Early0Rests()
    ensures AtRest(Early0()) && LogRest(Early0(), false)
  {
  }

  function EarlyProc(last: int): Proc {
    Proc(Denied, 0, PlainBox([Early()], [], {}, false), Some(last), None, None, [], Idle, Resting, Denied, [], {})
  }

  lemma EarlyStarts(s: State, t: State, at: int)
    requires Looks(s, t) && t.proc.None? && t.cfg == CFG && t.disk == Disk(ParsedTrail([Early()]), DenyRecord(at)) && at >= 5
    ensures Looks(PlainAfter(s, Start(true, true)), t.(proc := Some(EarlyProc(at)))) && CleanStart(t)
  {
  }

  /** The receipt is refused for good, and the prune's write fails: it stays in the file. */
  function Refused(): Proc {
    EarlyProc(5).(answered := {"a"}, box := PlainBox([], ["a"], {}, true))
  }

  lemma WalkPruneFails(s: State, t: State)
    requires Looks(s, t) && t.proc.Some? && t.proc.value.pass.Settling? && t.proc.value.box.receipts == [t.proc.value.pass.r]
    ensures var p := t.proc.value;
            var key := p.pass.r.key;
            Looks(PlainAfter(s, PruneReceipt(false)),
                  t.(proc := Some(p.(pass := Resting, answered := p.answered + {key},
                                     box := p.box.(receipts := [], settled := Settle(p.box.settled, key),
                                                   owed := p.box.owed - {key}, dirty := true)))))
  {
    assert Without(t.proc.value.box.receipts, t.proc.value.pass.r.key) == [];
    hide FileBytes, Cut, Settle;
  }

  lemma RefusedIs()
    ensures Refused() == EarlyProc(5).(pass := Resting, answered := EarlyProc(5).answered + {Early().key},
                                       box := EarlyProc(5).box.(receipts := [], settled := Settle(EarlyProc(5).box.settled, Early().key),
                                                                owed := EarlyProc(5).box.owed - {Early().key}, dirty := true))
    ensures EarlyProc(5).box.receipts == [Early()] && EarlyProc(5).box.settled == [] && Early().key != ""
  {
  }

  lemma WalkRefused(s: State, t: State)
    requires Looks(s, t) && t.disk.trail == ParsedTrail([Early()]) && t.proc == Some(EarlyProc(5).(pass := Settling(Early())))
    ensures Looks(PlainAfter(s, PruneReceipt(false)), t.(proc := Some(Refused())))
    ensures Unforgetting(s, PruneReceipt(false)) && Careful(s, PruneReceipt(false), TERMINAL)
  {
    RefusedIs();
    assert Careful(s, PruneReceipt(false), TERMINAL);
    hide EarlyProc, Early, Refused, PlainAfter, Settle, Unforgetting, Careful;
    PruneRecalls(s, Early());
    WalkPruneFails(s, t);
  }

  lemma WalkLost(s: State, t: State)
    requires Looks(s, t) && t.proc.Some? && Plainly(t.proc.value) && t.proc.value.pass.Cleared?
    ensures Looks(PlainAfter(s, Send(false)), t.(proc := Some(t.proc.value.(pass := InFlight(t.proc.value.pass.r, false)))))
  {
  }

  lemma EarlyCleared() returns (steps: seq<Step>, s: State)
    ensures At(Early0(), steps, s, Early0().(proc := Some(EarlyProc(5).(pass := Cleared(Early())))), TERMINAL)
  {
    var s0 := Early0();
    NoSteps(s0, TERMINAL);
    EarlyStarts(s0, s0, 5);
    hide PlainAfter, Tame, PlainRun;
    steps, s := Starts(s0, [], s0, s0, Start(true, true), s0.(proc := Some(EarlyProc(5))), TERMINAL);
    hide At;
    var u;
    steps, s, u := AloneCleared(s0, steps, s, s0.(proc := Some(EarlyProc(5))), Early(), TERMINAL);
  }

  lemma WalkRefusal(s: State, t: State, r: Receipt)
    requires Looks(s, t) && t.proc.Some? && Plainly(t.proc.value) && t.proc.value.pass == InFlight(r, false)
    ensures var u := t.(proc := Some(t.proc.value.(pass := Settling(r))));
            Looks(PlainAfter(s, Answer(Terminal)), u) && Plainly(u.proc.value)
  {
    WalkInner(s, t, Answer(Terminal));
    hide PlainAfter, Simplify;
  }

  /** The request is answered with a terminal status. */
  lemma Refuses(s0: State, steps0: seq<Step>, s1: State, t: State, r: Receipt) returns (steps: seq<Step>, s: State)
    requires At(s0, steps0, s1, t, TERMINAL) && t.proc.Some? && t.proc.value.pass == InFlight(r, false)
    ensures At(s0, steps, s, t.(proc := Some(t.proc.value.(pass := Settling(r)))), TERMINAL)
  {
    TerminalCare(s1);
    WalkRefusal(s1, t, r);
    hide PlainAfter, Tame, PlainRun, Careful, Unforgetting, Plainly;
    steps, s := Walk(s0, steps0, s1, Answer(Terminal), TERMINAL);
  }

  /** The request is lost. */
  lemma Loses(s0: State, steps0: seq<Step>, s1: State, t: State, r: Receipt, c: Care) returns (steps: seq<Step>, s: State)
    requires At(s0, steps0, s1, t, c) && t.proc.Some? && t.proc.value.pass == Cleared(r)
    ensures At(s0, steps, s, t.(proc := Some(t.proc.value.(pass := InFlight(r, false)))), c) && steps == steps0 + [Send(false)]
  {
    WalkLost(s1, t);
    hide PlainAfter, Tame, PlainRun;
    steps, s := Take(s0, steps0, s1, t, Send(false), t.(proc := Some(t.proc.value.(pass := InFlight(r, false)))), c);
  }

  lemma EarlySettles() returns (steps: seq<Step>, s: State)
    ensures At(Early0(), steps, s, Early0().(proc := Some(EarlyProc(5).(pass := Settling(Early())))), TERMINAL)
  {
    steps, s := EarlyCleared();
    hide At;
    steps, s := Loses(Early0(), steps, s, Early0().(proc := Some(EarlyProc(5).(pass := Cleared(Early())))), Early(), TERMINAL);
    steps, s := Refuses(Early0(), steps, s, Early0().(proc := Some(EarlyProc(5).(pass := InFlight(Early(), false)))), Early());
  }

  lemma EarlyRefused() returns (steps: seq<Step>, s: State)
    ensures At(Early0(), steps, s, Early0().(proc := Some(Refused())), TERMINAL)
  {
    var s0 := Early0();
    steps, s := EarlySettles();
    WalkRefused(s, s0.(proc := Some(EarlyProc(5).(pass := Settling(Early())))));
    hide PlainAfter, Tame, PlainRun, Careful, Unforgetting;
    steps, s := Walk(s0, steps, s, PruneReceipt(false), TERMINAL);
  }

  lemma TerminalCare(s: State)
    ensures Careful(s, Answer(Terminal), TERMINAL) && Unforgetting(s, Answer(Terminal))
  {
  }

  lemma EarlyStands(v: State)
    requires v == Early0().(proc := Some(Refused()))
    ensures Ready(Refused()) && MayDeny(Refused(), Deny, 6)
    ensures var t := Standing(v, Refused(), Deny, After6(), false);
            && t.proc.Some? && t.cfg == CFG && t.server == [] && t.disk == Disk(ParsedTrail([Early()]), DenyRecord(6))
            && var p := t.proc.value;
               && p.pass == Resting && p.slow == Idle && p.recordOwed.None? && p.box.owed == {} && p.box.receipts == [After6()]
  {
  }

  /** A newer denial is recorded, its append fails, it is processed, and the process crashes. */
  lemma EarlyOvertaken() returns (steps: seq<Step>, s: State, t: State)
    ensures t.cfg == CFG && t.proc.None? && t.server == [After6()] && t.disk == Disk(ParsedTrail([Early()]), DenyRecord(6))
    ensures At(Early0(), steps, s, t, TERMINAL)
  {
    var s0 := Early0();
    steps, s := EarlyRefused();
    var v := s0.(proc := Some(Refused()));
    EarlyStands(v);
    hide At, Standing, Refused, Ready, MayDeny;
    steps, s := Stands(s0, steps, s, v, Refused(), Deny, After6(), false, TERMINAL);
    steps, s, t := AloneCleared(s0, steps, s, Standing(v, Refused(), Deny, After6(), false), After6(), TERMINAL);
    steps, s, t := Posts(s0, steps, s, t, After6(), TERMINAL);
    steps, s := Crashes(s0, steps, s, t, TERMINAL);
    assert [] + [After6()] == [After6()];
    t := t.(proc := None);
  }

  /**
   Without the condition on answers, wire order fails: a receipt refused for good but still in the file is
   taken up again after a restart, and processed then, behind a newer one. The run meets every other condition.
   */
  lemma TerminalAnswerReorders() returns (s0: State, steps: seq<Step>)
    ensures AtRest(s0) && LogRest(s0, false) && CarefulRun(s0, steps, TERMINAL)
    ensures !Ordered(Run(s0, steps).server, false)
  {
    s0 := Early0();
    Early0Rests();
    var s, t;
    steps, s, t := EarlyOvertaken();
    EarlyStarts(s, t, 6);
    hide PlainAfter, Tame, PlainRun, Run, CarefulRun, Ordered, Early0, DenyRecord;
    steps, s := Starts(s0, steps, s, t, Start(true, true), t.(proc := Some(EarlyProc(6))), TERMINAL);
    steps, s, t := EarlyPosted(s0, steps, s, t.(proc := Some(EarlyProc(6))));
    Disordered(t.server, After6(), Early());
    ReadBack(s0, steps, s, t, TERMINAL);
  }

  lemma EarlyPosted(s0: State, steps0: seq<Step>, s1: State, t: State) returns (steps: seq<Step>, s: State, u: State)
    requires At(s0, steps0, s1, t, TERMINAL) && t.proc == Some(EarlyProc(6)) && t.cfg == CFG && t.server == [After6()]
    ensures At(s0, steps, s, u, TERMINAL) && u.server == [After6(), Early()]
  {
    hide At;
    steps, s, u := AloneCleared(s0, steps0, s1, t, Early(), TERMINAL);
    steps, s, u := Posts(s0, steps, s, u, Early(), TERMINAL);
    assert [After6()] + [Early()] == [After6(), Early()];
  }

  // ---- a post processed after its receipt is lost

  function Next2(): Receipt {
    MintReceipt(CFG, "e", Deny, 2, 10)
  }

  /** The denial's record is down, its append has failed, and a pass has cleared it. */
  function Unsaved(): State {
    var t := Standing(Running(MissingTrail, {}, Proc0()), Proc0(), Deny, Denial(), false);
    t.(proc := Some(t.proc.value.(pass := Cleared(Denial()))))
  }

  lemma UnsavedCleared() returns (steps: seq<Step>, s: State)
    ensures At(Granted0(), steps, s, Unsaved(), ALL)
  {
    var v := Running(MissingTrail, {}, Proc0());
    UnsavedIs();
    steps, s := Begun(ALL);
    hide At, Standing, Running, Granted0;
    steps, s := Stands(Granted0(), steps, s, v, Proc0(), Deny, Denial(), false, ALL);
    var u;
    steps, s, u := AloneCleared(Granted0(), steps, s, Standing(v, Proc0(), Deny, Denial(), false), Denial(), ALL);
  }

  lemma UnsavedIs()
    ensures var v := Running(MissingTrail, {}, Proc0()); v.proc == Some(Proc0()) && v.cfg == CFG && v.used == {}
    ensures Ready(Proc0()) && MayDeny(Proc0(), Deny, 1) && Denial().key != "" && Denial().at == 1
    ensures var t := Standing(Running(MissingTrail, {}, Proc0()), Proc0(), Deny, Denial(), false);
            && t.proc.Some? && t.cfg == CFG
            && var p := t.proc.value;
               p.pass == Resting && p.slow == Idle && p.recordOwed.None? && p.box.owed == {} && p.box.receipts == [Denial()]
  {
  }

  /** The process is down, and only its record is left. */
  function Bare(): State {
    State(CFG, Disk(MissingTrail, DenyRecord(1)), None, [], {"d"}, {}, {})
  }

  /** The post is lost for now, and the process crashes. */
  lemma UnsavedPosted() returns (front: seq<Step>, steps: seq<Step>, s: State)
    ensures steps == front + [Send(false), Crash] && At(Granted0(), steps, s, Bare(), ALL)
    ensures var e := Run(Granted0(), front); e.proc.Some? && e.proc.value.pass == Cleared(Denial())
  {
    front, s := UnsavedCleared();
    Granted0Rests();
    ReadBack(Granted0(), front, s, Unsaved(), ALL);
    BareIs();
    hide At, Unsaved, Bare, Run, Granted0;
    steps, s := Loses(Granted0(), front, s, Unsaved(), Denial(), ALL);
    var t := Unsaved().(proc := Some(Unsaved().proc.value.(pass := InFlight(Denial(), false))));
    steps, s := Crashes(Granted0(), steps, s, t, ALL);
    SameLooks(Granted0(), steps, s, t.(proc := None), Bare(), ALL);
    assert front + [Send(false)] + [Crash] == front + [Send(false), Crash];
  }

  lemma BareIs()
    ensures Unsaved().proc.Some? && Unsaved().proc.value.pass == Cleared(Denial()) && Unsaved().(proc := None) == Bare().(denials := {}, grants := {})
    ensures Bare().denials == {} && Bare().grants == {} && CleanStart(Bare())
  {
    assert {} + {"d"} == {"d"};
  }

  function BareProc(): Proc {
    Proc(Denied, 0, PlainBox([], [], {}, false), Some(1), None, None, [], Idle, Resting, Denied, [], {})
  }

  lemma BareStarts(x: State)
    requires Looks(x, Bare())
    ensures Looks(PlainAfter(x, Start(true, true)), Bare().(proc := Some(BareProc())))
  {
  }

  lemma BareStands()
    ensures var v := Bare().(proc := Some(BareProc())); v.cfg == CFG && Next2().key !in v.used
    ensures Ready(BareProc()) && MayDeny(BareProc(), Deny, 2) && Next2().key != "" && Next2().at == 2
    ensures var t := Standing(Bare().(proc := Some(BareProc())), BareProc(), Deny, Next2(), true);
            && t.proc.Some? && t.cfg == CFG && t.disk.trail == ParsedTrail([Next2()]) && t.server == [] && !HasKey(t.server, Next2().key)
            && var p := t.proc.value;
               p.pass == Resting && p.slow == Idle && p.recordOwed.None? && p.box.owed == {} && p.box.receipts == [Next2()]
  {
  }

  /** After a restart a newer denial is recorded, saved and processed. */
  lemma NewerPosted(s1: State) returns (steps: seq<Step>)
    requires Shape(s1) && Looks(s1, Bare())
    ensures CarefulRun(s1, steps, ALL) && Run(s1, steps).server == [Next2()] && !Present(Run(s1, steps), Denial())
  {
    var s, u;
    steps, s := RestartedStands(s1);
    u := Standing(Bare().(proc := Some(BareProc())), BareProc(), Deny, Next2(), true);
    BareStands();
    hide At, Standing, Bare, HasKey;
    steps, s, u := AloneCleared(s1, steps, s, u, Next2(), ALL);
    steps, s, u := Posts(s1, steps, s, u, Next2(), ALL);
    assert [] + [Next2()] == [Next2()];
    NewerShows(s1, steps, s, u);
  }

  lemma RestartedStands(s1: State) returns (steps: seq<Step>, s: State)
    requires Looks(s1, Bare())
    ensures At(s1, steps, s, Standing(Bare().(proc := Some(BareProc())), BareProc(), Deny, Next2(), true), ALL)
  {
    NoSteps(s1, ALL);
    BareStarts(s1);
    BareIs();
    BareStands();
    var v := Bare().(proc := Some(BareProc()));
    hide PlainAfter, Tame, PlainRun, CarefulRun;
    steps, s := Starts(s1, [], s1, Bare(), Start(true, true), v, ALL);
    hide At, Standing, Bare, Ready, MayDeny;
    steps, s := Stands(s1, steps, s, v, BareProc(), Deny, Next2(), true, ALL);
  }

  lemma NewerShows(s1: State, steps: seq<Step>, s: State, t: State)
    requires Shape(s1) && Looks(s1, Bare()) && At(s1, steps, s, t, ALL) && t.proc.Some?
    requires t.server == [Next2()] && Listed(t.disk.trail) == [Next2()] && t.proc.value.box.receipts == [Next2()]
    requires t.proc.value.pass == InFlight(Next2(), true)
    ensures CarefulRun(s1, steps, ALL) && Run(s1, steps).server == [Next2()] && !Present(Run(s1, steps), Denial())
  {
    hide At, Shape, Run, CarefulRun;
    ReadBack(s1, steps, s, t, ALL);
  }

  lemma {:induction false} CarefulJoined(s: State, a: seq<Step>, b: seq<Step>, c: Care)
    requires CarefulRun(s, a, c) && CarefulRun(Run(s, a), b, c)
    ensures CarefulRun(s, a + b, c) && Run(s, a + b) == Run(Run(s, a), b)
  {
    hide Careful, Next;
    if b == [] { assert a + b == a; }
    else {
      assert (a + b)[..|a + b| - 1] == a + b[..|b| - 1];
      CarefulJoined(s, a, b[..|b| - 1], c);
    }
  }

  /** A post not processed when it is sent is under way from then on. */
  lemma StaysLate(s: State, front: seq<Step>, rest: seq<Step>, r: Receipt)
    requires Run(s, front).proc.Some? && Run(s, front).proc.value.pass == Cleared(r)
    ensures r in Events(Wire(s, {}), Floors(front + [Send(false)] + rest)).late
  {
    var w := Wire(s, {});
    var m := Events(w, Floors(front));
    FloorsRun(w, front);
    hide Next, Run, Events;
    FloorsJoined(front + [Send(false)], rest);
    FloorsJoined(front, [Send(false)]);
    EventsJoined(w, Floors(front + [Send(false)]), Floors(rest));
    EventsJoined(w, Floors(front), Floors([Send(false)]));
    assert Floors([Send(false)]) == [Floor(Send(false))];
    OneEvent(m, Floor(Send(false)));
    FloorsRun(Befalls(m, Floor(Send(false))), rest);
  }

  lemma FloorsJoined(a: seq<Step>, b: seq<Step>)
    ensures Floors(a + b) == Floors(a) + Floors(b)
  {
  }

  /**
   Without the condition on late arrivals wire order fails: a denial's record is down but its receipt was
   never saved, its post goes unanswered, and the process crashes. A newer denial is processed, and then
   the late post is. The run meets every other condition.
   */
  lemma LatePostReorders() returns (s0: State, steps: seq<Step>, r: Receipt)
    ensures AtRest(s0) && LogRest(s0, false) && CarefulRun(s0, steps, ALL)
    ensures var w := Events(Wire(s0, {}), Floors(steps));
            r in w.late && !InTime(w.s, r) && !Ordered(Events(Wire(s0, {}), Floors(steps) + [Arrive(r)]).s.server, false)
  {
    s0, r := Granted0(), Denial();
    Granted0Rests();
    var front, a, s := UnsavedPosted();
    ReadBack(s0, a, s, Bare(), ALL);
    ShapeAlong(s0, a);
    var b := NewerPosted(Run(s0, a));
    CarefulJoined(s0, a, b, ALL);
    steps := a + b;
    LateIsLast(s0, front, b, r);
    hide CarefulRun, Run, Granted0;
  }

  lemma ShapeAlong(s: State, steps: seq<Step>)
    requires Shape(s)
    ensures Shape(Run(s, steps))
  {
    hide Shape, Next;
    if steps != [] {
      ShapeAlong(s, steps[..|steps| - 1]);
      ShapeStep(Run(s, steps[..|steps| - 1]), steps[|steps| - 1]);
    }
  }

  /** The late post of the lost denial comes behind the newer one. */
  lemma LateIsLast(s0: State, front: seq<Step>, b: seq<Step>, r: Receipt)
    requires Run(s0, front).proc.Some? && Run(s0, front).proc.value.pass == Cleared(r) && r == Denial()
    requires var e := Run(s0, front + [Send(false), Crash] + b); e.server == [Next2()] && !Present(e, r)
    ensures var w := Events(Wire(s0, {}), Floors(front + [Send(false), Crash] + b));
            r in w.late && !InTime(w.s, r)
            && !Ordered(Events(Wire(s0, {}), Floors(front + [Send(false), Crash] + b) + [Arrive(r)]).s.server, false)
  {
    var steps, w0 := front + [Send(false), Crash] + b, Wire(s0, {});
    hide *;
    SentThenCrashed(front, b);
    StaysLate(s0, front, [Crash] + b, r);
    FloorsRun(w0, steps);
    EventsJoined(w0, Floors(steps), [Arrive(r)]);
    OneEvent(Events(w0, Floors(steps)), Arrive(r));
    ArrivesLast(Events(w0, Floors(steps)), r);
  }

  lemma SentThenCrashed(front: seq<Step>, b: seq<Step>)
    ensures front + [Send(false), Crash] + b == front + [Send(false)] + ([Crash] + b)
  {
  }

  lemma ArrivesLast(w: Wire, r: Receipt)
    requires r in w.late && r == Denial() && w.s.server == [Next2()] && !Present(w.s, r)
    ensures !InTime(w.s, r) && !Ordered(Befalls(w, Arrive(r)).s.server, false)
  {
    assert !HasKey([Next2()], r.key);
    assert [Next2()] + [r] == [Next2(), r];
    Disordered([Next2(), r], Next2(), r);
    hide Present, Ordered;
  }
}
