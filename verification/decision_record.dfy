/**
 The persisted consent decision (consent.json): what the loader learns from a
 file, what the two savers write, and why a withheld grant stays withheld.

 A decision stamp is an integer when it parses and `None` when the file has no
 stamp or one that does not parse: the loader treats both alike.
 */
module DecisionRecord {
  import opened Basics

  datatype Decision = Grant | Deny | ForcedMinor

  /** The live consent state of the configured actor. */
  datatype Live = Unknown | Granted | Denied | DeniedForcedMinor

  function LiveOf(d: Decision): Live {
    match d
    case Grant => Granted
    case Deny => Denied
    case ForcedMinor => DeniedForcedMinor
  }

  /** A decision word as it stands in the file: missing, known, or a word this build does not know. */
  datatype Word = Missing | Word(decision: Decision) | Alien

  datatype RecordWire = RecordWire(
    analytics: Word,
    withheld: Word,
    digest: string,
    decidedAt: Option<int>,
    floor: bool,
    unwitnessed: bool,
    unwitnessedAt: Option<int>)

  /** The file itself: not there, there but not a record at all, or a decoded object. */
  datatype RecordFile = NoFile | Garbage | File(wire: RecordWire)

  datatype RecordInfo = RecordInfo(
    state: Live,
    decidedAt: Option<int>,
    floor: bool,
    unwitnessed: bool,
    unwitnessedAt: Option<int>)

  datatype RecordRead = RecParsed | RecAbsent | RecUnusable | RecForeign

  datatype Loaded = Loaded(info: RecordInfo, ok: bool, read: RecordRead)

  const Blank := RecordInfo(Unknown, None, false, false, None)

  /** loadConsentRecordRead: the mark is captured before any other check can discard it. */
  function Load(file: RecordFile, digest: string): Loaded {
    match file
    case NoFile => Loaded(Blank, false, RecAbsent)
    case Garbage => Loaded(Blank, false, RecUnusable)
    case File(w) =>
      var none := Blank.(unwitnessed := w.unwitnessed, unwitnessedAt := w.unwitnessedAt);
      if w.digest == "" || w.analytics == Missing then
        Loaded(none, false, RecUnusable)
      else if w.digest != digest then
        Loaded(none.(decidedAt := w.decidedAt), false, RecForeign)
      else
        var sentinel := w.analytics == Word(Deny) && w.withheld != Missing;
        var marked := w.unwitnessed || sentinel;
        var word := if sentinel then w.withheld else w.analytics;
        var blank := none.(unwitnessed := marked);
        if !word.Word? then
          Loaded(blank, false, RecUnusable)
        else
          var info := RecordInfo(LiveOf(word.decision), w.decidedAt, w.floor, marked, w.unwitnessedAt);
          if w.floor && w.decidedAt.None? && word.decision == Grant then
            // the decision is known, only its stamp is damaged: the readable trail may decide
            Loaded(blank, false, RecAbsent)
          else
            Loaded(info, true, RecParsed)
  }

  /** saveConsentRecord. */
  function SaveRecord(d: Decision, digest: string, at: Option<int>, floorAuthored: bool): RecordFile {
    File(RecordWire(Word(d), Missing, digest, at, floorAuthored, false, None))
  }

  /** consentDecisionSupersedes and consentReceiptNewerThanRecord: a missing stamp is infinitely new. */
  predicate Supersedes(at: Option<int>, than: Option<int>) {
    at.Some? && than.Some? && at.value > than.value
  }

  /** consentMarkSupersededBy. */
  predicate MarkSupersededBy(info: RecordInfo, at: Option<int>) {
    !info.unwitnessed || Supersedes(at, info.unwitnessedAt)
  }

  /** markConsentRecordUnwitnessed; with no decision to preserve it writes nothing. */
  function MarkRecord(info: RecordInfo, digest: string, markAt: Option<int>): Option<RecordFile> {
    match info.state
    case Unknown => None
    case Granted =>
      var at := if Supersedes(markAt, info.decidedAt) then markAt else info.decidedAt;
      Some(File(RecordWire(Word(Deny), Word(Grant), digest, at, info.floor, true, markAt)))
    case Denied =>
      Some(File(RecordWire(Word(Deny), Missing, digest, info.decidedAt, info.floor, true, markAt)))
    case DeniedForcedMinor =>
      Some(File(RecordWire(Word(ForcedMinor), Missing, digest, info.decidedAt, info.floor, true, markAt)))
  }

  /** What every start derives from a load: may a grant take effect at all, as far as this file says? */
  predicate GrantVetoed(l: Loaded) {
    l.read == RecUnusable || l.read == RecForeign || l.info.unwitnessed
  }

  /** loadConsentRecord, the loader a client without the floor uses. */
  function LoadPlain(file: RecordFile, digest: string): (r: Option<Live>)
    // only an unmarked, fully read decision ever comes back
    ensures r == Some(Granted) ==> !GrantVetoed(Load(file, digest))
  {
    var l := Load(file, digest);
    if l.ok && l.info.state == Granted && l.info.unwitnessed then None
    else if l.ok then Some(l.info.state)
    else None
  }

  /** A build from before the mark: it decodes neither the withheld decision nor the mark. */
  function Forget(w: RecordWire): RecordWire {
    w.(withheld := Missing, unwitnessed := false, unwitnessedAt := None)
  }

  // ---------------------------------------------------------------- theorems

  /** A saved decision loads back as itself, unmarked. */
  lemma SaveThenLoad(d: Decision, digest: string, at: int, floorAuthored: bool)
    requires digest != ""
    ensures Load(SaveRecord(d, digest, Some(at), floorAuthored), digest)
         == Loaded(RecordInfo(LiveOf(d), Some(at), floorAuthored, false, None), true, RecParsed)
    ensures LoadPlain(SaveRecord(d, digest, Some(at), floorAuthored), digest) == Some(LiveOf(d))
    ensures forall other :: other != digest ==>
              Load(SaveRecord(d, digest, Some(at), floorAuthored), other).read == RecForeign
  {
  }

  /**
   Marking keeps the decision and its provenance, sets the mark with its stamp,
   and never moves the decision's stamp backward.
   */
  lemma MarkThenLoad(info: RecordInfo, digest: string, markAt: Option<int>)
    requires digest != "" && info.state != Unknown && info.decidedAt.Some?
    ensures var file := MarkRecord(info, digest, markAt);
            file.Some? &&
            var l := Load(file.value, digest);
            && l.ok && l.read == RecParsed
            && l.info.state == info.state && l.info.floor == info.floor
            && l.info.unwitnessed && l.info.unwitnessedAt == markAt
            && l.info.decidedAt.Some? && l.info.decidedAt.value >= info.decidedAt.value
            && (info.state != Granted ==> l.info.decidedAt == info.decidedAt)
            && LoadPlain(file.value, digest) == (if info.state == Granted then None else Some(info.state))
  {
  }

  /** One surviving trace of the mark in a file is enough. */
  predicate CarriesMark(w: RecordWire) {
    w.unwitnessed || (w.analytics == Word(Deny) && w.withheld != Missing)
  }

  /**
   Damage to any other field cannot launder a withheld grant: while either trace
   of the mark is left, the load vetoes grants and the plain loader returns none.
   */
  lemma DamageNeverLaundersTheMark(w: RecordWire, digest: string)
    requires CarriesMark(w)
    ensures GrantVetoed(Load(File(w), digest))
    ensures LoadPlain(File(w), digest) != Some(Granted)
  {
  }

  /**
   A build that ignores the mark reads a withheld grant as a denial that no
   receipt covered by the mark can supersede.
   */
  lemma OlderBuildStaysClosed(info: RecordInfo, digest: string, markAt: int, receiptAt: int)
    requires digest != "" && info.state == Granted
    requires receiptAt <= markAt
    ensures var file := MarkRecord(info, digest, Some(markAt));
            file.Some? && file.value.File? &&
            var l := Load(File(Forget(file.value.wire)), digest);
            l.ok && l.info.state == Denied && !Supersedes(Some(receiptAt), l.info.decidedAt)
  {
  }
}
