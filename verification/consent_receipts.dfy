/**
 Consent receipts, the sanitizer that admits them from disk, and the reader of
 consent-outbox.json with its three verdicts.
 */
module ConsentReceipts {
  import opened Basics

  const MAX_IDENTIFIER_BYTES := 512

  /** Everything of a stored receipt's scope that the reader orders decisions by. */
  datatype Scope = Scope(workspace: string, app: string, environment: string, actor: string, kind: string)

  datatype Notice = NoNotice | Notice(tuple: string) | BadNotice

  /**
   A sanitized receipt. `bytes` is the length of its JSON encoding, which is
   fixed when the receipt is minted.
   */
  datatype Receipt = Receipt(
    key: string,
    scope: Scope,
    anonymousID: string,
    granted: bool,
    forcedMinor: bool,
    at: int,
    notice: Notice,
    bytes: nat)

  datatype Reason = NoReason | ForcedMinorReason | AlienReason

  /** One decoded entry of the file, before the sanitizer: any member may be missing or malformed. */
  datatype Entry = Entry(
    key: string,
    scope: Scope,
    anonymousID: string,
    analytics: Option<bool>,
    decidedAt: Option<int>,
    reason: Reason,
    notice: Notice,
    bytes: nat)

  predicate ValidIdentifier(id: string) {
    id != "" && |id| <= MAX_IDENTIFIER_BYTES
  }

  predicate ValidKind(kind: string) {
    kind == "anon" || kind == "user_verified"
  }

  /** sanitizeConsentReceipt. */
  function Sanitize(e: Entry): (r: Option<Receipt>)
    // a grant never survives on a malformed notice or with the forced-minor reason
    ensures r.Some? && r.value.granted ==> e.notice == r.value.notice && !r.value.forcedMinor
    // a denial survives a malformed notice, without it
    ensures r.Some? ==> r.value.notice != BadNotice && e.analytics == Some(r.value.granted)
  {
    if e.key == "" || e.scope.workspace == "" || e.scope.app == "" || e.scope.environment == "" then None
    else if e.analytics.None? then None
    else if !ValidIdentifier(e.scope.actor) || !ValidKind(e.scope.kind) then None
    else if e.anonymousID != "" && !ValidIdentifier(e.anonymousID) then None
    else if e.notice.BadNotice? && e.analytics.value then None
    else if e.reason == AlienReason || (e.reason == ForcedMinorReason && e.analytics.value) then None
    else if e.decidedAt.None? then None
    else
      var notice := if e.notice.BadNotice? then NoNotice else e.notice;
      Some(Receipt(e.key, e.scope, e.anonymousID, e.analytics.value,
                   e.reason == ForcedMinorReason, e.decidedAt.value, notice, e.bytes))
  }

  /** A receipt this client could have minted: what the sanitizer demands, in the sanitized type. */
  predicate Sound(r: Receipt) {
    && r.key != "" && r.scope.workspace != "" && r.scope.app != "" && r.scope.environment != ""
    && ValidIdentifier(r.scope.actor) && ValidKind(r.scope.kind)
    && (r.anonymousID != "" ==> ValidIdentifier(r.anonymousID))
    && (r.granted ==> !r.forcedMinor)
    && !r.notice.BadNotice?
  }

  /** The entry a receipt is stored as. */
  function Stored(r: Receipt): Entry {
    Entry(r.key, r.scope, r.anonymousID, Some(r.granted), Some(r.at),
          if r.forcedMinor then ForcedMinorReason else NoReason, r.notice, r.bytes)
  }

  /** The sanitizer is the inverse of storing, on exactly the sound receipts. */
  lemma SanitizeStored(r: Receipt)
    ensures Sanitize(Stored(r)) == Some(r) <==> Sound(r)
  {
  }

  lemma SanitizedIsSound(e: Entry)
    requires Sanitize(e).Some?
    ensures Sound(Sanitize(e).value)
  {
  }

  // ---------------------------------------------------------------- reading the trail

  datatype ReadClass = ReadParsed | ReadAbsent | ReadUnusable

  /** The file as the operating system and the JSON decoder deliver it. */
  datatype RawTrail =
    | NoTrail                               // no directory entry
    | Undecodable                           // unreadable, over the limit, not JSON, wrong version, no list
    | Decoded(entries: seq<Entry>)

  /** consentOutboxReadLimit and the length of the empty record. */
  const READ_LIMIT := 262144
  const EMPTY_RECORD_BYTES := 27

  predicate DistinctKeys(rs: seq<Receipt>) {
    forall i, j :: 0 <= i < j < |rs| ==> rs[i].key != rs[j].key
  }

  /** Decisions of one scope stand in strictly increasing order. */
  predicate ScopeOrdered(rs: seq<Receipt>) {
    forall i, j :: 0 <= i < j < |rs| && rs[i].scope == rs[j].scope ==> rs[i].at < rs[j].at
  }

  predicate HasKey(rs: seq<Receipt>, key: string) {
    exists i :: 0 <= i < |rs| && rs[i].key == key
  }

  /** The entries a reader keeps, whatever it thinks of the file: sanitized, first of each key, in file order. */
  function Survivors(es: seq<Entry>): seq<Receipt> {
    if es == [] then []
    else
      var kept := Survivors(es[..|es| - 1]);
      var s := Sanitize(es[|es| - 1]);
      if s.None? || HasKey(kept, s.value.key) then kept else kept + [s.value]
  }

  /** Two accepted entries may stand in this order: new key, and newer when of the same scope. */
  predicate InOrder(earlier: Receipt, later: Receipt) {
    earlier.key != later.key && (earlier.scope == later.scope ==> earlier.at < later.at)
  }

  predicate EntriesInOrder(earlier: Entry, later: Entry) {
    Sanitize(earlier).Some? && Sanitize(later).Some? && InOrder(Sanitize(earlier).value, Sanitize(later).value)
  }

  /** What a healthy writer leaves: every entry sanitizes, keys are new, each scope's stamps increase. */
  ghost predicate SoundTrail(es: seq<Entry>) {
    && (forall i :: 0 <= i < |es| ==> Sanitize(es[i]).Some?)
    && (forall i, j :: 0 <= i < j < |es| ==> EntriesInOrder(es[i], es[j]))
  }

  lemma {:induction false} SoundSurvivors(es: seq<Entry>)
    requires SoundTrail(es)
    ensures |Survivors(es)| == |es|
    ensures forall i :: 0 <= i < |es| ==> Sanitize(es[i]) == Some(Survivors(es)[i])
  {
    if es != [] {
      var front := es[..|es| - 1];
      assert SoundTrail(front) by {
        forall i, j | 0 <= i < j < |front|
          ensures front[i] == es[i] && front[j] == es[j] {}
        forall i | 0 <= i < |front| ensures Sanitize(front[i]).Some? { assert front[i] == es[i]; }
      }
      SoundSurvivors(front);
    }
  }

  lemma SoundOrdered(es: seq<Entry>)
    requires SoundTrail(es)
    ensures |Survivors(es)| == |es| && ScopeOrdered(Survivors(es))
  {
    SoundSurvivors(es);
    var rs := Survivors(es);
    hide Survivors, Sanitize;
    forall i, j | 0 <= i < j < |rs| && rs[i].scope == rs[j].scope ensures rs[i].at < rs[j].at {
      assert EntriesInOrder(es[i], es[j]);
    }
  }

  lemma SoundTrailStep(es: seq<Entry>, e: Entry)
    ensures SoundTrail(es + [e]) <==>
              && SoundTrail(es)
              && Sanitize(e).Some?
              && forall i :: 0 <= i < |es| ==> EntriesInOrder(es[i], e)
  {
    var es' := es + [e];
    assert es'[|es|] == e;
    assert forall i :: 0 <= i < |es| ==> es'[i] == es[i];
  }

  /** The reader's last-stamp table speaks only of stamps it has seen ... */
  ghost predicate LastCovers(last: map<Scope, int>, rs: seq<Receipt>) {
    && (forall s :: s in last ==> exists j :: 0 <= j < |rs| && rs[j].scope == s && rs[j].at == last[s])
    && (forall j :: 0 <= j < |rs| ==> rs[j].scope in last)
  }

  /** ... and, while the trail is in order, holds each scope's newest. */
  ghost predicate LastDominates(last: map<Scope, int>, rs: seq<Receipt>) {
    forall j :: 0 <= j < |rs| && rs[j].scope in last ==> rs[j].at <= last[rs[j].scope]
  }

  /** One comparison with the table decides what the definition asks of all earlier entries. */
  lemma StepVerdict(es: seq<Entry>, e: Entry, last: map<Scope, int>)
    requires LastCovers(last, Survivors(es))
    requires SoundTrail(es) ==> LastDominates(last, Survivors(es))
    ensures SoundTrail(es + [e]) <==>
              && SoundTrail(es)
              && var s := Sanitize(e);
                 && s.Some?
                 && !HasKey(Survivors(es), s.value.key)
                 && (s.value.scope in last ==> s.value.at > last[s.value.scope])
    ensures Survivors(es + [e]) ==
              var s := Sanitize(e);
              if s.None? || HasKey(Survivors(es), s.value.key) then Survivors(es) else Survivors(es) + [s.value]
  {
    assert (es + [e])[..|es|] == es;
    SoundTrailStep(es, e);
    if SoundTrail(es) && Sanitize(e).Some? {
      SoundSurvivors(es);
      TableDecides(Survivors(es), Sanitize(e).value, last);
      assert forall i :: 0 <= i < |es| ==> (EntriesInOrder(es[i], e) <==> InOrder(Survivors(es)[i], Sanitize(e).value));
    }
  }

  lemma TableDecides(rs: seq<Receipt>, r: Receipt, last: map<Scope, int>)
    requires LastCovers(last, rs) && LastDominates(last, rs)
    ensures (forall i :: 0 <= i < |rs| ==> InOrder(rs[i], r)) <==>
              !HasKey(rs, r.key) && (r.scope in last ==> r.at > last[r.scope])
  {
    if forall i :: 0 <= i < |rs| ==> InOrder(rs[i], r) {
      if r.scope in last {
        var j :| 0 <= j < |rs| && rs[j].scope == r.scope && rs[j].at == last[r.scope];
        assert InOrder(rs[j], r);
      }
    }
  }

  /** Recording one more survivor keeps the table right. */
  lemma TableStep(rs: seq<Receipt>, r: Receipt, last: map<Scope, int>)
    requires LastCovers(last, rs) && DistinctKeys(rs) && !HasKey(rs, r.key)
    ensures LastCovers(last[r.scope := r.at], rs + [r]) && DistinctKeys(rs + [r])
    ensures LastDominates(last, rs) && (r.scope in last ==> r.at > last[r.scope]) ==>
              LastDominates(last[r.scope := r.at], rs + [r])
    ensures forall k :: HasKey(rs + [r], k) <==> HasKey(rs, k) || k == r.key
  {
    var rs', last' := rs + [r], last[r.scope := r.at];
    assert rs'[|rs|] == r;
    forall s | s in last' ensures exists j :: 0 <= j < |rs'| && rs'[j].scope == s && rs'[j].at == last'[s] {
      if s != r.scope {
        var j :| 0 <= j < |rs| && rs[j].scope == s && rs[j].at == last[s];
        assert rs'[j] == rs[j];
      }
    }
    forall k ensures HasKey(rs', k) <==> HasKey(rs, k) || k == r.key {
      if HasKey(rs, k) {
        var j :| 0 <= j < |rs| && rs[j].key == k;
        assert rs'[j].key == k;
      }
      if k == r.key { assert rs'[|rs|].key == k; }
    }
  }

  /** What the reader's variables say once it has read `es`. */
  ghost predicate Reading(es: seq<Entry>, loaded: seq<Receipt>, seen: set<string>, last: map<Scope, int>, rejected: bool) {
    && loaded == Survivors(es) && DistinctKeys(loaded)
    && (forall k :: k in seen <==> HasKey(loaded, k))
    && LastCovers(last, loaded)
    && (!rejected <==> SoundTrail(es))
    && (!rejected ==> LastDominates(last, loaded))
  }

  /** Reading one more entry: what is rejected, what is kept, what the table becomes. */
  lemma ReadOne(es: seq<Entry>, e: Entry, loaded: seq<Receipt>, seen: set<string>, last: map<Scope, int>, rejected: bool)
    requires Reading(es, loaded, seen, last, rejected)
    ensures Sanitize(e).None? || Sanitize(e).value.key in seen ==> Reading(es + [e], loaded, seen, last, true)
    ensures Sanitize(e).Some? && Sanitize(e).value.key !in seen ==>
              var r := Sanitize(e).value;
              Reading(es + [e], loaded + [r], seen + {r.key}, last[r.scope := r.at],
                      rejected || (r.scope in last && !(r.at > last[r.scope])))
  {
    StepVerdict(es, e, last);
    if Sanitize(e).Some? && Sanitize(e).value.key !in seen { TableStep(loaded, Sanitize(e).value, last); }
    hide SoundTrail, Survivors, LastCovers, LastDominates, DistinctKeys, HasKey, Sanitize;
  }

  /**
   readRecordReceipts: one pass that keeps the survivors, the keys seen and each
   scope's last stamp, and turns any refusal into an unusable verdict.
   */
  method ReadTrail(raw: RawTrail) returns (loaded: seq<Receipt>, verdict: ReadClass)
    // the verdict, against the file alone
    ensures verdict == ReadAbsent <==> raw.NoTrail?
    ensures verdict == ReadParsed <==> raw.Decoded? && SoundTrail(raw.entries)
    // the survivors are returned even when the file as a whole is not to be trusted
    ensures loaded == if raw.Decoded? then Survivors(raw.entries) else []
    ensures DistinctKeys(loaded)
    ensures verdict == ReadParsed ==> ScopeOrdered(loaded) && |loaded| == |raw.entries|
  {
    if raw.NoTrail? { return [], ReadAbsent; }
    if raw.Undecodable? { return [], ReadUnusable; }
    loaded := [];
    var seen: set<string> := {};
    var last: map<Scope, int> := map[];
    var rejected := false;
    assert raw.entries[..0] == [];
    for i := 0 to |raw.entries|
      invariant Reading(raw.entries[..i], loaded, seen, last, rejected)
    {
      hide Reading, Sanitize;
      var entry := raw.entries[i];
      assert raw.entries[..i + 1] == raw.entries[..i] + [entry];
      ReadOne(raw.entries[..i], entry, loaded, seen, last, rejected);
      var s := Sanitize(entry);
      if s.None? || s.value.key in seen {
        rejected := true;
      } else {
        seen := seen + {s.value.key};
        if s.value.scope in last && !(s.value.at > last[s.value.scope]) {
          rejected := true;
        }
        last := last[s.value.scope := s.value.at];
        loaded := loaded + [s.value];
      }
    }
    assert raw.entries[..|raw.entries|] == raw.entries;
    if !rejected { SoundOrdered(raw.entries); }
    verdict := if rejected then ReadUnusable else ReadParsed;
  }

  /** What a healthy writer produces, its reader understands, entry for entry. */
  lemma WrittenTrailReadsBack(rs: seq<Receipt>, es: seq<Entry>)
    requires |es| == |rs| && forall i :: 0 <= i < |rs| ==> es[i] == Stored(rs[i])
    requires forall i :: 0 <= i < |rs| ==> Sound(rs[i])
    requires DistinctKeys(rs) && ScopeOrdered(rs)
    ensures SoundTrail(es) && Survivors(es) == rs
  {
    forall i | 0 <= i < |rs| ensures Sanitize(es[i]) == Some(rs[i]) { SanitizeStored(rs[i]); }
    SoundSurvivors(es);
  }
}
