/**
 The notice locale: a flat scan over the subtags of a language tag against the grammar
 of section 2.1 of RFC 5646 and the uniqueness rules of its sections 2.2.5 and 2.2.6.
 */
module ConsentLocale {
  import opened Basics

  // ---------------------------------------------------------------- the grammar

  predicate IsAlpha(c: char) {
    'a' <= c <= 'z' || 'A' <= c <= 'Z'
  }

  predicate IsDigit(c: char) {
    '0' <= c <= '9'
  }

  predicate All(s: string, p: char -> bool) {
    forall i :: 0 <= i < |s| ==> p(s[i])
  }

  predicate Alnum(s: string) {
    All(s, c => IsAlpha(c) || IsDigit(c))
  }

  predicate Alpha(s: string) {
    All(s, c => IsAlpha(c))
  }

  predicate Digits(s: string) {
    All(s, c => IsDigit(c))
  }

  datatype Extension = Extension(singleton: string, subtags: seq<string>)

  /** A tag as the grammar parses it. */
  datatype Tag =
    | LangTag(language: string, extlangs: seq<string>, script: Option<string>, region: Option<string>,
              variants: seq<string>, extensions: seq<Extension>, privateUse: seq<string>)
    | PrivateTag(subtags: seq<string>)
    | Irregular(name: seq<string>)

  const IRREGULAR: seq<seq<string>> := [
    ["en", "gb", "oed"], ["i", "ami"], ["i", "bnn"], ["i", "default"], ["i", "enochian"], ["i", "hak"],
    ["i", "klingon"], ["i", "lux"], ["i", "mingo"], ["i", "navajo"], ["i", "pwn"], ["i", "tao"], ["i", "tay"],
    ["i", "tsu"], ["sgn", "be", "fr"], ["sgn", "be", "nl"], ["sgn", "ch", "de"]]

  predicate IsLanguage(s: string, extlangs: seq<string>) {
    Alpha(s) && (2 <= |s| <= 3 || (4 <= |s| <= 8 && extlangs == []))
  }

  predicate IsExtlang(s: string) {
    Alpha(s) && |s| == 3
  }

  predicate IsScript(s: string) {
    Alpha(s) && |s| == 4
  }

  predicate IsRegion(s: string) {
    (Alpha(s) && |s| == 2) || (Digits(s) && |s| == 3)
  }

  predicate IsVariant(s: string) {
    Alnum(s) && (5 <= |s| <= 8 || (|s| == 4 && IsDigit(s[0])))
  }

  predicate IsSingleton(s: string) {
    |s| == 1 && (IsAlpha(s[0]) || IsDigit(s[0])) && s[0] != 'x' && s[0] != 'X'
  }

  predicate IsExtensionSubtag(s: string) {
    Alnum(s) && 2 <= |s| <= 8
  }

  predicate IsPrivateSubtag(s: string) {
    Alnum(s) && 1 <= |s| <= 8
  }

  predicate IsExtension(e: Extension) {
    IsSingleton(e.singleton) && e.subtags != [] && forall i :: 0 <= i < |e.subtags| ==> IsExtensionSubtag(e.subtags[i])
  }

  predicate WellFormed(t: Tag) {
    match t
    case LangTag(language, extlangs, script, region, variants, extensions, privateUse) =>
      && IsLanguage(language, extlangs)
      && |extlangs| <= 3 && (forall i :: 0 <= i < |extlangs| ==> IsExtlang(extlangs[i]))
      && (script.Some? ==> IsScript(script.value))
      && (region.Some? ==> IsRegion(region.value))
      && (forall i :: 0 <= i < |variants| ==> IsVariant(variants[i]))
      && (forall i :: 0 <= i < |extensions| ==> IsExtension(extensions[i]))
      && (forall i :: 0 <= i < |privateUse| ==> IsPrivateSubtag(privateUse[i]))
    case PrivateTag(subtags) => subtags != [] && forall i :: 0 <= i < |subtags| ==> IsPrivateSubtag(subtags[i])
    case Irregular(name) => Lowered(name) in IRREGULAR
  }

  function OptionTags(o: Option<string>): seq<string> {
    if o.Some? then [o.value] else []
  }

  function ExtensionTags(es: seq<Extension>): seq<string> {
    if es == [] then [] else [es[0].singleton] + es[0].subtags + ExtensionTags(es[1..])
  }

  function PrivateTags(ps: seq<string>): seq<string> {
    if ps == [] then [] else ["x"] + ps
  }

  /** The subtags of a parsed tag, in order; private use is introduced by `x`, in either case. */
  function Subtags(t: Tag): seq<string> {
    match t
    case LangTag(language, extlangs, script, region, variants, extensions, privateUse) =>
      [language] + (extlangs + (OptionTags(script) + (OptionTags(region) +
        (variants + (ExtensionTags(extensions) + PrivateTags(privateUse))))))
    case PrivateTag(subtags) => ["x"] + subtags
    case Irregular(name) => name
  }

  // ---------------------------------------------------------------- case

  function LowerChar(c: char): char {
    if 'A' <= c <= 'Z' then (c as int + 32) as char else c
  }

  function Lower(s: string): (r: string)
    ensures |r| == |s| && forall i :: 0 <= i < |s| ==> r[i] == LowerChar(s[i])
  {
    seq(|s|, i requires 0 <= i < |s| => LowerChar(s[i]))
  }

  function Lowered(ss: seq<string>): (r: seq<string>)
    ensures |r| == |ss| && forall i :: 0 <= i < |ss| ==> r[i] == Lower(ss[i])
  {
    seq(|ss|, i requires 0 <= i < |ss| => Lower(ss[i]))
  }

  function Singletons(es: seq<Extension>): (r: seq<string>)
    ensures |r| == |es| && forall i :: 0 <= i < |es| ==> r[i] == es[i].singleton
  {
    seq(|es|, i requires 0 <= i < |es| => es[i].singleton)
  }

  /** Sections 2.2.5 and 2.2.6: no variant and no singleton occurs twice, ignoring case. */
  ghost predicate Unique(t: Tag) {
    t.LangTag? ==> Distinct(Lowered(t.variants)) && Distinct(Lowered(Singletons(t.extensions)))
  }

  // ---------------------------------------------------------------- the scan

  predicate LooksLikeVariant(s: string) {
    |s| >= 5 || (|s| == 4 && IsDigit(s[0]))
  }

  /** What the loop decides about the subtags still to come. */
  predicate Scan(subtags: seq<string>, variants: set<string>, singletons: set<char>, inExtension: bool) {
    if subtags == [] || subtags[0] == "x" then true
    else if |subtags[0]| == 1 then
      subtags[0][0] !in singletons && Scan(subtags[1..], variants, singletons + {subtags[0][0]}, true)
    else if !inExtension && LooksLikeVariant(subtags[0]) then
      subtags[0] !in variants && Scan(subtags[1..], variants + {subtags[0]}, singletons, inExtension)
    else Scan(subtags[1..], variants, singletons, inExtension)
  }

  predicate ScanTag(subtags: seq<string>)
    requires subtags != []
  {
    subtags[0] == "x" || Scan(subtags[1..], {}, {}, false)
  }

  predicate Ascii(s: string) {
    All(s, c => c < 128 as char)
  }

  /** strings.Split on the hyphen. */
  function Split(s: string): (r: seq<string>)
    ensures r != []
  {
    if s == "" then [""]
    else
      var rest := Split(s[1..]);
      if s[0] == '-' then [""] + rest else [[s[0]] + rest[0]] + rest[1..]
  }

  function Join(ss: seq<string>): string {
    if ss == [] then "" else if |ss| == 1 then ss[0] else ss[0] + "-" + Join(ss[1..])
  }

  /** uniqueConsentLocaleSubtags, on a tag already known to be ASCII. */
  method UniqueSubtags(locale: string) returns (unique: bool)
    requires Ascii(locale)
    ensures unique == ScanTag(Split(Lower(locale)))
  {
    var subtags := Split(Lower(locale));
    SplitAscii(Lower(locale));
    if subtags[0] == "x" { return true; }
    var variants: set<string> := {};
    var singletons := new bool[128](_ => false);
    ghost var seen: set<char> := {};
    var inExtension := false;
    for i := 1 to |subtags|
      invariant Scan(subtags[1..], {}, {}, false) == Scan(subtags[i..], variants, seen, inExtension)
      invariant forall c: char :: c in seen ==> c < 128 as char
      invariant forall k :: 0 <= k < 128 ==> (singletons[k] <==> k as char in seen)
    {
      var subtag := subtags[i];
      assert subtags[i..][1..] == subtags[i + 1..];
      assert Ascii(subtag);
      if subtag == "x" { return true; }
      if |subtag| == 1 {
        if singletons[subtag[0] as int] { return false; }
        singletons[subtag[0] as int] := true;
        seen := seen + {subtag[0]};
        inExtension := true;
      } else if !inExtension && (|subtag| >= 5 || (|subtag| == 4 && '0' <= subtag[0] <= '9')) {
        if subtag in variants { return false; }
        variants := variants + {subtag};
      }
    }
    assert subtags[|subtags|..] == [];
    return true;
  }

  lemma {:induction false} SplitAscii(s: string)
    requires Ascii(s)
    ensures forall i :: 0 <= i < |Split(s)| ==> Ascii(Split(s)[i])
  {
    if s != "" { SplitAscii(s[1..]); }
  }

  // ---------------------------------------------------------------- the scan along the grammar

  /** A subtag the scan passes over before any extension. */
  predicate Passes(s: string) {
    s != "x" && |s| != 1 && !LooksLikeVariant(s)
  }

  lemma {:induction false} ScanPasses(ss: seq<string>, rest: seq<string>, vs: set<string>, cs: set<char>)
    requires forall i :: 0 <= i < |ss| ==> Passes(ss[i])
    ensures Scan(ss + rest, vs, cs, false) == Scan(rest, vs, cs, false)
  {
    if ss == [] {
      assert ss + rest == rest;
    } else {
      assert (ss + rest)[1..] == ss[1..] + rest;
      ScanPasses(ss[1..], rest, vs, cs);
    }
  }

  predicate IsVariantLike(s: string) {
    s != "x" && |s| != 1 && LooksLikeVariant(s)
  }

  function Elements(ss: seq<string>): set<string> {
    set s | s in ss
  }

  predicate NoneIn(ss: seq<string>, vs: set<string>) {
    forall s :: s in ss ==> s !in vs
  }

  lemma {:induction false} ScanVariants(ss: seq<string>, rest: seq<string>, vs: set<string>, cs: set<char>)
    requires forall i :: 0 <= i < |ss| ==> IsVariantLike(ss[i])
    ensures Scan(ss + rest, vs, cs, false) <==>
              Distinct(ss) && NoneIn(ss, vs) && Scan(rest, vs + Elements(ss), cs, false)
  {
    if ss == [] {
      assert ss + rest == rest;
      assert vs + Elements([]) == vs;
    } else {
      var tail := ss[1..];
      assert (ss + rest)[1..] == tail + rest;
      assert ss == [ss[0]] + tail;
      ScanVariants(tail, rest, vs + {ss[0]}, cs);
      assert vs + {ss[0]} + Elements(tail) == vs + Elements(ss);
      DistinctCons(ss);
      assert NoneIn(ss, vs) && ss[0] !in tail <==> ss[0] !in vs && NoneIn(tail, vs + {ss[0]});
    }
  }

  lemma DistinctCons<T>(ss: seq<T>)
    requires ss != []
    ensures Distinct(ss) <==> Distinct(ss[1..]) && ss[0] !in ss[1..]
  {
    var tail := ss[1..];
    if Distinct(tail) && ss[0] !in tail {
      forall i, j | 0 <= i < j < |ss| ensures ss[i] != ss[j] {
        assert ss[j] == tail[j - 1];
        if i > 0 { assert ss[i] == tail[i - 1]; }
      }
    }
    if Distinct(ss) {
      forall i, j | 0 <= i < j < |tail| ensures tail[i] != tail[j] { assert tail[i] == ss[i + 1] && tail[j] == ss[j + 1]; }
    }
  }

  predicate IsExtensionLike(e: Extension) {
    && |e.singleton| == 1 && e.singleton != "x"
    && forall i :: 0 <= i < |e.subtags| ==> |e.subtags[i]| >= 2
  }

  /** Behind the first singleton only singletons count. */
  lemma {:induction false} ScanWithin(ss: seq<string>, rest: seq<string>, vs: set<string>, cs: set<char>)
    requires forall i :: 0 <= i < |ss| ==> |ss[i]| >= 2
    ensures Scan(ss + rest, vs, cs, true) == Scan(rest, vs, cs, true)
  {
    if ss == [] {
      assert ss + rest == rest;
    } else {
      assert (ss + rest)[1..] == ss[1..] + rest;
      ScanWithin(ss[1..], rest, vs, cs);
    }
  }

  function Initial(e: Extension): char {
    if e.singleton == "" then 'x' else e.singleton[0]
  }

  predicate FreshSingletons(es: seq<Extension>, cs: set<char>) {
    forall e :: e in es ==> Initial(e) !in cs
  }

  lemma {:induction false} ScanExtensions(es: seq<Extension>, rest: seq<string>, vs: set<string>, cs: set<char>, inExt: bool)
    requires forall i :: 0 <= i < |es| ==> IsExtensionLike(es[i])
    requires rest == [] || rest[0] == "x"
    ensures Scan(ExtensionTags(es) + rest, vs, cs, inExt) <==> Distinct(Singletons(es)) && FreshSingletons(es, cs)
  {
    if es == [] {
      assert ExtensionTags(es) + rest == rest;
    } else {
      hide Scan, Distinct, Singletons, FreshSingletons, IsExtensionLike, Initial;
      var c, tail := Initial(es[0]), es[1..];
      var more := ExtensionTags(tail) + rest;
      forall i | 0 <= i < |tail| ensures IsExtensionLike(tail[i]) { assert tail[i] == es[i + 1]; }
      ScanExtensions(tail, rest, vs, cs + {c}, true);
      ScanExtension(es[0], more, vs, cs, inExt);
      assert ExtensionTags(es) + rest == [es[0].singleton] + es[0].subtags + more;
      SingletonSplit(es, cs);
    }
  }

  lemma ScanExtension(e: Extension, more: seq<string>, vs: set<string>, cs: set<char>, inExt: bool)
    requires IsExtensionLike(e)
    ensures Scan([e.singleton] + e.subtags + more, vs, cs, inExt) <==>
              Initial(e) !in cs && Scan(more, vs, cs + {Initial(e)}, true)
  {
    assert [e.singleton] + e.subtags + more == [e.singleton] + (e.subtags + more);
    var all := [e.singleton] + (e.subtags + more);
    assert all[1..] == e.subtags + more;
    ScanWithin(e.subtags, more, vs, cs + {Initial(e)});
  }

  lemma SingletonSplit(es: seq<Extension>, cs: set<char>)
    requires es != [] && forall i :: 0 <= i < |es| ==> IsExtensionLike(es[i])
    ensures var c, tail := Initial(es[0]), es[1..];
            Distinct(Singletons(es)) && FreshSingletons(es, cs) <==>
            c !in cs && Distinct(Singletons(tail)) && FreshSingletons(tail, cs + {c})
  {
    var c, tail := Initial(es[0]), es[1..];
    DistinctCons(Singletons(es));
    assert Singletons(es)[1..] == Singletons(tail);
    SingletonMeets(es);
    FreshCons(es, cs);
    FreshUnion(tail, cs, c);
    hide Distinct, Singletons, FreshSingletons, Initial;
  }

  lemma FreshCons(es: seq<Extension>, cs: set<char>)
    requires es != []
    ensures FreshSingletons(es, cs) <==> Initial(es[0]) !in cs && FreshSingletons(es[1..], cs)
  {
    hide Initial;
    assert es == [es[0]] + es[1..];
    assert es[0] in es;
  }

  lemma FreshUnion(es: seq<Extension>, cs: set<char>, c: char)
    ensures FreshSingletons(es, cs + {c}) <==> FreshSingletons(es, cs) && FreshSingletons(es, {c})
  {
    hide Initial;
  }

  /** The first singleton returns later exactly when a later extension has its character. */
  lemma SingletonMeets(es: seq<Extension>)
    requires es != [] && forall i :: 0 <= i < |es| ==> IsExtensionLike(es[i])
    ensures es[0].singleton !in Singletons(es[1..]) <==> FreshSingletons(es[1..], {Initial(es[0])})
  {
    var c, tail := Initial(es[0]), es[1..];
    forall i | 0 <= i < |tail| ensures Singletons(tail)[i] == es[0].singleton <==> Initial(tail[i]) == c {
      assert IsExtensionLike(es[i + 1]) && IsExtensionLike(es[0]);
    }
    hide Initial, IsExtensionLike;
    if es[0].singleton in Singletons(tail) {
      var i :| 0 <= i < |Singletons(tail)| && Singletons(tail)[i] == es[0].singleton;
      assert tail[i] in tail;
    } else {
      forall e | e in tail ensures Initial(e) != c {
        var i :| 0 <= i < |tail| && tail[i] == e;
        assert Singletons(tail)[i] in Singletons(tail);
      }
    }
  }

  // ---------------------------------------------------------------- case folding

  lemma LowerKeeps(s: string)
    ensures Alpha(s) ==> Alpha(Lower(s))
    ensures Digits(s) ==> Digits(Lower(s)) && Lower(s) == s
    ensures Alnum(s) ==> Alnum(Lower(s))
    ensures s != "" ==> IsDigit(Lower(s)[0]) == IsDigit(s[0])
  {
  }

  function LowerOption(o: Option<string>): Option<string> {
    if o.Some? then Some(Lower(o.value)) else None
  }

  function LowerExtension(e: Extension): Extension {
    Extension(Lower(e.singleton), Lowered(e.subtags))
  }

  function LowerExtensions(es: seq<Extension>): (r: seq<Extension>)
    ensures |r| == |es| && forall i :: 0 <= i < |es| ==> r[i] == LowerExtension(es[i])
  {
    seq(|es|, i requires 0 <= i < |es| => LowerExtension(es[i]))
  }

  lemma LoweredConcat(a: seq<string>, b: seq<string>)
    ensures Lowered(a + b) == Lowered(a) + Lowered(b)
  {
  }

  lemma {:induction false} LoweredExtensions(es: seq<Extension>)
    ensures Lowered(ExtensionTags(es)) == ExtensionTags(LowerExtensions(es))
  {
    if es != [] {
      LoweredExtensions(es[1..]);
      assert LowerExtensions(es)[1..] == LowerExtensions(es[1..]);
      LoweredConcat([es[0].singleton] + es[0].subtags, ExtensionTags(es[1..]));
      LoweredConcat([es[0].singleton], es[0].subtags);
    }
  }

  lemma LowerX()
    ensures Lower("x") == "x" && Lower("X") == "x"
  {
  }

  lemma LoweredPrivate(ps: seq<string>)
    ensures Lowered(PrivateTags(ps)) == PrivateTags(Lowered(ps))
  {
    LowerX();
    LoweredConcat(["x"], ps);
  }

  /** The case-folded subtags behind the language, part by part. */
  lemma LoweredParts(t: Tag)
    requires t.LangTag?
    ensures Lowered(Subtags(t)) ==
              [Lower(t.language)] + (Lowered(t.extlangs) + (OptionTags(LowerOption(t.script)) + (OptionTags(LowerOption(t.region)) +
                (Lowered(t.variants) + (ExtensionTags(LowerExtensions(t.extensions)) + PrivateTags(Lowered(t.privateUse)))))))
  {
    var tail := ExtensionTags(t.extensions) + PrivateTags(t.privateUse);
    LoweredExtensions(t.extensions);
    LoweredPrivate(t.privateUse);
    LoweredConcat(ExtensionTags(t.extensions), PrivateTags(t.privateUse));
    LoweredConcat(t.variants, tail);
    LoweredConcat(OptionTags(t.region), t.variants + tail);
    LoweredConcat(OptionTags(t.script), OptionTags(t.region) + (t.variants + tail));
    LoweredConcat(t.extlangs, OptionTags(t.script) + (OptionTags(t.region) + (t.variants + tail)));
    LowerOne(t.language);
    LowerOptionTags(t.script);
    LowerOptionTags(t.region);
    hide Lower, Lowered, LowerOption, LowerExtensions, OptionTags, ExtensionTags, PrivateTags;
    LoweredConcat([t.language], t.extlangs + (OptionTags(t.script) + (OptionTags(t.region) + (t.variants + tail))));
  }

  lemma LowerOne(s: string)
    ensures Lowered([s]) == [Lower(s)]
  {
  }

  lemma LowerOptionTags(o: Option<string>)
    ensures Lowered(OptionTags(o)) == OptionTags(LowerOption(o))
  {
    if o.Some? { LowerOne(o.value); }
  }

  lemma SubtagShapes(t: Tag)
    requires t.LangTag? && WellFormed(t)
    ensures forall i :: 0 <= i < |t.extlangs| ==> Passes(Lowered(t.extlangs)[i])
    ensures t.script.Some? ==> Passes(Lower(t.script.value))
    ensures t.region.Some? ==> Passes(Lower(t.region.value))
    ensures forall i :: 0 <= i < |t.variants| ==> IsVariantLike(Lowered(t.variants)[i])
    ensures forall i :: 0 <= i < |t.extensions| ==> IsExtensionLike(LowerExtensions(t.extensions)[i])
    ensures Lower(t.language) != "x"
  {
    if t.script.Some? { LowerKeeps(t.script.value); }
    if t.region.Some? { LowerKeeps(t.region.value); }
    forall i | 0 <= i < |t.variants| ensures IsVariantLike(Lowered(t.variants)[i]) { LowerKeeps(t.variants[i]); }
    forall i | 0 <= i < |t.extensions| ensures IsExtensionLike(LowerExtensions(t.extensions)[i]) {
      assert IsExtension(t.extensions[i]);
    }
  }

  lemma ScanLangTag(t: Tag)
    requires t.LangTag? && WellFormed(t)
    ensures ScanTag(Lowered(Subtags(t))) == Unique(t)
  {
    LoweredParts(t);
    SubtagShapes(t);
    var es, ps := LowerExtensions(t.extensions), PrivateTags(Lowered(t.privateUse));
    var d := ExtensionTags(es) + ps;
    var c := Lowered(t.variants) + d;
    var b := OptionTags(LowerOption(t.region)) + c;
    var a := OptionTags(LowerOption(t.script)) + b;
    var all := Lowered(t.extlangs) + a;
    hide Scan, Lowered, Lower, LowerExtensions, Singletons, WellFormed, Subtags, ExtensionTags, Passes, IsVariantLike, IsExtensionLike, Distinct;
    assert Lowered(Subtags(t))[1..] == all;
    ScanPasses(Lowered(t.extlangs), a, {}, {});
    ScanPasses(OptionTags(LowerOption(t.script)), b, {}, {});
    ScanPasses(OptionTags(LowerOption(t.region)), c, {}, {});
    ScanVariants(Lowered(t.variants), d, {}, {});
    ScanExtensions(es, ps, {} + Elements(Lowered(t.variants)), {}, false);
    assert Singletons(es) == Lowered(Singletons(t.extensions));
  }

  lemma ScanIrregular(name: seq<string>)
    requires Lowered(name) in IRREGULAR
    ensures ScanTag(Lowered(name))
  {
  }

  /** One character of a split: it starts a subtag or lengthens the first one. */
  function SplitStep(c: char, rest: seq<string>): seq<string>
    requires rest != []
  {
    if c == '-' then [""] + rest else [[c] + rest[0]] + rest[1..]
  }

  lemma SplitStepLower(c: char, rest: seq<string>)
    requires rest != []
    ensures SplitStep(LowerChar(c), Lowered(rest)) == Lowered(SplitStep(c, rest))
  {
    var low := SplitStep(LowerChar(c), Lowered(rest));
    if c == '-' {
      assert Lower("") == "";
    } else {
      assert Lower([c] + rest[0]) == [LowerChar(c)] + Lower(rest[0]);
      assert LowerChar(c) != '-';
    }
    hide LowerChar, Lower;
    assert |low| == |Lowered(SplitStep(c, rest))|;
    forall i | 0 <= i < |low| ensures low[i] == Lowered(SplitStep(c, rest))[i] {}
  }

  lemma {:induction false} SplitLower(s: string)
    ensures Split(Lower(s)) == Lowered(Split(s))
  {
    if s == "" {
      assert Lower("") == "";
    } else {
      SplitLower(s[1..]);
      assert Lower(s)[1..] == Lower(s[1..]);
      SplitStepLower(s[0], Split(s[1..]));
      hide LowerChar, Lower, Lowered;
      assert Split(s) == SplitStep(s[0], Split(s[1..]));
      assert Split(Lower(s)) == SplitStep(Lower(s)[0], Split(Lower(s)[1..]));
    }
  }

  /** `tag` is what the grammar parses as `t`, in any spelling of case. */
  predicate ParsesAs(tag: string, t: Tag) {
    WellFormed(t) && Lowered(Split(tag)) == Lowered(Subtags(t))
  }

  /**
   On every tag of the grammar, of any length and in any case, the flat scan accepts exactly when in
   the tag's parse no variant and no extension singleton repeats; private use never counts.
   */
  lemma ScanMeetsGrammar(tag: string, t: Tag)
    requires ParsesAs(tag, t)
    ensures ScanTag(Split(Lower(tag))) <==> Unique(t)
  {
    SplitLower(tag);
    match t
    case LangTag(_, _, _, _, _, _, _) => ScanLangTag(t);
    case PrivateTag(subtags) => LowerX(); assert Lowered(Subtags(t))[0] == "x";
    case Irregular(name) => ScanIrregular(name);
  }

  /** The locale part of a notice's validity, the expression engine's match taken as the grammar. */
  ghost predicate ValidLocale(tag: string) {
    && 2 <= |tag| <= 35
    && Ascii(tag)
    && (exists t :: ParsesAs(tag, t))
    && ScanTag(Split(Lower(tag)))
  }

  /** A locale is valid exactly when it parses with nothing repeated, and then no parse of it repeats anything. */
  lemma LocaleRule(tag: string)
    ensures ValidLocale(tag) <==> 2 <= |tag| <= 35 && Ascii(tag) && exists t :: ParsesAs(tag, t) && Unique(t)
    ensures ValidLocale(tag) ==> forall t :: ParsesAs(tag, t) ==> Unique(t)
  {
    forall t | ParsesAs(tag, t) ensures ScanTag(Split(Lower(tag))) <==> Unique(t) {
      ScanMeetsGrammar(tag, t);
    }
  }
}
