/** The lexicon scorer of the configurable intent engine (app/intent_engine/rules.py):
    tokens, strong aliases that must equal a token, weak aliases found as substrings,
    a negation penalty and a penalty when several domains claim the message. */
module IntentEngineRules {
  import opened PyText

  // ------------------------------------------------------------- tokens

  /** The characters of `[\w\-]`. */
  predicate IsTokenChar(c: char) { IsWordChar(c) || c == '-' }

  /** The end of the run of token characters that starts at `i`. */
  function TokenEnd(s: string, i: nat): (k: nat)
    requires i <= |s|
    decreases |s| - i
    ensures i <= k <= |s|
    ensures forall j :: i <= j < k ==> IsTokenChar(s[j])
    ensures k < |s| ==> !IsTokenChar(s[k])
  {
    if i < |s| && IsTokenChar(s[i]) then TokenEnd(s, i + 1) else i
  }

  /** `TOKEN_RE.findall(s)`: the maximal runs of token characters, left to right. */
  function Runs(s: string): (r: seq<string>)
    decreases |s|
    ensures forall k :: 0 <= k < |r| ==> r[k] != [] && forall j :: 0 <= j < |r[k]| ==> IsTokenChar(r[k][j])
  {
    if s == [] then []
    else if !IsTokenChar(s[0]) then Runs(s[1..])
    else
      var k := TokenEnd(s, 0);
      [s[..k]] + Runs(s[k..])
  }

  /** `tokenize(text)`: the runs, lowercased. */
  function Tokenize(text: string): (r: seq<string>)
    ensures |r| == |Runs(text)|
    ensures forall k :: 0 <= k < |r| ==> r[k] == LowerStr(Runs(text)[k])
  {
    var runs := Runs(text);
    seq(|runs|, k requires 0 <= k < |runs| => LowerStr(runs[k]))
  }

  lemma TokenEndAgrees(s: string, t: string, i: nat)
    requires i <= |s| <= |t| && s == t[..|s|]
    requires TokenEnd(t, i) < |s|
    ensures TokenEnd(s, i) == TokenEnd(t, i)
    decreases |s| - i
  {
    if i < |s| && IsTokenChar(s[i]) {
      TokenEndAgrees(s, t, i + 1);
    }
  }

  /** A character outside `[\w\-]` separates tokens: the runs of `a + [c] + b` are
      the runs of `a` followed by the runs of `b`. */
  lemma {:induction false} RunsSplitAtSeparator(a: string, c: char, b: string)
    requires !IsTokenChar(c)
    ensures Runs(a + [c] + b) == Runs(a) + Runs(b)
    decreases |a|
  {
    var s := a + [c] + b;
    if a == [] {
      assert s[1..] == b;
    } else if !IsTokenChar(a[0]) {
      assert s[1..] == a[1..] + [c] + b;
      RunsSplitAtSeparator(a[1..], c, b);
    } else {
      var k := TokenEnd(s, 0);
      assert s[|a|] == c;
      assert k <= |a|;
      assert a == s[..|a|];
      if k == |a| {
        assert TokenEnd(a, 0) == |a| by {
          TokenEndFull(a, 0);
        }
      } else {
        TokenEndAgrees(a, s, 0);
      }
      assert s[..k] == a[..k];
      assert s[k..] == a[k..] + [c] + b;
      RunsSplitAtSeparator(a[k..], c, b);
    }
  }

  lemma TokenEndFull(s: string, i: nat)
    requires i <= |s|
    requires forall j :: i <= j < |s| ==> IsTokenChar(s[j])
    ensures TokenEnd(s, i) == |s|
    decreases |s| - i
  {
    if i < |s| { TokenEndFull(s, i + 1); }
  }

  /** A non-empty run of token characters is exactly one token. */
  lemma RunsOfOneWord(w: string)
    requires w != [] && forall j :: 0 <= j < |w| ==> IsTokenChar(w[j])
    ensures Runs(w) == [w]
    ensures Tokenize(w) == [LowerStr(w)]
  {
    OneRun(w);
  }

  lemma OneRun(w: string)
    requires w != [] && forall j :: 0 <= j < |w| ==> IsTokenChar(w[j])
    ensures Runs(w) == [w]
  {
    TokenEndFull(w, 0);
    assert IsTokenChar(w[0]);
    assert w[..|w|] == w;
    assert w[|w|..] == [];
  }

  // ------------------------------------------------------------ strong hits

  /** The lowercased word list. */
  function LowerAll(words: seq<string>): (r: seq<string>)
    ensures |r| == |words|
    ensures forall k :: 0 <= k < |r| ==> r[k] == LowerStr(words[k])
  {
    seq(|words|, k requires 0 <= k < |words| => LowerStr(words[k]))
  }

  /** `contains_any(tokens, words)`: whether some token equals a lowercased word,
      and the set of such tokens. */
  function ContainsAny(tokens: seq<string>, words: seq<string>): (r: (bool, set<string>))
    ensures r.0 <==> r.1 != {}
    ensures forall t :: t in r.1 <==> t in tokens && t in LowerAll(words)
  {
    var wl := LowerAll(words);
    var hits := set k | 0 <= k < |tokens| && tokens[k] in wl :: tokens[k];
    if hits == {} then (false, hits)
    else (true, hits)
  }

  /** A strong alias containing a space can never equal a token, so it never fires. */
  lemma PhraseNeverAToken(text: string, phrase: string)
    requires ' ' in phrase
    ensures phrase !in Tokenize(text)
    ensures LowerStr(phrase) !in Tokenize(text)
  {
    var toks := Tokenize(text);
    forall k | 0 <= k < |toks|
      ensures ' ' !in toks[k]
    {
      forall j | 0 <= j < |toks[k]|
        ensures toks[k][j] != ' '
      {
        assert IsTokenChar(Runs(text)[k][j]);
      }
    }
    assert ' ' in LowerStr(phrase);
  }

  // ------------------------------------------------------------ weak hits

  /** The lowercased words found in the lowercased text, without duplicates and
      in the order of their first occurrence in `words`. */
  function WeakHits(textL: string, words: seq<string>): (r: seq<string>)
    decreases |words|
  {
    if words == [] then []
    else
      var prev := WeakHits(textL, words[..|words| - 1]);
      var wl := LowerStr(words[|words| - 1]);
      if Has(textL, wl) && wl !in prev then prev + [wl] else prev
  }

  predicate NoDuplicates<T(==)>(s: seq<T>) {
    forall p, q :: 0 <= p < q < |s| ==> s[p] != s[q]
  }

  /** The index of the first word whose lowercase is `x`. */
  function FirstLowerIndex(words: seq<string>, x: string): (k: nat)
    requires x in LowerAll(words)
    ensures k < |words| && LowerStr(words[k]) == x
    ensures forall j :: 0 <= j < k ==> LowerStr(words[j]) != x
  {
    if LowerStr(words[0]) == x then 0
    else
      assert x in LowerAll(words[1..]) by {
        var k :| 0 <= k < |words| && LowerAll(words)[k] == x;
        assert k != 0 && words[1..][k - 1] == words[k];
        assert LowerAll(words[1..])[k - 1] == x;
      }
      1 + FirstLowerIndex(words[1..], x)
  }

  /** The weak hits are exactly the lowercased words contained in the lowercased
      text, each once. */
  lemma {:induction false} WeakHitsCharacterised(textL: string, words: seq<string>)
    decreases |words|
    ensures NoDuplicates(WeakHits(textL, words))
    ensures forall x :: x in WeakHits(textL, words) <==> x in LowerAll(words) && Contains(textL, x)
  {
    if words != [] {
      var init := words[..|words| - 1];
      WeakHitsCharacterised(textL, init);
      assert LowerAll(words) == LowerAll(init) + [LowerStr(words[|words| - 1])];
    }
  }

  /** The weak hits are ordered by first occurrence in the word list. */
  lemma {:induction false} WeakHitsOrdered(textL: string, words: seq<string>)
    decreases |words|
    ensures HitsOrdered(WeakHits(textL, words), words)
  {
    if words != [] {
      var init := words[..|words| - 1];
      WeakHitsOrdered(textL, init);
      WeakHitsCharacterised(textL, words);
      WeakHitsCharacterised(textL, init);
      var prev := WeakHits(textL, init);
      var wl := LowerStr(words[|words| - 1]);
      if Has(textL, wl) && wl !in prev {
        assert wl !in LowerAll(init);
        OrderedAppend(prev, init, words);
      } else {
        OrderedPrefix(prev, init, words);
      }
    }
  }

  /** Every hit is a lowercased word, and the hits are ordered by the index of
      the first word each one lowercases. */
  predicate HitsOrdered(r: seq<string>, words: seq<string>) {
    && (forall x :: x in r ==> x in LowerAll(words))
    && (forall p, q :: 0 <= p < q < |r| ==> FirstLowerIndex(words, r[p]) < FirstLowerIndex(words, r[q]))
  }

  lemma OrderedPrefix(prev: seq<string>, init: seq<string>, words: seq<string>)
    requires |words| >= 1 && init == words[..|words| - 1] && HitsOrdered(prev, init)
    ensures HitsOrdered(prev, words)
  {
    forall x | x in prev ensures x in LowerAll(words) && FirstLowerIndex(words, x) == FirstLowerIndex(init, x) {
      FirstIndexOfPrefix(init, words, x);
    }
  }

  lemma OrderedAppend(prev: seq<string>, init: seq<string>, words: seq<string>)
    requires |words| >= 1 && init == words[..|words| - 1] && HitsOrdered(prev, init)
    requires LowerStr(words[|words| - 1]) !in LowerAll(init)
    ensures HitsOrdered(prev + [LowerStr(words[|words| - 1])], words)
  {
    var wl := LowerStr(words[|words| - 1]);
    var r := prev + [wl];
    OrderedPrefix(prev, init, words);
    assert LowerAll(words)[|words| - 1] == wl;
    forall j | 0 <= j < |words| - 1 ensures LowerStr(words[j]) != wl {
      assert LowerAll(init)[j] == LowerStr(words[j]);
    }
    assert FirstLowerIndex(words, wl) == |words| - 1;
    forall p, q | 0 <= p < q < |r|
      ensures FirstLowerIndex(words, r[p]) < FirstLowerIndex(words, r[q])
    {
      assert r[p] == prev[p];
      if q < |prev| {
        assert r[q] == prev[q];
      }
    }
  }

  lemma FirstIndexOfPrefix(init: seq<string>, words: seq<string>, x: string)
    requires |words| >= 1 && init == words[..|words| - 1]
    requires x in LowerAll(init)
    ensures x in LowerAll(words)
    ensures FirstLowerIndex(words, x) == FirstLowerIndex(init, x)
  {
    var k := FirstLowerIndex(init, x);
    assert LowerStr(words[k]) == x;
    assert x in LowerAll(words);
  }

  /** `substring_hits(text, words)`. */
  method SubstringHits(text: string, words: seq<string>) returns (hits: seq<string>)
    ensures hits == WeakHits(LowerStr(text), words)
  {
    var textL := LowerStr(text);
    hits := [];
    var i := 0;
    while i < |words|
      invariant 0 <= i <= |words|
      invariant hits == WeakHits(textL, words[..i])
    {
      var wl := LowerStr(words[i]);
      assert words[..i + 1][..i] == words[..i];
      if Has(textL, wl) && wl !in hits {
        hits := hits + [wl];
      }
      i := i + 1;
    }
    assert words[..|words|] == words;
  }

  // ------------------------------------------------------------ scoring

  datatype Signal = AliasStrong | AliasWeak | Negation | Conflict | SessionBias

  /** One entry of the alias configuration; a missing "strong" or "weak" list is
      the empty list. */
  datatype AliasEntry = AliasEntry(domain: string, strong: seq<string>, weak: seq<string>)

  datatype Weights = Weights(aliasStrong: real, aliasWeak: real, negation: real, conflict: real)

  /** The record kept for one domain. */
  datatype DomainScore = DomainScore(domain: string, score: real, signals: seq<Signal>)

  /** Dictionary keys are distinct. */
  predicate DistinctDomains(aliases: seq<AliasEntry>) {
    forall p, q :: 0 <= p < q < |aliases| ==> aliases[p].domain != aliases[q].domain
  }

  function Clamp01(x: real): (r: real)
    ensures 0.0 <= r <= 1.0
    ensures 0.0 <= x <= 1.0 ==> r == x
  {
    if x < 0.0 then 0.0 else if x > 1.0 then 1.0 else x
  }

  function Flatten(lists: seq<seq<string>>): (r: seq<string>)
    ensures forall n :: n in r <==> exists k :: 0 <= k < |lists| && n in lists[k]
  {
    if lists == [] then []
    else
      assert forall k :: 1 <= k < |lists| ==> lists[1..][k - 1] == lists[k];
      lists[0] + Flatten(lists[1..])
  }

  /** Some negation word, taken as written, equals a token. */
  predicate Negated(tokens: seq<string>, negations: seq<seq<string>>) {
    exists n :: n in Flatten(negations) && n in tokens
  }

  /** The record of one domain before the conflict pass. */
  function DomainRecord(textL: string, tokens: seq<string>, e: AliasEntry, pooled: seq<string>, w: Weights): DomainScore
  {
    var strongHit := ContainsAny(tokens, e.strong).0;
    var weakHit := WeakHits(textL, e.weak) != [];
    var negHit := (strongHit || weakHit) && exists n :: n in pooled && n in tokens;
    var score := (if strongHit then w.aliasStrong else 0.0)
      + (if weakHit then w.aliasWeak else 0.0)
      + (if negHit then w.negation else 0.0);
    var signals := (if strongHit then [AliasStrong] else [])
      + (if weakHit then [AliasWeak] else [])
      + (if negHit then [Negation] else []);
    DomainScore(e.domain, Clamp01(score), signals)
  }

  /** The record of one domain in terms of its three hit tests. */
  lemma RecordFromHits(textL: string, tokens: seq<string>, e: AliasEntry, pooled: seq<string>, w: Weights,
                       strongHit: bool, weakHit: bool, negated: bool)
    requires strongHit == ContainsAny(tokens, e.strong).0
    requires weakHit == (WeakHits(textL, e.weak) != [])
    requires negated == exists n :: n in pooled && n in tokens
    ensures var negHit := (strongHit || weakHit) && negated;
      DomainRecord(textL, tokens, e, pooled, w)
        == DomainScore(e.domain,
                       Clamp01((if strongHit then w.aliasStrong else 0.0) + (if weakHit then w.aliasWeak else 0.0)
                               + (if negHit then w.negation else 0.0)),
                       (if strongHit then [AliasStrong] else []) + (if weakHit then [AliasWeak] else [])
                         + (if negHit then [Negation] else []))
  {
  }

  /** The records of all domains before the conflict pass. */
  function PreScores(text: string, aliases: seq<AliasEntry>, negations: seq<seq<string>>, w: Weights): (r: seq<DomainScore>)
    ensures |r| == |aliases|
    ensures forall k :: 0 <= k < |r| ==> r[k] == DomainRecord(LowerStr(text), Tokenize(text), aliases[k], Flatten(negations), w)
  {
    var textL := LowerStr(text);
    var tokens := Tokenize(text);
    var pooled := Flatten(negations);
    seq(|aliases|, k requires 0 <= k < |aliases| => DomainRecord(textL, tokens, aliases[k], pooled, w))
  }

  /** The number of records carrying `alias_strong`. */
  function StrongCount(recs: seq<DomainScore>): nat {
    if recs == [] then 0
    else (if AliasStrong in recs[|recs| - 1].signals then 1 else 0) + StrongCount(recs[..|recs| - 1])
  }

  /** The conflict penalty on one record: only strong-hit records change. */
  function WithConflict(d: DomainScore, w: Weights): DomainScore {
    if AliasStrong in d.signals then
      DomainScore(d.domain, if d.score + w.conflict < 0.0 then 0.0 else d.score + w.conflict, d.signals + [Conflict])
    else d
  }

  function ConflictPass(pre: seq<DomainScore>, w: Weights): (r: seq<DomainScore>)
    ensures |r| == |pre|
    ensures forall k :: 0 <= k < |r| ==> r[k] == WithConflict(pre[k], w)
  {
    seq(|pre|, k requires 0 <= k < |pre| => WithConflict(pre[k], w))
  }

  /** `score_domains(text, aliases, negations, weights)`: one record per alias
      domain in configuration order, penalised when several domains have a
      strong hit. */
  function Scores(text: string, aliases: seq<AliasEntry>, negations: seq<seq<string>>, w: Weights): (r: seq<DomainScore>)
    ensures |r| == |aliases|
  {
    var pre := PreScores(text, aliases, negations, w);
    if StrongCount(pre) > 1 then ConflictPass(pre, w) else pre
  }

  /** The body of the per-domain loop of `score_domains`. */
  method ScoreDomain(text: string, tokens: seq<string>, pooled: seq<string>, e: AliasEntry, w: Weights)
    returns (d: DomainScore)
    ensures d == DomainRecord(LowerStr(text), tokens, e, pooled, w)
  {
    var score := 0.0;
    var signals := [];
    var (strongHit, _) := ContainsAny(tokens, e.strong);
    if strongHit {
      score := score + w.aliasStrong;
      signals := signals + [AliasStrong];
    }
    var weakTokens := SubstringHits(text, e.weak);
    if weakTokens != [] {
      score := score + w.aliasWeak;
      signals := signals + [AliasWeak];
    }
    var negated := AnyToken(pooled, tokens);
    if (strongHit || weakTokens != []) && negated {
      score := score + w.negation;
      signals := signals + [Negation];
    }
    RecordFromHits(LowerStr(text), tokens, e, pooled, w, strongHit, weakTokens != [], negated);
    d := DomainScore(e.domain, Clamp01(score), signals);
  }

  /** Scores the domains: one loop fills the records, a second applies the
      conflict penalty to the strong-hit records in place. */
  method ScoreDomains(text: string, aliases: seq<AliasEntry>, negations: seq<seq<string>>, w: Weights)
    returns (scores: seq<DomainScore>)
    ensures scores == Scores(text, aliases, negations, w)
  {
    var tokens := Tokenize(text);
    var pooled := Flatten(negations);
    ghost var pre := PreScores(text, aliases, negations, w);
    scores := [];
    var i := 0;
    while i < |aliases|
      invariant 0 <= i <= |aliases|
      invariant scores == pre[..i]
    {
      var d := ScoreDomain(text, tokens, pooled, aliases[i], w);
      scores := scores + [d];
      i := i + 1;
    }
    assert scores == pre;
    var strong := CountStrong(scores);
    if strong > 1 {
      scores := ApplyConflict(scores, w);
    }
  }

  /** The conflict pass of `score_domains`: each strong-hit record is penalised
      and tagged in place. */
  method ApplyConflict(pre: seq<DomainScore>, w: Weights) returns (scores: seq<DomainScore>)
    ensures scores == ConflictPass(pre, w)
  {
    scores := pre;
    var j := 0;
    while j < |scores|
      invariant 0 <= j <= |scores| == |pre|
      invariant forall k :: 0 <= k < j ==> scores[k] == WithConflict(pre[k], w)
      invariant forall k :: j <= k < |scores| ==> scores[k] == pre[k]
    {
      if AliasStrong in scores[j].signals {
        var d := scores[j];
        var s := d.score + w.conflict;
        scores := scores[j := DomainScore(d.domain, if s < 0.0 then 0.0 else s, d.signals + [Conflict])];
      }
      j := j + 1;
    }
  }

  /** `any(n in tokens for n in pooled)`. */
  method AnyToken(pooled: seq<string>, tokens: seq<string>) returns (b: bool)
    ensures b <==> exists n :: n in pooled && n in tokens
  {
    b := false;
    var i := 0;
    while i < |pooled|
      invariant 0 <= i <= |pooled|
      invariant b <==> exists k :: 0 <= k < i && pooled[k] in tokens
    {
      if pooled[i] in tokens { b := true; }
      i := i + 1;
    }
  }

  /** `len([d for d, v in scores.items() if "alias_strong" in v["signals"]])`. */
  method CountStrong(recs: seq<DomainScore>) returns (n: nat)
    ensures n == StrongCount(recs)
  {
    n := 0;
    var i := 0;
    while i < |recs|
      invariant 0 <= i <= |recs|
      invariant n == StrongCount(recs[..i])
    {
      assert recs[..i + 1][..i] == recs[..i];
      if AliasStrong in recs[i].signals { n := n + 1; }
      i := i + 1;
    }
    assert recs[..|recs|] == recs;
  }

  // ------------------------------------------------------------ properties

  lemma StrongCountPositive(recs: seq<DomainScore>, k: nat)
    requires k < |recs| && AliasStrong in recs[k].signals
    ensures StrongCount(recs) >= 1
  {
    if k < |recs| - 1 {
      StrongCountPositive(recs[..|recs| - 1], k);
    }
  }

  lemma StrongCountTwo(recs: seq<DomainScore>, p: nat, q: nat)
    requires p < q < |recs| && AliasStrong in recs[p].signals && AliasStrong in recs[q].signals
    ensures StrongCount(recs) >= 2
  {
    if q < |recs| - 1 {
      StrongCountTwo(recs[..|recs| - 1], p, q);
    } else {
      StrongCountPositive(recs[..|recs| - 1], p);
    }
  }

  lemma StrongWitness(recs: seq<DomainScore>) returns (p: nat)
    requires StrongCount(recs) >= 1
    ensures p < |recs| && AliasStrong in recs[p].signals
  {
    if AliasStrong in recs[|recs| - 1].signals {
      p := |recs| - 1;
    } else {
      p := StrongWitness(recs[..|recs| - 1]);
      assert recs[p] == recs[..|recs| - 1][p];
    }
  }

  /** More than one `alias_strong` record means two distinct strong-hit domains. */
  lemma StrongPair(recs: seq<DomainScore>) returns (p: nat, q: nat)
    requires StrongCount(recs) > 1
    ensures p < q < |recs| && AliasStrong in recs[p].signals && AliasStrong in recs[q].signals
  {
    var init := recs[..|recs| - 1];
    if AliasStrong in recs[|recs| - 1].signals {
      p := StrongWitness(init);
      q := |recs| - 1;
      assert recs[p] == init[p];
    } else {
      p, q := StrongPair(init);
      assert recs[p] == init[p] && recs[q] == init[q];
    }
  }

  /** Some record other than the given one has a strong hit. */
  predicate OtherStrong(recs: seq<DomainScore>, k: nat) {
    exists j :: 0 <= j < |recs| && j != k && AliasStrong in recs[j].signals
  }

  lemma StrongHitIff(tokens: seq<string>, strong: seq<string>)
    ensures ContainsAny(tokens, strong).0 <==> exists t :: t in tokens && t in LowerAll(strong)
  {
    var ca := ContainsAny(tokens, strong);
    if ca.0 {
      var t :| t in ca.1;
    }
  }

  lemma WeakHitIff(textL: string, weak: seq<string>)
    ensures WeakHits(textL, weak) != [] <==> exists x :: x in LowerAll(weak) && Contains(textL, x)
  {
    WeakHitsCharacterised(textL, weak);
    var hits := WeakHits(textL, weak);
    if hits != [] {
      assert hits[0] in hits;
    }
  }

  /** The signals of one record, as three optional parts. */
  lemma SignalsOfParts(a: bool, b: bool, c: bool)
    ensures var gs := (if a then [AliasStrong] else []) + (if b then [AliasWeak] else []) + (if c then [Negation] else []);
      && (AliasStrong in gs <==> a) && (AliasWeak in gs <==> b) && (Negation in gs <==> c)
      && Conflict !in gs && SessionBias !in gs && SignalsOrdered(gs)
  {
  }

  /** The strong, weak and negation signals of one record fire exactly under
      their conditions, in that order. */
  lemma DomainRecordSignals(textL: string, tokens: seq<string>, e: AliasEntry, pooled: seq<string>, w: Weights)
    ensures var r := DomainRecord(textL, tokens, e, pooled, w);
      var strong := exists t :: t in tokens && t in LowerAll(e.strong);
      var weak := exists x :: x in LowerAll(e.weak) && Contains(textL, x);
      && r.domain == e.domain
      && 0.0 <= r.score <= 1.0
      && (AliasStrong in r.signals <==> strong)
      && (AliasWeak in r.signals <==> weak)
      && (Negation in r.signals <==> (strong || weak) && exists n :: n in pooled && n in tokens)
      && Conflict !in r.signals && SessionBias !in r.signals
      && SignalsOrdered(r.signals)
  {
    StrongHitIff(tokens, e.strong);
    WeakHitIff(textL, e.weak);
    var a := ContainsAny(tokens, e.strong).0;
    var b := WeakHits(textL, e.weak) != [];
    SignalsOfParts(a, b, (a || b) && exists n :: n in pooled && n in tokens);
  }

  /** Every configured domain gets one record, in configuration order; its
      strong, weak and negation signals fire exactly under their conditions; the
      conflict signal is added if and only if the domain has a strong hit and so
      has another domain; the signals are ordered strong, weak, negation,
      conflict. */
  lemma ScoresSignals(text: string, aliases: seq<AliasEntry>, negations: seq<seq<string>>, w: Weights, k: nat)
    requires k < |aliases|
    ensures var s := Scores(text, aliases, negations, w);
      var toks := Tokenize(text);
      var strong := exists t :: t in toks && t in LowerAll(aliases[k].strong);
      var weak := exists x :: x in LowerAll(aliases[k].weak) && Contains(LowerStr(text), x);
      && |s| == |aliases|
      && s[k].domain == aliases[k].domain
      && (AliasStrong in s[k].signals <==> strong)
      && (AliasWeak in s[k].signals <==> weak)
      && (Negation in s[k].signals <==> (strong || weak) && exists n :: n in Flatten(negations) && n in toks)
      && (Conflict in s[k].signals <==> strong && OtherStrong(s, k))
      && SignalsOrdered(s[k].signals)
  {
    var pre := PreScores(text, aliases, negations, w);
    var s := Scores(text, aliases, negations, w);
    forall j | 0 <= j < |pre|
      ensures AliasStrong in s[j].signals <==> AliasStrong in pre[j].signals
    {
      DomainRecordSignals(LowerStr(text), Tokenize(text), aliases[j], Flatten(negations), w);
      WithConflictSignals(pre[j], w);
    }
    DomainRecordSignals(LowerStr(text), Tokenize(text), aliases[k], Flatten(negations), w);
    WithConflictSignals(pre[k], w);
    if StrongCount(pre) > 1 {
      if AliasStrong in pre[k].signals {
        var p, q := StrongPair(pre);
        var j := if p == k then q else p;
        assert AliasStrong in s[j].signals;
      }
    } else if AliasStrong in pre[k].signals && OtherStrong(s, k) {
      var j :| 0 <= j < |s| && j != k && AliasStrong in s[j].signals;
      if j < k { StrongCountTwo(pre, j, k); } else { StrongCountTwo(pre, k, j); }
    }
  }

  /** The conflict pass keeps the strong, weak and negation signals, adds the
      conflict signal exactly to strong-hit records, and keeps the order. */
  lemma WithConflictSignals(d: DomainScore, w: Weights)
    requires SignalsOrdered(d.signals) && Conflict !in d.signals && SessionBias !in d.signals
    ensures var r := WithConflict(d, w).signals;
      && (AliasStrong in r <==> AliasStrong in d.signals)
      && (AliasWeak in r <==> AliasWeak in d.signals)
      && (Negation in r <==> Negation in d.signals)
      && (Conflict in r <==> AliasStrong in d.signals)
      && SignalsOrdered(r)
  {
    if AliasStrong in d.signals {
      var r := d.signals + [Conflict];
      forall p, q | 0 <= p < q < |r| ensures Rank(r[p]) < Rank(r[q]) {
        if q == |r| - 1 {
          assert r[p] in d.signals;
        }
      }
    }
  }

  function Rank(g: Signal): nat {
    match g
    case AliasStrong => 0
    case AliasWeak => 1
    case Negation => 2
    case Conflict => 3
    case SessionBias => 4
  }

  /** Signals appear in the order alias_strong, alias_weak, negation, conflict,
      session_bias, so each at most once. */
  predicate SignalsOrdered(gs: seq<Signal>) {
    forall p, q :: 0 <= p < q < |gs| ==> Rank(gs[p]) < Rank(gs[q])
  }

  /** Every score is at least 0; it is at most 1 unless the conflict penalty was
      applied, and always at most 1 when the conflict weight is not positive. */
  lemma ScoresBounds(text: string, aliases: seq<AliasEntry>, negations: seq<seq<string>>, w: Weights, k: nat)
    requires k < |aliases|
    ensures 0.0 <= Scores(text, aliases, negations, w)[k].score
    ensures Conflict !in Scores(text, aliases, negations, w)[k].signals ==> Scores(text, aliases, negations, w)[k].score <= 1.0
    ensures w.conflict <= 0.0 ==> Scores(text, aliases, negations, w)[k].score <= 1.0
  {
    var pre := PreScores(text, aliases, negations, w);
    DomainRecordSignals(LowerStr(text), Tokenize(text), aliases[k], Flatten(negations), w);
  }

  /** Two lowercase words separated by a space are two tokens. */
  lemma TokensOfTwoWords(x: string, y: string)
    requires x != [] && forall j :: 0 <= j < |x| ==> IsTokenChar(x[j]) && Lower(x[j]) == x[j]
    requires y != [] && forall j :: 0 <= j < |y| ==> IsTokenChar(y[j]) && Lower(y[j]) == y[j]
    ensures Tokenize(x + [' '] + y) == [x, y]
  {
    RunsSplitAtSeparator(x, ' ', y);
    OneRun(x);
    OneRun(y);
    LowerStrOfLower(x);
    LowerStrOfLower(y);
  }

  lemma StrongOnlyRecord(textL: string, tokens: seq<string>, d: string, word: string, w: Weights)
    requires word in tokens && LowerStr(word) == word
    requires 0.0 <= w.aliasStrong <= 1.0
    ensures DomainRecord(textL, tokens, AliasEntry(d, [word], []), [], w) == DomainScore(d, w.aliasStrong, [AliasStrong])
  {
    assert LowerAll([word]) == [word];
    StrongHitIff(tokens, [word]);
  }

  /** With a positive conflict weight a conflicting score can exceed 1. */
  lemma ConflictCanExceedOne()
    ensures var w := Weights(1.0, 0.0, 0.0, 0.5);
      var a := [AliasEntry("food", ["pizza"], []), AliasEntry("taxi", ["cab"], [])];
      Scores("pizza cab", a, [], w)[0].score == 1.5
  {
    var w := Weights(1.0, 0.0, 0.0, 0.5);
    var a := [AliasEntry("food", ["pizza"], []), AliasEntry("taxi", ["cab"], [])];
    assert "pizza cab" == "pizza" + [' '] + "cab";
    TokensOfTwoWords("pizza", "cab");
    var toks := Tokenize("pizza cab");
    LowerStrOfLower("pizza");
    LowerStrOfLower("cab");
    StrongOnlyRecord(LowerStr("pizza cab"), toks, "food", "pizza", w);
    StrongOnlyRecord(LowerStr("pizza cab"), toks, "taxi", "cab", w);
    assert Flatten([]) == [];
    var pre := PreScores("pizza cab", a, [], w);
    assert pre[0] == DomainScore("food", 1.0, [AliasStrong]);
    assert pre[1] == DomainScore("taxi", 1.0, [AliasStrong]);
    StrongCountTwo(pre, 0, 1);
  }
}
