/** Session bias (app/intent_engine/bias.py): when the conversation already has a
    selected agent and that agent is the top-scoring domain with a middling
    score, its score is raised by 0.10, up to 0.90. */
module IntentEngineBias {
  import opened JsonValue
  import opened Oracles
  import opened IntentEngineRules

  /** The index of the first record with the maximum score, which is what
      `max(scores.keys(), key=...)` picks. */
  function TopIndex(s: seq<DomainScore>): (t: nat)
    requires |s| > 0
    ensures t < |s|
    ensures forall j :: 0 <= j < |s| ==> s[j].score <= s[t].score
    ensures forall j :: 0 <= j < t ==> s[j].score < s[t].score
  {
    if |s| == 1 then 0
    else
      var t := TopIndex(s[..|s| - 1]);
      if s[|s| - 1].score > s[t].score then |s| - 1 else t
  }

  /** The first maximal record is determined by the two properties of `TopIndex`. */
  lemma TopIndexUnique(s: seq<DomainScore>, t: nat)
    requires t < |s|
    requires forall j :: 0 <= j < |s| ==> s[j].score <= s[t].score
    requires forall j :: 0 <= j < t ==> s[j].score < s[t].score
    ensures TopIndex(s) == t
  {
  }

  /** Finds the first maximal record by a scan that keeps the best so far and
      replaces it only on a strictly greater score. */
  method FindTop(s: seq<DomainScore>) returns (t: nat)
    requires |s| > 0
    ensures t == TopIndex(s)
  {
    t := 0;
    var i := 1;
    while i < |s|
      invariant 1 <= i <= |s|
      invariant t < i
      invariant forall j :: 0 <= j < i ==> s[j].score <= s[t].score
      invariant forall j :: 0 <= j < t ==> s[j].score < s[t].score
    {
      if s[i].score > s[t].score {
        t := i;
      }
      i := i + 1;
    }
    TopIndexUnique(s, t);
  }

  /** Whether the bias applies to the top record. */
  predicate Boosts(s: seq<DomainScore>, selected: Json)
    requires |s| > 0
  {
    var t := TopIndex(s);
    0.60 <= s[t].score <= 0.89 && selected == JStr(s[t].domain)
  }

  function Min(a: real, b: real): real { if a <= b then a else b }

  /** The records after `apply_session_bias(scores, selected)`; an empty score
      map with a selected agent raises, as `max` of an empty sequence does. */
  function Biased(s: seq<DomainScore>, selected: Json): Outcome<seq<DomainScore>> {
    if !Truthy(selected) then Ok(s)
    else if s == [] then Raises("max() arg is an empty sequence")
    else
      var t := TopIndex(s);
      if Boosts(s, selected) then
        Ok(s[t := DomainScore(s[t].domain, Min(0.90, s[t].score + 0.10), s[t].signals + [SessionBias])])
      else Ok(s)
  }

  /** `apply_session_bias`: the top record is re-scored and tagged in place. */
  method ApplySessionBias(scores: seq<DomainScore>, selected: Json) returns (r: Outcome<seq<DomainScore>>)
    ensures r == Biased(scores, selected)
  {
    if !Truthy(selected) {
      return Ok(scores);
    }
    if |scores| == 0 {
      return Raises("max() arg is an empty sequence");
    }
    var t := FindTop(scores);
    var top := scores[t].score;
    if 0.60 <= top <= 0.89 && JStr(scores[t].domain) == selected {
      var boosted := if top + 0.10 <= 0.90 then top + 0.10 else 0.90;
      r := Ok(scores[t := DomainScore(scores[t].domain, boosted, scores[t].signals + [SessionBias])]);
    } else {
      r := Ok(scores);
    }
  }

  /** Without a selected agent the scores come back unchanged; with one, only an
      empty score list fails. */
  lemma BiasOutcome(s: seq<DomainScore>, selected: Json)
    ensures !Truthy(selected) ==> Biased(s, selected) == Ok(s)
    ensures Biased(s, selected).Raises? <==> Truthy(selected) && s == []
  {
  }

  /** The top record is boosted if and only if its score lies in [0.60, 0.89] and
      it is the selected agent; it then gets min(0.90, score + 0.10) and the
      session_bias signal, and no other record changes. */
  lemma BiasEffect(s: seq<DomainScore>, selected: Json)
    requires Truthy(selected) && s != []
    ensures var r := Biased(s, selected).value;
      var t := TopIndex(s);
      && |r| == |s|
      && (forall j :: 0 <= j < |s| && j != t ==> r[j] == s[j])
      && r[t].domain == s[t].domain
      && (r[t] != s[t] <==> 0.60 <= s[t].score <= 0.89 && selected == JStr(s[t].domain))
      && (r[t] != s[t] ==> r[t].score == Min(0.90, s[t].score + 0.10) && r[t].signals == s[t].signals + [SessionBias])
  {
    var t := TopIndex(s);
    if Boosts(s, selected) {
      var r := Biased(s, selected).value;
      assert |r[t].signals| > |s[t].signals|;
    }
  }

  /** `apply_session_bias` applied n times in a row. */
  function BiasTimes(s: seq<DomainScore>, selected: Json, n: nat): Outcome<seq<DomainScore>> {
    if n == 0 then Ok(s)
    else match BiasTimes(s, selected, n - 1)
      case Ok(s') => Biased(s', selected)
      case Raises(e) => Raises(e)
  }

  /** One application never lowers a score and never lifts one above 0.90. */
  lemma BiasBounded(s: seq<DomainScore>, selected: Json)
    requires Biased(s, selected).Ok?
    ensures |Biased(s, selected).value| == |s|
    ensures forall j :: 0 <= j < |s| ==> s[j].score <= Biased(s, selected).value[j].score
    ensures forall j :: 0 <= j < |s| ==> Biased(s, selected).value[j].score <= Max(s[j].score, 0.90)
    ensures forall j :: 0 <= j < |s| ==> Biased(s, selected).value[j].domain == s[j].domain
  {
  }

  function Max(a: real, b: real): real { if a >= b then a else b }

  /** However many times the bias is applied, no score goes down and none is
      pushed past 0.90 (a score already above 0.90 stays where it was). */
  lemma {:induction false} BiasRepeatedBounded(s: seq<DomainScore>, selected: Json, n: nat)
    requires BiasTimes(s, selected, n).Ok?
    ensures |BiasTimes(s, selected, n).value| == |s|
    ensures forall j :: 0 <= j < |s| ==> s[j].score <= BiasTimes(s, selected, n).value[j].score
    ensures forall j :: 0 <= j < |s| ==> BiasTimes(s, selected, n).value[j].score <= Max(s[j].score, 0.90)
  {
    if n > 0 {
      BiasRepeatedBounded(s, selected, n - 1);
      var prev := BiasTimes(s, selected, n - 1).value;
      BiasBounded(prev, selected);
    }
  }
}
