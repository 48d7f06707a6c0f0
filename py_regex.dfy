/** The pieces of Python's `re` semantics that the modelled patterns use: the word
    boundary `\b`, the end anchor `$`, whole-word literals and the leftmost search
    over an alternation of whole words, `\b(w0|w1|...)\b`. Each pattern of the
    program is written by hand on top of these. */
module PyRegex {
  import opened PyText

  /** `\b` at index `i`: exactly one of the characters on either side is a word
      character (the text's ends count as non-word). */
  predicate IsBoundary(t: string, i: int) {
    0 <= i <= |t| && ((i > 0 && IsWordChar(t[i - 1])) != (i < |t| && IsWordChar(t[i])))
  }

  /** `$` without MULTILINE: at the end, or just before a final newline. */
  predicate AtEnd(t: string, i: int) {
    i == |t| || (i == |t| - 1 && i >= 0 && t[i] == '\n')
  }

  /** `\bw\b` matches at index `i`. */
  predicate WholeWordAt(t: string, w: string, i: int) {
    OccursAt(t, w, i) && IsBoundary(t, i) && IsBoundary(t, i + |w|)
  }

  /** `re.search(r'\b' + re.escape(w) + r'\b', t)` finds something. */
  predicate HasWholeWord(t: string, w: string) {
    exists i :: 0 <= i <= |t| && WholeWordAt(t, w, i)
  }

  /** The leftmost whole-word occurrence of `w` at or after `i`, or -1. */
  function FindWholeWord(t: string, w: string, i: nat): (r: int)
    requires i <= |t|
    decreases |t| - i
    ensures r == -1 || (i <= r <= |t| && WholeWordAt(t, w, r))
    ensures r == -1 ==> forall j :: i <= j <= |t| ==> !WholeWordAt(t, w, j)
    ensures r != -1 ==> forall j :: i <= j < r ==> !WholeWordAt(t, w, j)
  {
    if WholeWordAt(t, w, i) then i
    else if i == |t| then -1
    else FindWholeWord(t, w, i + 1)
  }

  /** `HasWholeWord` decided by the leftmost scan. */
  function WholeWordFound(t: string, w: string): (b: bool)
    ensures b == HasWholeWord(t, w)
  {
    FindWholeWord(t, w, 0) != -1
  }

  /** Which alternative of `\b(ws[0]|ws[1]|...)\b` matches at `i`, as the regex
      engine tries them in order (-1 when none does); alternatives before `from`
      are not tried. */
  function AltFrom(t: string, ws: seq<string>, i: int, from: nat): (k: int)
    requires from <= |ws|
    decreases |ws| - from
    ensures k == -1 || (from <= k < |ws| && WholeWordAt(t, ws[k], i))
    ensures k == -1 ==> forall j :: from <= j < |ws| ==> !WholeWordAt(t, ws[j], i)
    ensures k != -1 ==> forall j :: from <= j < k ==> !WholeWordAt(t, ws[j], i)
  {
    if from == |ws| then -1
    else if WholeWordAt(t, ws[from], i) then from
    else AltFrom(t, ws, i, from + 1)
  }

  /** The first alternative matching at `i`, or -1. */
  function AltAt(t: string, ws: seq<string>, i: int): (k: int)
    ensures k == -1 || (0 <= k < |ws| && WholeWordAt(t, ws[k], i))
    ensures k == -1 ==> forall j :: 0 <= j < |ws| ==> !WholeWordAt(t, ws[j], i)
    ensures k != -1 ==> forall j :: 0 <= j < k ==> !WholeWordAt(t, ws[j], i)
  {
    AltFrom(t, ws, i, 0)
  }

  /** A match of an alternation: where it starts and which alternative matched. */
  datatype AltMatch = AltMatch(start: nat, alt: nat)

  /** `re.search(r'\b(ws[0]|...)\b', t)` from index `i`: the leftmost position
      where some alternative matches, with the first such alternative. */
  function SearchAlt(t: string, ws: seq<string>, i: nat): (r: Option<AltMatch>)
    requires i <= |t|
    decreases |t| - i
    ensures r.Some? ==> (i <= r.value.start <= |t| && r.value.alt < |ws|
                         && AltAt(t, ws, r.value.start) == r.value.alt as int
                         && WholeWordAt(t, ws[r.value.alt], r.value.start))
    ensures r.Some? ==> forall j, k :: i <= j < r.value.start && 0 <= k < |ws| ==> !WholeWordAt(t, ws[k], j)
    ensures r.None? <==> forall j, k :: i <= j <= |t| && 0 <= k < |ws| ==> !WholeWordAt(t, ws[k], j)
  {
    var k := AltAt(t, ws, i);
    if k != -1 then Some(AltMatch(i, k))
    else if i == |t| then None
    else SearchAlt(t, ws, i + 1)
  }

  /** The matched text, `match.group(0)`, of a whole-word alternation. */
  function SearchAltText(t: string, ws: seq<string>): (r: Option<string>)
    ensures r.Some? ==> r.value in ws
    ensures r.None? <==> forall k :: 0 <= k < |ws| ==> !HasWholeWord(t, ws[k])
  {
    match SearchAlt(t, ws, 0)
    case None => None
    case Some(m) => Some(ws[m.alt])
  }

  /** A text in which `w` occurs whole has a whole-word match of any alternation
      listing `w`. */
  lemma AlternationFindsWord(t: string, ws: seq<string>, k: nat, i: nat)
    requires k < |ws| && i <= |t| && WholeWordAt(t, ws[k], i)
    ensures SearchAlt(t, ws, 0).Some? && SearchAlt(t, ws, 0).value.start <= i
  {
  }

  /** Word boundaries do not depend on letter case. */
  lemma BoundaryOfLower(t: string, i: int)
    requires 0 <= i <= |t|
    ensures IsBoundary(LowerStr(t), i) == IsBoundary(t, i)
  {
  }

  /** How `re.search` scans: given the outcome of a match attempt at every
      position, the first position at or after `i` whose attempt succeeded. */
  function Leftmost<T>(attempts: seq<Option<T>>, i: nat): (r: Option<nat>)
    requires i <= |attempts|
    decreases |attempts| - i
    ensures r.Some? ==> i <= r.value < |attempts| && attempts[r.value].Some?
    ensures r.Some? ==> forall j :: i <= j < r.value ==> attempts[j].None?
    ensures r.None? <==> forall j :: i <= j < |attempts| ==> attempts[j].None?
  {
    if i == |attempts| then None
    else if attempts[i].Some? then Some(i)
    else Leftmost(attempts, i + 1)
  }

  /** The digits at `t[i..i+n]`. */
  predicate DigitsAt(t: string, i: nat, n: nat) {
    i + n <= |t| && forall j :: i <= j < i + n ==> IsDigit(t[j])
  }
}
