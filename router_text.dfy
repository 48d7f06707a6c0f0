/** `_normalize_text` of app/services/router_service.py: CamelCase split, runs of
    underscores and dashes to one space, runs of whitespace to one space, strip
    and lowercase. The NFKC step before them is not part of this model. */
module RouterText {
  import opened PyText

  /** An ASCII lowercase letter directly followed by an ASCII capital at `k`. */
  predicate CamelPair(s: string, k: nat)
    requires k + 1 < |s|
  {
    IsAsciiLower(s[k]) && IsAsciiUpper(s[k + 1])
  }

  /** Two whitespace characters in a row at `k`. */
  predicate SpacePair(s: string, k: nat)
    requires k + 1 < |s|
  {
    IsSpace(s[k]) && IsSpace(s[k + 1])
  }

  /** `re.sub(r'(?<=[a-z])(?=[A-Z])', ' ', t)` from index `i` on: a space before
      every ASCII capital that follows an ASCII lowercase letter. */
  function CamelSplit(t: string, i: nat): (r: string)
    requires i <= |t|
    decreases |t| - i
    ensures |r| >= |t| - i
    ensures i < |t| ==> r[0] == (if i > 0 && IsAsciiLower(t[i - 1]) && IsAsciiUpper(t[i]) then ' ' else t[i])
    ensures forall k :: 0 <= k < |r| - 1 ==> !CamelPair(r, k)
  {
    if i == |t| then []
    else
      var rest := CamelSplit(t, i + 1);
      var r := (if i > 0 && IsAsciiLower(t[i - 1]) && IsAsciiUpper(t[i]) then " " else []) + [t[i]] + rest;
      assert forall k :: 0 <= k < |r| - 1 ==> !CamelPair(r, k) by {
        var p := |r| - |rest|;
        forall k | 0 <= k < |r| - 1 ensures !CamelPair(r, k) {
          if k >= p {
            assert r[k] == rest[k - p] && r[k + 1] == rest[k + 1 - p];
            assert !CamelPair(rest, k - p);
          }
        }
      }
      r
  }

  predicate IsDash(c: char) { c == '_' || c == '-' }

  /** `re.sub(r'[_\-]+', ' ', s)` from index `i` on: each run of underscores and
      dashes becomes one space. */
  function DashRuns(s: string, i: nat): (r: string)
    requires i <= |s|
    decreases |s| - i
    ensures forall k :: 0 <= k < |r| ==> !IsDash(r[k])
  {
    if i == |s| then []
    else
      var rest := DashRuns(s, i + 1);
      if IsDash(s[i]) then (if i > 0 && IsDash(s[i - 1]) then [] else " ") + rest
      else [s[i]] + rest
  }

  /** `re.sub(r'\s+', ' ', s)` from index `i` on: each run of whitespace becomes
      one space, so every whitespace character left is a space and no two are
      adjacent. */
  function SqueezeSpaces(s: string, i: nat): (r: string)
    requires i <= |s|
    decreases |s| - i
    ensures forall k :: 0 <= k < |r| ==> IsSpace(r[k]) ==> r[k] == ' '
    ensures forall k :: 0 <= k < |r| - 1 ==> !SpacePair(r, k)
    ensures i > 0 && IsSpace(s[i - 1]) && r != [] ==> !IsSpace(r[0])
    ensures (forall k :: i <= k < |s| ==> !IsDash(s[k])) ==> forall k :: 0 <= k < |r| ==> !IsDash(r[k])
  {
    if i == |s| then []
    else
      var rest := SqueezeSpaces(s, i + 1);
      var h := if IsSpace(s[i]) then (if i > 0 && IsSpace(s[i - 1]) then [] else " ") else [s[i]];
      ConsNoPair(h, rest);
      h + rest
  }

  /** At most one character put in front of a text without adjacent
      whitespace keeps it so, unless both it and the text's first are
      whitespace. */
  lemma ConsNoPair(h: string, rest: string)
    requires |h| <= 1
    requires forall k :: 0 <= k < |rest| - 1 ==> !SpacePair(rest, k)
    requires h != [] && rest != [] ==> !(IsSpace(h[0]) && IsSpace(rest[0]))
    ensures forall k :: 0 <= k < |h + rest| - 1 ==> !SpacePair(h + rest, k)
  {
    var r := h + rest;
    forall k | 0 <= k < |r| - 1 ensures !SpacePair(r, k) {
      if k >= |h| {
        assert r[k] == rest[k - |h|] && r[k + 1] == rest[k + 1 - |h|];
        assert !SpacePair(rest, k - |h|);
      } else {
        assert r[0] == h[0] && r[1] == rest[0];
      }
    }
  }

  /** `_normalize_text(t)`. */
  function NormalizeText(t: string): string {
    if t == [] then []
    else LowerStr(Strip(SqueezeSpaces(DashRuns(CamelSplit(t, 0), 0), 0)))
  }

  // ------------------------------------------------------------- properties

  /** No underscore or dash, and whitespace only as single spaces. */
  predicate SingleSpaced(s: string) {
    && (forall k :: 0 <= k < |s| ==> !IsDash(s[k]) && (IsSpace(s[k]) ==> s[k] == ' '))
    && (forall k :: 0 <= k < |s| - 1 ==> !SpacePair(s, k))
  }

  /** Lowering never produces a space, an underscore or a dash from anything
      else, and keeps the space. */
  lemma LowerKeepsSeparators(c: char)
    ensures IsDash(Lower(c)) <==> IsDash(c)
    ensures Lower(c) == ' ' <==> c == ' '
  {
  }

  lemma SqueezedSingleSpaced(d: string)
    requires forall k :: 0 <= k < |d| ==> !IsDash(d[k])
    ensures SingleSpaced(SqueezeSpaces(d, 0))
  {
  }

  lemma StripSingleSpaced(q: string)
    requires SingleSpaced(q)
    ensures SingleSpaced(Strip(q))
  {
    var s := Strip(q);
    var o := StripOffset(q);
    SliceSingleSpaced(q, o, o + |s|);
  }

  /** Any slice of a single-spaced text is single-spaced. */
  lemma SliceSingleSpaced(q: string, i: nat, j: nat)
    requires i <= j <= |q| && SingleSpaced(q)
    ensures SingleSpaced(q[i..j])
  {
    var s := q[i..j];
    forall k | 0 <= k < |s| ensures !IsDash(s[k]) && (IsSpace(s[k]) ==> s[k] == ' ') {
      assert s[k] == q[i + k];
    }
    forall k | 0 <= k < |s| - 1 ensures !SpacePair(s, k) {
      assert s[k] == q[i + k] && s[k + 1] == q[i + k + 1];
      assert !SpacePair(q, i + k);
    }
  }

  lemma LowerSingleSpaced(s: string)
    requires SingleSpaced(s)
    ensures SingleSpaced(LowerStr(s))
    ensures forall k :: 0 <= k < |s| ==> !IsAsciiUpper(LowerStr(s)[k])
  {
    var r := LowerStr(s);
    forall k | 0 <= k < |r| ensures !IsDash(r[k]) && (IsSpace(r[k]) ==> r[k] == ' ') {
      LowerKeepsSeparators(s[k]);
    }
    forall k | 0 <= k < |r| - 1 ensures !SpacePair(r, k) {
      assert !SpacePair(s, k);
    }
  }

  /** The normalised text holds no underscore, dash or ASCII capital; its only
      whitespace is single spaces between other characters. */
  lemma NormalizedShape(t: string)
    ensures var r := NormalizeText(t);
      && SingleSpaced(r)
      && (forall k :: 0 <= k < |r| ==> !IsAsciiUpper(r[k]))
      && (r == [] || (!IsSpace(r[0]) && !IsSpace(r[|r| - 1])))
  {
    if t != [] {
      var q := SqueezeSpaces(DashRuns(CamelSplit(t, 0), 0), 0);
      SqueezedSingleSpaced(DashRuns(CamelSplit(t, 0), 0));
      StripSingleSpaced(q);
      LowerSingleSpaced(Strip(q));
    }
  }

  /** Text without ASCII capitals gets no split. */
  lemma {:induction false} CamelPlain(t: string, i: nat)
    requires i <= |t|
    requires forall k :: i <= k < |t| ==> !IsAsciiUpper(t[k])
    decreases |t| - i
    ensures CamelSplit(t, i) == t[i..]
  {
    if i < |t| {
      CamelPlain(t, i + 1);
      assert t[i..] == [t[i]] + t[i + 1..];
    }
  }

  /** Text without underscores or dashes is left alone. */
  lemma {:induction false} DashPlain(s: string, i: nat)
    requires i <= |s|
    requires forall k :: i <= k < |s| ==> !IsDash(s[k])
    decreases |s| - i
    ensures DashRuns(s, i) == s[i..]
  {
    if i < |s| {
      DashPlain(s, i + 1);
      assert s[i..] == [s[i]] + s[i + 1..];
    }
  }

  /** Text whose whitespace is single spaces is left alone. */
  lemma {:induction false} SqueezePlain(s: string, i: nat)
    requires i <= |s| && SingleSpaced(s)
    requires i > 0 ==> !IsSpace(s[i - 1]) || i == |s| || !IsSpace(s[i])
    decreases |s| - i
    ensures SqueezeSpaces(s, i) == s[i..]
  {
    if i < |s| {
      if i + 1 < |s| {
        assert !SpacePair(s, i);
      }
      SqueezePlain(s, i + 1);
      assert s[i..] == [s[i]] + s[i + 1..];
    }
  }

  /** A text already in normal form: no capital, single inner spaces and no
      whitespace at either end. */
  predicate Normal(s: string) {
    && SingleSpaced(s)
    && (forall k :: 0 <= k < |s| ==> Lower(s[k]) == s[k])
    && (s == [] || (!IsSpace(s[0]) && !IsSpace(s[|s| - 1])))
  }

  /** A text in normal form normalises to itself. */
  lemma NormalizeNormal(s: string)
    requires Normal(s)
    ensures NormalizeText(s) == s
  {
    if s != [] {
      CamelPlain(s, 0);
      DashPlain(s, 0);
      NormalStages(s);
    }
  }

  /** Normalising twice is normalising once. */
  lemma NormalizeIdempotent(t: string)
    ensures NormalizeText(NormalizeText(t)) == NormalizeText(t)
  {
    var r := NormalizeText(t);
    NormalizedShape(t);
    if t != [] {
      var s := Strip(SqueezeSpaces(DashRuns(CamelSplit(t, 0), 0), 0));
      LowerStrIdempotent(s);
    }
    NormalizeNormal(r);
  }

  lemma NormalizeEmpty()
    ensures NormalizeText("") == ""
  {
  }

  /** ASCII letters around one inner space: single-spaced, and in normal form
      when the letters are lowercase. */
  lemma TwoWords(s: string, j: nat)
    requires 0 < j < |s| - 1 && s[j] == ' '
    requires forall k :: 0 <= k < |s| && k != j ==> IsAsciiAlpha(s[k])
    ensures SingleSpaced(s) && !IsSpace(s[0]) && !IsSpace(s[|s| - 1])
    ensures (forall k :: 0 <= k < |s| && k != j ==> IsAsciiLower(s[k])) ==> Normal(s)
  {
  }

  /** "AddService" becomes "add service". */
  lemma NormalizeCamel(t: string)
    requires t == "AddService"
    ensures NormalizeText(t) == "add service"
  {
    var x, y := "Add", "Service";
    assert t == x + y;
    assert IsAsciiLower(x[2]) && IsAsciiUpper(y[0]);
    CamelJoin(x, y);
    var c := x + " " + y;
    assert c == "Add Service";
    TwoWords(c, 3);
    DashPlain(c, 0);
    SqueezePlain(c, 0);
    StripOfStripped(c);
    LowerExample(c);
  }

  /** Two words, the first ending in a lowercase letter and the second opening
      with a capital, with no other capital after a first letter, are split
      into two words at the capital. */
  lemma CamelJoin(x: string, y: string)
    requires x != [] && y != [] && IsAsciiLower(x[|x| - 1]) && IsAsciiUpper(y[0])
    requires forall k :: 1 <= k < |x| ==> !IsAsciiUpper(x[k])
    requires forall k :: 1 <= k < |y| ==> !IsAsciiUpper(y[k])
    ensures CamelSplit(x + y, 0) == x + " " + y
  {
    var t := x + y;
    var n := |x|;
    forall k | 0 < k < |t| && k != n ensures !IsAsciiUpper(t[k]) {
      if k < n { assert t[k] == x[k]; } else { assert t[k] == y[k - n]; }
    }
    assert t[n - 1] == x[n - 1] && t[n] == y[0];
    CamelSplitAt(t, n);
    assert t[..n] == x && t[n..] == y;
  }

  /** The split of a text whose only capital after its first letter follows a
      lowercase letter at `n`. */
  lemma CamelSplitAt(t: string, n: nat)
    requires 0 < n < |t| && IsAsciiLower(t[n - 1]) && IsAsciiUpper(t[n])
    requires forall k :: 0 < k < |t| && k != n ==> !IsAsciiUpper(t[k])
    ensures CamelSplit(t, 0) == t[..n] + " " + t[n..]
  {
    forall k | 0 <= k < n ensures !CamelAt(t, k) {
    }
    CamelRun(t, 0, n);
    CamelTail(t, n);
    assert t[0..n] == t[..n];
    Regroup(t[..n], t[n..]);
  }

  /** From a capital after a lowercase letter with no capital after it, the
      split is a space and the rest of the text. */
  lemma CamelTail(t: string, n: nat)
    requires 0 < n < |t| && IsAsciiLower(t[n - 1]) && IsAsciiUpper(t[n])
    requires forall k :: n < k < |t| ==> !IsAsciiUpper(t[k])
    ensures CamelSplit(t, n) == " " + t[n..]
  {
    CamelPlain(t, n + 1);
    assert t[n..] == [t[n]] + t[n + 1..];
  }

  lemma Regroup(a: string, b: string)
    ensures a + (" " + b) == a + " " + b
  {
  }

  /** A capital right after a lowercase letter at `k`. */
  predicate CamelAt(t: string, k: nat)
    requires k < |t|
  {
    k > 0 && IsAsciiLower(t[k - 1]) && IsAsciiUpper(t[k])
  }

  /** Where no capital follows a lowercase letter, the split copies the text. */
  lemma {:induction false} CamelRun(t: string, i: nat, j: nat)
    requires i <= j <= |t|
    requires forall k :: i <= k < j ==> !CamelAt(t, k)
    decreases j - i
    ensures CamelSplit(t, i) == t[i..j] + CamelSplit(t, j)
  {
    if i < j {
      assert !CamelAt(t, i);
      CamelRun(t, i + 1, j);
      assert t[i..j] == [t[i]] + t[i + 1..j];
    }
  }

  lemma LowerExample(c: string)
    requires c == "Add Service"
    ensures LowerStr(c) == "add service"
  {
    var r := LowerStr(c);
    assert r[0] == 'a' && r[4] == 's';
    assert forall k :: 0 <= k < |r| && k != 0 && k != 4 ==> r[k] == c[k];
  }

  /** "add_service" and "add-service" become "add service". */
  lemma NormalizeSeparated(t: string, c: char)
    requires IsDash(c) && t == "add" + [c] + "service"
    ensures NormalizeText(t) == "add service"
  {
    CamelPlain(t, 0);
    DashExample(t, c);
    TwoWords("add service", 3);
    NormalStages("add service");
  }

  /** The stages after the dash step leave a text in normal form alone. */
  lemma NormalStages(d: string)
    requires Normal(d)
    ensures LowerStr(Strip(SqueezeSpaces(d, 0))) == d
  {
    SqueezeNormal(d);
    StripNormal(d);
    LowerNormal(d);
  }

  lemma SqueezeNormal(d: string)
    requires Normal(d)
    ensures SqueezeSpaces(d, 0) == d
  {
    SqueezePlain(d, 0);
  }

  lemma StripNormal(d: string)
    requires Normal(d)
    ensures Strip(d) == d
  {
    StripOfStripped(d);
  }

  lemma LowerNormal(d: string)
    requires Normal(d)
    ensures LowerStr(d) == d
  {
    LowerStrOfLower(d);
  }

  lemma DashExample(t: string, c: char)
    requires IsDash(c) && t == "add" + [c] + "service"
    ensures DashRuns(t, 0) == "add service"
  {
    DashPlain(t, 4);
    assert t[4..] == "service";
    assert DashRuns(t, 3) == " service";
    assert DashRuns(t, 2) == "d service";
    assert DashRuns(t, 1) == "dd service";
  }
}
