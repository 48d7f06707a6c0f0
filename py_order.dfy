/** Python's ordering of `str` values (code point by code point, a proper
    prefix first) and of numbers, Python's `==` on them, and
    `sorted({x for x in xs if x})` on JSON values: the set keeps the first of
    equal values, a list or a dictionary cannot enter it, and `sorted` cannot
    order a string against a number. */
module PyOrder {
  import opened JsonValue
  import opened Oracles

  /** `a < b` on Python strings. */
  predicate StrLess(a: string, b: string)
    decreases |a|
  {
    if a == [] then b != []
    else if b == [] then false
    else a[0] < b[0] || (a[0] == b[0] && StrLess(a[1..], b[1..]))
  }

  lemma {:induction false} StrLessIrreflexive(a: string)
    ensures !StrLess(a, a)
    decreases |a|
  {
    if a != [] {
      StrLessIrreflexive(a[1..]);
    }
  }

  lemma {:induction false} StrLessTransitive(a: string, b: string, c: string)
    requires StrLess(a, b) && StrLess(b, c)
    ensures StrLess(a, c)
    decreases |a|
  {
    if a != [] && a[0] == b[0] && b[0] == c[0] {
      StrLessTransitive(a[1..], b[1..], c[1..]);
    }
  }

  /** Any two different strings are ordered one way round. */
  lemma {:induction false} StrLessTotal(a: string, b: string)
    requires a != b
    ensures StrLess(a, b) || StrLess(b, a)
    decreases |a|
  {
    if a != [] && b != [] && a[0] == b[0] {
      assert a == [a[0]] + a[1..] && b == [b[0]] + b[1..];
      StrLessTotal(a[1..], b[1..]);
    }
  }

  lemma StrLessAsymmetric(a: string, b: string)
    requires StrLess(a, b)
    ensures !StrLess(b, a)
  {
    if StrLess(b, a) {
      StrLessTransitive(a, b, a);
      StrLessIrreflexive(a);
    }
  }

  // ------------------------------------------------- values and order

  /** A value Python compares as a number: an int, a float or a bool. */
  predicate IsNumber(j: Json) {
    j.JInt? || j.JNum? || j.JBool?
  }

  /** The number a numeric value stands for (True is 1, False is 0). */
  function NumVal(j: Json): real
    requires IsNumber(j)
  {
    match j
    case JInt(i) => i as real
    case JNum(x) => x
    case JBool(b) => if b then 1.0 else 0.0
  }

  /** A value a set accepts: anything but a list and a dictionary. */
  predicate Hashable(j: Json) {
    !j.JArr? && !j.JObj?
  }

  /** Python's `==` between strings and numbers: strings by their text,
      numbers by their value (so 1, 1.0 and True are equal). */
  predicate PyEq(a: Json, b: Json) {
    (a.JStr? && b.JStr? && a.s == b.s) || (IsNumber(a) && IsNumber(b) && NumVal(a) == NumVal(b))
  }

  /** `sorted` can compare the two: both strings or both numbers. */
  predicate SameKind(a: Json, b: Json) {
    (a.JStr? && b.JStr?) || (IsNumber(a) && IsNumber(b))
  }

  /** Python's `<` where it is defined: between two strings, and between two
      numbers. */
  predicate PyLess(a: Json, b: Json) {
    (a.JStr? && b.JStr? && StrLess(a.s, b.s)) || (IsNumber(a) && IsNumber(b) && NumVal(a) < NumVal(b))
  }

  lemma PyLessTransitive(a: Json, b: Json, c: Json)
    requires PyLess(a, b) && PyLess(b, c)
    ensures PyLess(a, c)
  {
    if a.JStr? {
      StrLessTransitive(a.s, b.s, c.s);
    }
  }

  /** `<` is strict: it holds neither between equal values nor both ways. */
  lemma PyLessStrict(a: Json, b: Json)
    requires PyLess(a, b)
    ensures !PyEq(a, b) && !PyLess(b, a) && SameKind(a, b)
  {
    if a.JStr? {
      StrLessAsymmetric(a.s, b.s);
      StrLessIrreflexive(a.s);
    }
  }

  /** Two values of the same kind are equal or ordered one way round. */
  lemma PyLessTotal(a: Json, b: Json)
    requires SameKind(a, b) && !PyEq(a, b)
    ensures PyLess(a, b) || PyLess(b, a)
  {
    if a.JStr? {
      StrLessTotal(a.s, b.s);
    }
  }

  /** `<` does not tell equal values apart. */
  lemma PyLessEq(a: Json, b: Json, c: Json)
    requires PyLess(a, b) && PyEq(b, c)
    ensures PyLess(a, c)
  {
  }

  // ------------------------------------------------------ sorted lists

  /** Strictly ascending: sorted and without two equal values. */
  predicate StrictlySorted(s: seq<Json>) {
    forall i, j :: 0 <= i < j < |s| ==> PyLess(s[i], s[j])
  }

  /** `x` added to the ascending list `s`, of its kind and equal to none of
      it, which stays ascending. */
  function Insert(s: seq<Json>, x: Json): (r: seq<Json>)
    requires StrictlySorted(s)
    requires forall y :: y in s ==> SameKind(y, x) && !PyEq(y, x)
    ensures StrictlySorted(r)
    ensures forall y :: y in r <==> y in s || y == x
    decreases |s|
  {
    if s == [] then [x]
    else if PyLess(x, s[0]) then
      assert forall j :: 0 <= j < |s| ==> PyLess(x, s[j]) by {
        forall j | 0 <= j < |s| ensures PyLess(x, s[j]) {
          if j > 0 {
            PyLessTransitive(x, s[0], s[j]);
          }
        }
      }
      [x] + s
    else
      assert s[0] in s;
      PyLessTotal(s[0], x);
      assert forall y :: y in s <==> y == s[0] || y in s[1..] by {
        assert s == [s[0]] + s[1..];
      }
      var rest := Insert(s[1..], x);
      assert forall y :: y in rest ==> PyLess(s[0], y) by {
        forall y | y in rest ensures PyLess(s[0], y) {
          if y != x {
            var j :| 0 <= j < |s[1..]| && s[1..][j] == y;
            assert s[j + 1] == y;
          }
        }
      }
      [s[0]] + rest
  }

  /** Python's `==` is symmetric. */
  lemma PyEqSymmetric(a: Json, b: Json)
    ensures PyEq(a, b) == PyEq(b, a)
  {
  }

  /** Some value of `s` is equal to `x`. */
  predicate HasEqual(s: seq<Json>, x: Json) {
    exists k :: 0 <= k < |s| && PyEq(s[k], x)
  }

  /** Every value of `a` has an equal one in `b`. */
  predicate Matched(a: seq<Json>, b: seq<Json>) {
    forall i {:trigger HasEqual(b, a[i])} :: 0 <= i < |a| ==> HasEqual(b, a[i])
  }

  /** Two ascending lists whose values match up to `==` are equal as Python
      lists: the same length and equal position by position. */
  lemma {:induction false} SortedEquivalent(a: seq<Json>, b: seq<Json>)
    requires StrictlySorted(a) && StrictlySorted(b)
    requires Matched(a, b) && Matched(b, a)
    ensures |a| == |b| && forall i :: 0 <= i < |a| ==> PyEq(a[i], b[i])
    decreases |a|
  {
    MatchedNonEmpty(a, b);
    MatchedNonEmpty(b, a);
    if a != [] && b != [] {
      HeadsEqual(a, b);
      TailMatched(a, b);
      PyEqSymmetric(a[0], b[0]);
      TailMatched(b, a);
      SortedEquivalent(a[1..], b[1..]);
      forall i | 0 <= i < |a| ensures PyEq(a[i], b[i]) {
        if i > 0 {
          assert a[1..][i - 1] == a[i] && b[1..][i - 1] == b[i];
        }
      }
    }
  }

  /** Only an empty list matches an empty one. */
  lemma MatchedNonEmpty(a: seq<Json>, b: seq<Json>)
    requires Matched(a, b)
    ensures a != [] ==> b != []
  {
    if a != [] {
      assert HasEqual(b, a[0]);
    }
  }

  /** The least values of two matched ascending lists are equal. */
  lemma HeadsEqual(a: seq<Json>, b: seq<Json>)
    requires a != [] && b != []
    requires StrictlySorted(a) && StrictlySorted(b)
    requires Matched(a, b) && Matched(b, a)
    ensures PyEq(a[0], b[0])
  {
    assert HasEqual(b, a[0]) && HasEqual(a, b[0]);
    var k :| 0 <= k < |b| && PyEq(b[k], a[0]);
    var j :| 0 <= j < |a| && PyEq(a[j], b[0]);
    assert k != 0 ==> PyLess(b[0], b[k]);
    assert j != 0 ==> PyLess(a[0], a[j]);
    HeadsMeet(a[0], a[j], b[0], b[k]);
  }

  /** Of two least values `a0` and `b0`, each at or below a value equal to
      the other, the two are equal: neither can be strictly below the
      other's equal. */
  lemma HeadsMeet(a0: Json, aj: Json, b0: Json, bk: Json)
    requires PyEq(bk, a0) && PyEq(aj, b0)
    requires bk == b0 || PyLess(b0, bk)
    requires aj == a0 || PyLess(a0, aj)
    ensures PyEq(a0, b0)
  {
    if bk == b0 {
      PyEqSymmetric(b0, a0);
    } else if aj != a0 {
      PyLessEq(b0, bk, a0);
      PyLessEq(a0, aj, b0);
      PyLessStrict(a0, b0);
    }
  }

  /** With the least values equal, the rest of `a` matches the rest of `b`. */
  lemma TailMatched(a: seq<Json>, b: seq<Json>)
    requires a != [] && b != []
    requires StrictlySorted(a) && Matched(a, b)
    requires PyEq(a[0], b[0])
    ensures Matched(a[1..], b[1..])
  {
    forall p | 0 <= p < |a[1..]| ensures HasEqual(b[1..], a[1..][p]) {
      var y := a[p + 1];
      assert a[1..][p] == y && PyLess(a[0], y);
      assert HasEqual(b, y);
      var q :| 0 <= q < |b| && PyEq(b[q], y);
      if q == 0 {
        PyEqSymmetric(b[0], y);
        PyLessEq(a[0], y, b[0]);
        PyLessStrict(a[0], b[0]);
        assert false;
      }
      assert b[1..][q - 1] == b[q];
    }
  }

  // ------------------------------------------- sorted({x for x in xs if x})

  /** The set `{x for x in xs if x}` in the order its values first came:
      a truthy value equal to none already there is added; a truthy list or
      dictionary raises TypeError. */
  function TruthySet(xs: seq<Json>): Outcome<seq<Json>>
    decreases |xs|
  {
    if xs == [] then Ok([])
    else
      var n := |xs| - 1;
      match TruthySet(xs[..n])
      case Raises(e) => Raises(e)
      case Ok(acc) =>
        if !Truthy(xs[n]) then Ok(acc)
        else if !Hashable(xs[n]) then Raises("TypeError")
        else if HasEqual(acc, xs[n]) then Ok(acc)
        else Ok(acc + [xs[n]])
  }

  /** Some truthy value is a list or a dictionary. */
  predicate AnyUnhashable(xs: seq<Json>) {
    exists i :: 0 <= i < |xs| && Truthy(xs[i]) && !Hashable(xs[i])
  }

  /** No two values are equal. */
  predicate Distinct(s: seq<Json>) {
    forall i, j :: 0 <= i < j < |s| ==> !PyEq(s[i], s[j])
  }

  /** `y` occurs in `xs` with no truthy value equal to it before it. */
  predicate FirstOf(xs: seq<Json>, y: Json) {
    exists i :: 0 <= i < |xs| && xs[i] == y && (forall j :: 0 <= j < i && Truthy(xs[j]) ==> !PyEq(xs[j], y))
  }

  /** Every truthy value of `xs` has an equal one in `s`. */
  predicate Covers(s: seq<Json>, xs: seq<Json>) {
    forall i :: 0 <= i < |xs| && Truthy(xs[i]) ==> HasEqual(s, xs[i])
  }

  /** `s` is the set of the truthy values of `xs`: free of equal values,
      made of truthy strings and numbers each the first of its value in
      `xs`, and holding one equal to each truthy value of `xs`. */
  predicate SetOf(s: seq<Json>, xs: seq<Json>) {
    && Distinct(s)
    && (forall y :: y in s ==> Truthy(y) && Hashable(y) && FirstOf(xs, y))
    && Covers(s, xs)
  }

  /** The set raises exactly when a truthy value is a list or a dictionary,
      and otherwise is the set of the truthy values. */
  lemma {:induction false} TruthySetMeaning(xs: seq<Json>)
    ensures TruthySet(xs).Raises? <==> AnyUnhashable(xs)
    ensures TruthySet(xs).Ok? ==> SetOf(TruthySet(xs).value, xs)
    decreases |xs|
  {
    if xs != [] {
      var n := |xs| - 1;
      var p := xs[..n];
      var x := xs[n];
      assert xs == p + [x];
      TruthySetMeaning(p);
      UnhashableSnoc(p, x);
      if TruthySet(p).Ok? && TruthySet(xs).Ok? {
        var acc := TruthySet(p).value;
        if !Truthy(x) || HasEqual(acc, x) {
          SetOfKeeps(acc, p, x);
        } else {
          SetOfAdds(acc, p, x);
        }
      }
    }
  }

  /** A list with one more value has an unhashable truthy value when the
      prefix has one or the new value is one. */
  lemma UnhashableSnoc(p: seq<Json>, x: Json)
    ensures AnyUnhashable(p + [x]) <==> AnyUnhashable(p) || (Truthy(x) && !Hashable(x))
  {
    var xs := p + [x];
    if AnyUnhashable(p) {
      var i :| 0 <= i < |p| && Truthy(p[i]) && !Hashable(p[i]);
      assert xs[i] == p[i];
    }
    if AnyUnhashable(xs) {
      var i :| 0 <= i < |xs| && Truthy(xs[i]) && !Hashable(xs[i]);
      if i < |p| {
        assert xs[i] == p[i];
      }
    }
    assert xs[|p|] == x;
  }

  /** The first of its value in `p` is the first of it in `p + [x]`. */
  lemma FirstOfSnoc(p: seq<Json>, x: Json, y: Json)
    requires FirstOf(p, y)
    ensures FirstOf(p + [x], y)
  {
    var i :| 0 <= i < |p| && p[i] == y && (forall j :: 0 <= j < i && Truthy(p[j]) ==> !PyEq(p[j], y));
    var xs := p + [x];
    assert xs[i] == y;
    assert forall j :: 0 <= j < i ==> xs[j] == p[j];
  }

  /** A falsy value, or one the set already has an equal of, leaves the set
      of the truthy values as it is. */
  lemma SetOfKeeps(acc: seq<Json>, p: seq<Json>, x: Json)
    requires SetOf(acc, p)
    requires !Truthy(x) || HasEqual(acc, x)
    ensures SetOf(acc, p + [x])
  {
    var xs := p + [x];
    forall y | y in acc ensures FirstOf(xs, y) {
      FirstOfSnoc(p, x, y);
    }
    forall i | 0 <= i < |xs| && Truthy(xs[i]) ensures HasEqual(acc, xs[i]) {
      if i < |p| {
        assert xs[i] == p[i];
      }
    }
  }

  /** A truthy string or number equal to none of the set joins it at the
      end. */
  lemma SetOfAdds(acc: seq<Json>, p: seq<Json>, x: Json)
    requires SetOf(acc, p)
    requires Truthy(x) && Hashable(x) && !HasEqual(acc, x)
    ensures SetOf(acc + [x], p + [x])
  {
    var xs := p + [x];
    var s := acc + [x];
    forall y | y in acc ensures FirstOf(xs, y) {
      FirstOfSnoc(p, x, y);
    }
    assert FirstOf(xs, x) by {
      assert xs[|p|] == x;
      forall j | 0 <= j < |p| && Truthy(xs[j]) ensures !PyEq(xs[j], x) {
        assert xs[j] == p[j];
        var k :| 0 <= k < |acc| && PyEq(acc[k], p[j]);
        if PyEq(xs[j], x) {
          assert PyEq(acc[k], x);
          assert false;
        }
      }
    }
    assert forall y :: y in s <==> y in acc || y == x;
    forall i | 0 <= i < |xs| && Truthy(xs[i]) ensures HasEqual(s, xs[i]) {
      if i < |p| {
        assert xs[i] == p[i];
        var k :| 0 <= k < |acc| && PyEq(acc[k], p[i]);
        assert s[k] == acc[k];
      } else {
        assert s[|acc|] == x;
      }
    }
    forall i, j | 0 <= i < j < |s| ensures !PyEq(s[i], s[j]) {
      if j == |acc| {
        assert s[i] == acc[i];
        PyEqSymmetric(acc[i], x);
      } else {
        assert s[i] == acc[i] && s[j] == acc[j];
      }
    }
  }

  /** `sorted` meets a string and a number. */
  predicate Mixed(s: seq<Json>) {
    (exists i :: 0 <= i < |s| && s[i].JStr?) && (exists j :: 0 <= j < |s| && IsNumber(s[j]))
  }

  /** `sorted(s)` of a set of strings alone or numbers alone. */
  function Sorted(s: seq<Json>): (r: seq<Json>)
    requires forall i, j :: 0 <= i < |s| && 0 <= j < |s| ==> SameKind(s[i], s[j])
    requires forall i, j :: 0 <= i < j < |s| ==> !PyEq(s[i], s[j])
    ensures StrictlySorted(r)
    ensures forall y :: y in r <==> y in s
    decreases |s|
  {
    if s == [] then []
    else
      var n := |s| - 1;
      var r := Sorted(s[..n]);
      assert forall y :: y in r ==> SameKind(y, s[n]) && !PyEq(y, s[n]) by {
        forall y | y in r ensures SameKind(y, s[n]) && !PyEq(y, s[n]) {
          var i :| 0 <= i < n && s[..n][i] == y;
          assert s[i] == y;
        }
      }
      assert forall y :: y in s <==> y in s[..n] || y == s[n] by {
        assert s == s[..n] + [s[n]];
      }
      Insert(r, s[n])
  }

  /** `sorted({x for x in xs if x})`: the set, then TypeError when it holds
      both a string and a number. */
  function SortedTruthy(xs: seq<Json>): Outcome<seq<Json>> {
    match TruthySet(xs)
    case Raises(e) => Raises(e)
    case Ok(s) =>
      if Mixed(s) then Raises("TypeError")
      else
        SetSortable(xs, s);
        Ok(Sorted(s))
  }

  /** A set that is not mixed is one `sorted` can order. */
  lemma SetSortable(xs: seq<Json>, s: seq<Json>)
    requires TruthySet(xs) == Ok(s) && !Mixed(s)
    ensures forall i, j :: 0 <= i < |s| && 0 <= j < |s| ==> SameKind(s[i], s[j])
    ensures forall i, j :: 0 <= i < j < |s| ==> !PyEq(s[i], s[j])
  {
    TruthySetMeaning(xs);
    SetKinds(s);
  }

  /** The values of a set that is not mixed are all of one kind. */
  lemma SetKinds(s: seq<Json>)
    requires forall y :: y in s ==> Truthy(y) && Hashable(y)
    requires !Mixed(s)
    ensures forall i, j :: 0 <= i < |s| && 0 <= j < |s| ==> SameKind(s[i], s[j])
  {
    forall i, j | 0 <= i < |s| && 0 <= j < |s| ensures SameKind(s[i], s[j]) {
      assert s[i] in s && s[j] in s;
    }
  }

  /** Some truthy value of `xs` is a string and another a number. */
  predicate MixedValues(xs: seq<Json>) {
    (exists i :: 0 <= i < |xs| && Truthy(xs[i]) && xs[i].JStr?) &&
    (exists j :: 0 <= j < |xs| && Truthy(xs[j]) && IsNumber(xs[j]))
  }

  /** `sorted({x for x in xs if x})` raises exactly when a truthy value is a
      list or a dictionary, or when the truthy values mix strings and
      numbers; otherwise it is strictly ascending, each of its values is the
      first truthy value of `xs` equal to it, and every truthy value of `xs`
      has an equal one in it. */
  lemma SortedTruthyMeaning(xs: seq<Json>)
    ensures SortedTruthy(xs).Raises? <==> AnyUnhashable(xs) || MixedValues(xs)
    ensures SortedTruthy(xs).Ok? ==>
      var r := SortedTruthy(xs).value;
      && StrictlySorted(r)
      && (forall y :: y in r ==> Truthy(y) && FirstOf(xs, y))
      && Covers(r, xs)
  {
    TruthySetMeaning(xs);
    if TruthySet(xs).Ok? {
      var s := TruthySet(xs).value;
      assert Mixed(s) <==> MixedValues(xs) by {
        if Mixed(s) {
          var i :| 0 <= i < |s| && s[i].JStr?;
          var j :| 0 <= j < |s| && IsNumber(s[j]);
          assert s[i] in s && s[j] in s;
        }
        if MixedValues(xs) {
          var i :| 0 <= i < |xs| && Truthy(xs[i]) && xs[i].JStr?;
          var j :| 0 <= j < |xs| && Truthy(xs[j]) && IsNumber(xs[j]);
          var a :| 0 <= a < |s| && PyEq(s[a], xs[i]);
          var b :| 0 <= b < |s| && PyEq(s[b], xs[j]);
        }
      }
      if !Mixed(s) {
        var r := SortedTruthy(xs).value;
        forall i | 0 <= i < |xs| && Truthy(xs[i]) ensures HasEqual(r, xs[i]) {
          var a :| 0 <= a < |s| && PyEq(s[a], xs[i]);
          assert s[a] in r;
          var b :| 0 <= b < |r| && r[b] == s[a];
        }
      }
    }
  }

  /** Two lists with the same values (in any order, any number of times)
      give the same answer: both raise or neither does, and the sorted lists
      are equal as Python lists. They need not be identical: the set keeps
      whichever of 1 and 1.0 comes first. */
  lemma SortedTruthyOrderFree(xs: seq<Json>, ys: seq<Json>)
    requires forall y :: y in xs <==> y in ys
    ensures SortedTruthy(xs).Raises? <==> SortedTruthy(ys).Raises?
    ensures SortedTruthy(xs).Ok? ==>
      var a := SortedTruthy(xs).value;
      var b := SortedTruthy(ys).value;
      |a| == |b| && forall i :: 0 <= i < |a| ==> PyEq(a[i], b[i])
  {
    SortedTruthyMeaning(xs);
    SortedTruthyMeaning(ys);
    SameValuesAlike(xs, ys);
    SameValuesAlike(ys, xs);
    if SortedTruthy(xs).Ok? {
      var a := SortedTruthy(xs).value;
      var b := SortedTruthy(ys).value;
      SortedMatched(xs, ys);
      SortedMatched(ys, xs);
      SortedEquivalent(a, b);
    }
  }

  /** The two ways `sorted({...})` raises depend only on the values. */
  lemma SameValuesAlike(xs: seq<Json>, ys: seq<Json>)
    requires forall y :: y in xs ==> y in ys
    ensures AnyUnhashable(xs) ==> AnyUnhashable(ys)
    ensures MixedValues(xs) ==> MixedValues(ys)
  {
    if AnyUnhashable(xs) {
      var i :| 0 <= i < |xs| && Truthy(xs[i]) && !Hashable(xs[i]);
      assert xs[i] in ys;
    }
    if MixedValues(xs) {
      var i :| 0 <= i < |xs| && Truthy(xs[i]) && xs[i].JStr?;
      var j :| 0 <= j < |xs| && Truthy(xs[j]) && IsNumber(xs[j]);
      assert xs[i] in ys && xs[j] in ys;
    }
  }

  /** Every value of the answer for `xs` has an equal one in the answer for
      `ys`, when the values of `xs` are among those of `ys`. */
  lemma SortedMatched(xs: seq<Json>, ys: seq<Json>)
    requires forall y :: y in xs ==> y in ys
    requires SortedTruthy(xs).Ok? && SortedTruthy(ys).Ok?
    ensures Matched(SortedTruthy(xs).value, SortedTruthy(ys).value)
  {
    SortedTruthyMeaning(xs);
    SortedTruthyMeaning(ys);
    var a := SortedTruthy(xs).value;
    var b := SortedTruthy(ys).value;
    forall p | 0 <= p < |a| ensures HasEqual(b, a[p]) {
      assert a[p] in a;
      var i :| 0 <= i < |xs| && xs[i] == a[p] && (forall j :: 0 <= j < i && Truthy(xs[j]) ==> !PyEq(xs[j], a[p]));
      assert xs[i] in ys;
      var j :| 0 <= j < |ys| && ys[j] == a[p];
    }
  }

  /** `sorted({...})` raises nothing but TypeError. */
  lemma SortedTruthyRaises(xs: seq<Json>)
    ensures SortedTruthy(xs).Raises? ==> SortedTruthy(xs) == Raises("TypeError")
  {
    TruthySetRaises(xs);
  }

  /** Building the set raises nothing but TypeError. */
  lemma {:induction false} TruthySetRaises(xs: seq<Json>)
    ensures TruthySet(xs).Raises? ==> TruthySet(xs) == Raises("TypeError")
    decreases |xs|
  {
    if xs != [] {
      TruthySetRaises(xs[..|xs| - 1]);
    }
  }

  /** Once the set raised on a prefix it raises on every longer list. */
  lemma {:induction false} TruthySetStuck(xs: seq<Json>, i: nat)
    requires i <= |xs|
    requires TruthySet(xs[..i]).Raises?
    ensures TruthySet(xs) == TruthySet(xs[..i])
    decreases |xs| - i
  {
    if i < |xs| {
      assert xs[..i + 1][..i] == xs[..i];
      TruthySetStuck(xs, i + 1);
    } else {
      assert xs[..i] == xs;
    }
  }
}
