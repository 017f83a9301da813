/** Edit distance, and its banded computation with early exit. */
module EditDistance {
  /** Strings are compared byte by byte. */
  type Text = string

  function Min(a: int, b: int): int { if a < b then a else b }
  function Max(a: int, b: int): int { if a > b then a else b }
  function Abs(a: int): int { if a < 0 then -a else a }

  // ---- what an edit distance is ----

  datatype Edit = Keep(c: char) | Replace(old_: char, new_: char) | Insert(c: char) | Drop(c: char)

  /** What an edit consumes of the old text, what it produces of the new one, and what it costs. */
  function Consumes(e: Edit): Text {
    match e
    case Keep(c) => [c]
    case Replace(x, _) => [x]
    case Insert(_) => []
    case Drop(c) => [c]
  }

  function Produces(e: Edit): Text {
    match e
    case Keep(c) => [c]
    case Replace(_, y) => [y]
    case Insert(c) => [c]
    case Drop(_) => []
  }

  function Price(e: Edit): nat { if e.Keep? then 0 else 1 }

  function Source(es: seq<Edit>): Text {
    if es == [] then [] else Source(es[..|es| - 1]) + Consumes(es[|es| - 1])
  }

  function Target(es: seq<Edit>): Text {
    if es == [] then [] else Target(es[..|es| - 1]) + Produces(es[|es| - 1])
  }

  function Cost(es: seq<Edit>): nat {
    if es == [] then 0 else Cost(es[..|es| - 1]) + Price(es[|es| - 1])
  }

  /** The distance between the first `i` bytes of `a` and the first `j` of `b`. */
  function Distance(a: Text, b: Text, i: nat, j: nat): nat
    requires i <= |a| && j <= |b|
    decreases i + j
  {
    if i == 0 then j
    else if j == 0 then i
    else Min(Distance(a, b, i, j - 1) + 1,
             Min(Distance(a, b, i - 1, j) + 1,
                 Distance(a, b, i - 1, j - 1) + if a[i - 1] == b[j - 1] then 0 else 1))
  }

  function Levenshtein(a: Text, b: Text): nat {
    Distance(a, b, |a|, |b|)
  }

  lemma {:induction false} DistanceOfPrefixes(a: Text, b: Text, a': Text, b': Text, i: nat, j: nat)
    requires i <= |a| && j <= |b| && i <= |a'| && j <= |b'|
    requires a[..i] == a'[..i] && b[..j] == b'[..j]
    ensures Distance(a, b, i, j) == Distance(a', b', i, j)
    decreases i + j
  {
    if i > 0 && j > 0 {
      assert a[..i][..i - 1] == a[..i - 1] && a'[..i][..i - 1] == a'[..i - 1];
      assert b[..j][..j - 1] == b[..j - 1] && b'[..j][..j - 1] == b'[..j - 1];
      assert a[i - 1] == a[..i][i - 1] && b[j - 1] == b[..j][j - 1];
      DistanceOfPrefixes(a, b, a', b', i, j - 1);
      DistanceOfPrefixes(a, b, a', b', i - 1, j);
      DistanceOfPrefixes(a, b, a', b', i - 1, j - 1);
    }
  }

  /** Adding the last byte to either side, or to both, changes the distance by at most one. */
  lemma {:induction false} DistanceSteps(a: Text, b: Text, i: nat, j: nat)
    requires i <= |a| && j <= |b|
    ensures i > 0 ==> Distance(a, b, i, j) <= Distance(a, b, i - 1, j) + 1
    ensures j > 0 ==> Distance(a, b, i, j) <= Distance(a, b, i, j - 1) + 1
  {}

  lemma DistanceOfFirstParts(a: Text, b: Text, x: Text, y: Text)
    ensures Distance(a + x, b + y, |a|, |b|) == Levenshtein(a, b)
  {
    assert (a + x)[..|a|] == a[..|a|] && (b + y)[..|b|] == b[..|b|];
    DistanceOfPrefixes(a + x, b + y, a, b, |a|, |b|);
  }

  /** One more edit at the end adds at most its price to the distance. */
  lemma LastEditAdds(a: Text, b: Text, e: Edit)
    ensures Levenshtein(a + Consumes(e), b + Produces(e)) <= Levenshtein(a, b) + Price(e)
  {
    DistanceOfFirstParts(a, b, Consumes(e), Produces(e));
    var a1, b1 := a + Consumes(e), b + Produces(e);
    match e
    case Keep(c) => assert a1[|a|] == c && b1[|b|] == c;
    case Replace(_, _) =>
    case Insert(_) => DistanceSteps(a1, b1, |a1|, |b1|);
    case Drop(_) => DistanceSteps(a1, b1, |a1|, |b1|);
  }

  /** No edit script from one text to another is cheaper than the distance. */
  lemma {:induction false} ScriptsCostAtLeast(es: seq<Edit>)
    ensures Levenshtein(Source(es), Target(es)) <= Cost(es)
    decreases |es|
  {
    if es != [] {
      var rest := es[..|es| - 1];
      ScriptsCostAtLeast(rest);
      LastEditAdds(Source(rest), Target(rest), es[|es| - 1]);
    }
  }

  /** The last edit of a cheapest script. */
  function LastEdit(a: Text, b: Text, i: nat, j: nat): (e: Edit)
    requires i <= |a| && j <= |b| && i + j > 0
  {
    if i > 0 && j > 0
       && Distance(a, b, i, j) == Distance(a, b, i - 1, j - 1) + (if a[i - 1] == b[j - 1] then 0 else 1) then
      if a[i - 1] == b[j - 1] then Keep(a[i - 1]) else Replace(a[i - 1], b[j - 1])
    else if j == 0 || (i > 0 && Distance(a, b, i, j) == Distance(a, b, i - 1, j) + 1) then Drop(a[i - 1])
    else Insert(b[j - 1])
  }

  lemma LastEditFits(a: Text, b: Text, i: nat, j: nat)
    requires i <= |a| && j <= |b| && i + j > 0
    ensures var e := LastEdit(a, b, i, j);
      && |Consumes(e)| <= i && |Produces(e)| <= j
      && (Consumes(e) != [] || Produces(e) != [])
      && a[..i] == a[..i - |Consumes(e)|] + Consumes(e)
      && b[..j] == b[..j - |Produces(e)|] + Produces(e)
  {}

  lemma LastEditCosts(a: Text, b: Text, i: nat, j: nat)
    requires i <= |a| && j <= |b| && i + j > 0
    requires |Consumes(LastEdit(a, b, i, j))| <= i && |Produces(LastEdit(a, b, i, j))| <= j
    ensures var e := LastEdit(a, b, i, j);
      Distance(a, b, i, j) == Distance(a, b, i - |Consumes(e)|, j - |Produces(e)|) + Price(e)
  {}

  /** And some script costs exactly the distance. */
  lemma {:induction false} CheapestScript(a: Text, b: Text, i: nat, j: nat) returns (es: seq<Edit>)
    requires i <= |a| && j <= |b|
    ensures Source(es) == a[..i] && Target(es) == b[..j] && Cost(es) == Distance(a, b, i, j)
    decreases i + j
  {
    if i + j == 0 {
      es := [];
    } else {
      var e := LastEdit(a, b, i, j);
      LastEditFits(a, b, i, j);
      LastEditCosts(a, b, i, j);
      es := CheapestScript(a, b, i - |Consumes(e)|, j - |Produces(e)|);
      SnocEdit(es, e);
      es := es + [e];
    }
  }

  lemma SnocEdit(es: seq<Edit>, e: Edit)
    ensures Source(es + [e]) == Source(es) + Consumes(e)
    ensures Target(es + [e]) == Target(es) + Produces(e)
    ensures Cost(es + [e]) == Cost(es) + Price(e)
  {
    assert (es + [e])[..|es|] == es;
  }

  /** The distance is the least cost of any edit script from one text to the other. */
  lemma LevenshteinIsLeastCost(a: Text, b: Text)
    ensures forall es :: Source(es) == a && Target(es) == b ==> Levenshtein(a, b) <= Cost(es)
    ensures exists es :: Source(es) == a && Target(es) == b && Cost(es) == Levenshtein(a, b)
  {
    forall es | Source(es) == a && Target(es) == b ensures Levenshtein(a, b) <= Cost(es) {
      ScriptsCostAtLeast(es);
    }
    var es := CheapestScript(a, b, |a|, |b|);
    assert a[..|a|] == a && b[..|b|] == b;
  }

  lemma {:induction false} DistanceSymmetric(a: Text, b: Text, i: nat, j: nat)
    requires i <= |a| && j <= |b|
    ensures Distance(a, b, i, j) == Distance(b, a, j, i)
    decreases i + j
  {
    if i > 0 && j > 0 {
      DistanceSymmetric(a, b, i, j - 1);
      DistanceSymmetric(a, b, i - 1, j);
      DistanceSymmetric(a, b, i - 1, j - 1);
    }
  }

  lemma {:induction false} DistanceOfEqual(a: Text, b: Text, i: nat)
    requires i <= |a| && i <= |b| && a[..i] == b[..i]
    ensures Distance(a, b, i, i) == 0
    decreases i
  {
    if i > 0 {
      assert a[..i][..i - 1] == a[..i - 1] && b[..i][..i - 1] == b[..i - 1];
      assert a[i - 1] == a[..i][i - 1] && b[i - 1] == b[..i][i - 1];
      DistanceOfEqual(a, b, i - 1);
    }
  }

  // ---- why a band and an early exit lose nothing ----

  lemma {:induction false} DistanceAtLeastLengths(a: Text, b: Text, i: nat, j: nat)
    requires i <= |a| && j <= |b|
    ensures Distance(a, b, i, j) >= Abs(i - j)
    decreases i + j
  {
    if i > 0 && j > 0 {
      DistanceAtLeastLengths(a, b, i, j - 1);
      DistanceAtLeastLengths(a, b, i - 1, j);
      DistanceAtLeastLengths(a, b, i - 1, j - 1);
    }
  }

  /** `v` stands for the distance `d`: equal to it when `d` is within the bound, above the bound otherwise. */
  predicate StandsFor(v: int, d: int, bound: int) {
    if d <= bound then v == d else v > bound
  }

  /** The first `upTo` cells of `row` stand for row `i` of the distance table. */
  ghost predicate RowOK(row: array<int>, a: Text, b: Text, i: nat, upTo: nat, bound: int)
    requires i <= |a| && upTo <= |b| + 1 && upTo <= row.Length
    reads row
  {
    forall j :: 0 <= j < upTo ==> StandsFor(row[j], Distance(a, b, i, j), bound)
  }

  lemma CellOK(a: Text, b: Text, i: nat, j: nat, insertFrom: int, deleteFrom: int, replaceFrom: int, bound: int)
    requires 0 < i <= |a| && 0 < j <= |b|
    requires StandsFor(insertFrom, Distance(a, b, i, j - 1), bound)
    requires StandsFor(deleteFrom, Distance(a, b, i - 1, j), bound)
    requires StandsFor(replaceFrom, Distance(a, b, i - 1, j - 1), bound)
    ensures StandsFor(Min(insertFrom + 1, Min(deleteFrom + 1, replaceFrom + if a[i - 1] == b[j - 1] then 0 else 1)),
                      Distance(a, b, i, j), bound)
  {}

  /** Once a whole row is above the bound, so is every later row. */
  lemma {:induction false} RowsStayAbove(a: Text, b: Text, i: nat, i': nat, j: nat, bound: int)
    requires i <= i' <= |a| && j <= |b|
    requires forall k: nat :: k <= |b| ==> Distance(a, b, i, k) > bound
    ensures Distance(a, b, i', j) > bound
    decreases i' + j
  {
    if i' > i {
      RowsStayAbove(a, b, i, i' - 1, j, bound);
      if j > 0 {
        RowsStayAbove(a, b, i, i', j - 1, bound);
        RowsStayAbove(a, b, i, i' - 1, j - 1, bound);
      }
    }
  }

  predicate OutsideBand(i: int, j: int, bound: int) { Abs(i - j) > bound }

  /** Fill cells outside the band, where the lengths alone put the distance above the bound. */
  method FillOutside(left: Text, right: Text, i: nat, maxDistance: nat, current: array<int>, from: nat, to: nat)
    requires i <= |left| && current.Length == |right| + 1 && from <= to <= |right| + 1
    requires RowOK(current, left, right, i, from, maxDistance)
    requires forall j :: from <= j < to ==> OutsideBand(i, j, maxDistance)
    modifies current
    ensures RowOK(current, left, right, i, to, maxDistance)
    ensures forall j :: 0 <= j < from ==> current[j] == old(current[j])
    ensures forall j :: from <= j < to ==> current[j] == maxDistance + 1
  {
    for j := from to to
      invariant RowOK(current, left, right, i, j, maxDistance)
      invariant forall k :: 0 <= k < from ==> current[k] == old(current[k])
      invariant forall k :: from <= k < j ==> current[k] == maxDistance + 1
    {
      assert OutsideBand(i, j, maxDistance);
      DistanceAtLeastLengths(left, right, i, j);
      current[j] := maxDistance + 1;
    }
  }

  /** Fill the cells of the band, keeping the least value seen. */
  method FillBand(left: Text, right: Text, i: nat, maxDistance: nat, previous: array<int>, current: array<int>,
                  start: nat, end: nat)
    returns (rowMin: int)
    requires 0 < i <= |left| && 1 <= start <= end + 1 <= |right| + 1
    requires previous != current && previous.Length == current.Length == |right| + 1
    requires RowOK(previous, left, right, i - 1, |right| + 1, maxDistance)
    requires RowOK(current, left, right, i, start, maxDistance)
    requires forall j :: 0 < j < start ==> current[j] > maxDistance
    modifies current
    ensures RowOK(current, left, right, i, end + 1, maxDistance)
    ensures rowMin > maxDistance ==> forall j :: 0 <= j <= end ==> current[j] > maxDistance
  {
    rowMin := current[0];
    for j := start to end + 1
      invariant RowOK(current, left, right, i, j, maxDistance)
      invariant forall k :: 0 <= k < j ==> current[k] >= rowMin || current[k] > maxDistance
    {
      var cost := if left[i - 1] != right[j - 1] then 1 else 0;
      var insertCost := current[j - 1] + 1;
      var deleteCost := previous[j] + 1;
      var replaceCost := previous[j - 1] + cost;
      var value := Min(insertCost, Min(deleteCost, replaceCost));
      CellOK(left, right, i, j, current[j - 1], previous[j], previous[j - 1], maxDistance);
      current[j] := value;
      if value < rowMin { rowMin := value; }
    }
  }

  /** Fill row `i`: inside the band around the diagonal as usual, outside with a value above the bound. */
  method FillRow(left: Text, right: Text, i: nat, maxDistance: nat, previous: array<int>, current: array<int>)
    returns (rowMin: int)
    requires 0 < i <= |left| && 0 < |right| && Abs(|left| - |right|) <= maxDistance
    requires previous != current && previous.Length == current.Length == |right| + 1
    requires RowOK(previous, left, right, i - 1, |right| + 1, maxDistance)
    modifies current
    ensures RowOK(current, left, right, i, |right| + 1, maxDistance)
    ensures rowMin > maxDistance ==> forall j :: 0 <= j <= |right| ==> current[j] > maxDistance
  {
    current[0] := i;
    var start := Max(1, i - maxDistance);
    var end := Min(|right|, i + maxDistance);
    FillOutside(left, right, i, maxDistance, current, 1, start);
    rowMin := FillBand(left, right, i, maxDistance, previous, current, start, end);
    FillOutside(left, right, i, maxDistance, current, end + 1, |right| + 1);
  }

  ghost predicate Accepts(left: Text, right: Text, bound: int) {
    left == right || Levenshtein(left, right) <= bound
  }

  /**
    The distance when it is within the bound, and nothing otherwise.  Equal texts
    are recognised before the bound is looked at, so they are within any bound,
    even a negative one.
   */
  method BoundedLevenshtein(left: Text, right: Text, maxDistance: int) returns (distance: int, ok: bool)
    ensures ok <==> Accepts(left, right, maxDistance)
    ensures distance == if ok then Levenshtein(left, right) else 0
  {
    if left == right {
      DistanceOfEqual(left, right, |left|);
      return 0, true;
    }
    if maxDistance < 0 { return 0, false; }
    DistanceAtLeastLengths(left, right, |left|, |right|);
    if Abs(|left| - |right|) > maxDistance { return 0, false; }
    if |left| == 0 {
      if |right| <= maxDistance { return |right|, true; }
      return 0, false;
    }
    if |right| == 0 {
      if |left| <= maxDistance { return |left|, true; }
      return 0, false;
    }
    var previous := new int[|right| + 1](j => j);
    var current := new int[|right| + 1](_ => 0);
    var i := 1;
    while i <= |left|
      invariant 1 <= i <= |left| + 1
      invariant previous != current && previous.Length == current.Length == |right| + 1
      invariant fresh(previous) && fresh(current)
      invariant RowOK(previous, left, right, i - 1, |right| + 1, maxDistance)
    {
      var rowMin := FillRow(left, right, i, maxDistance, previous, current);
      if rowMin > maxDistance {
        forall k: nat | k <= |right| ensures Distance(left, right, i, k) > maxDistance {
          assert StandsFor(current[k], Distance(left, right, i, k), maxDistance);
        }
        RowsStayAbove(left, right, i, |left|, |right|, maxDistance);
        return 0, false;
      }
      previous, current := current, previous;
      i := i + 1;
    }
    assert StandsFor(previous[|right|], Levenshtein(left, right), maxDistance);
    if previous[|right|] > maxDistance { return 0, false; }
    return previous[|right|], true;
  }

  /** A negative bound admits no distance, yet equal texts are accepted under it; nothing else differs. */
  lemma AcceptsExactly(left: Text, right: Text, bound: int)
    ensures (Accepts(left, right, bound) <==> Levenshtein(left, right) <= bound) <==> bound >= 0 || left != right
    ensures Accepts("help", "help", -1) && !(Levenshtein("help", "help") <= -1)
  {
    if left == right { DistanceOfEqual(left, right, |left|); }
  }
}

/** Tokens of help text: equal up to a plural ending, or nearly equal. */
module HelpTokens {
  import opened EditDistance

  predicate HasSuffix(s: Text, suffix: Text) {
    |s| >= |suffix| && s[|s| - |suffix|..] == suffix
  }

  function Singularize(token: Text): Text {
    if HasSuffix(token, "ies") && |token| > 3 then token[..|token| - 3] + "y"
    else if HasSuffix(token, "es") && |token| > 3 then token[..|token| - 2]
    else if HasSuffix(token, "s") && |token| > 2 then token[..|token| - 1]
    else token
  }

  predicate Equivalent(a: Text, b: Text) {
    a == b || Singularize(a) == Singularize(b)
  }

  /** `form` is the singular `w` or one of its plurals. */
  predicate IsForm(w: Text, form: Text) {
    form == w || form == w + "s" || form == w + "es" || (HasSuffix(w, "y") && form == w[..|w| - 1] + "ies")
  }

  lemma FormOfSingular(token: Text)
    ensures IsForm(Singularize(token), token)
  {
    if HasSuffix(token, "ies") && |token| > 3 {
      assert (token[..|token| - 3] + "y")[..|token| - 3] + "ies" == token;
    }
  }

  /** Equivalent tokens are forms of one word. */
  lemma EquivalentFormsOfOne(a: Text, b: Text)
    requires Equivalent(a, b)
    ensures exists w :: IsForm(w, a) && IsForm(w, b)
  {
    if a == b {
      assert IsForm(a, b);
    } else {
      FormOfSingular(a);
      FormOfSingular(b);
    }
  }

  lemma EndsInS(x: Text)
    ensures HasSuffix(x, "s") <==> |x| >= 1 && x[|x| - 1] == 's'
  {
    if |x| >= 1 { assert x[|x| - 1..] == [x[|x| - 1]]; }
  }

  lemma EndsInEs(x: Text)
    ensures HasSuffix(x, "es") <==> |x| >= 2 && x[|x| - 2] == 'e' && x[|x| - 1] == 's'
  {
    if |x| >= 2 { assert x[|x| - 2..] == [x[|x| - 2], x[|x| - 1]]; }
  }

  lemma EndsInIes(x: Text)
    ensures HasSuffix(x, "ies") <==> |x| >= 3 && x[|x| - 3] == 'i' && x[|x| - 2] == 'e' && x[|x| - 1] == 's'
  {
    if |x| >= 3 { assert x[|x| - 3..] == [x[|x| - 3], x[|x| - 2], x[|x| - 1]]; }
  }

  lemma Endings(x: Text)
    ensures HasSuffix(x, "s") <==> |x| >= 1 && x[|x| - 1] == 's'
    ensures HasSuffix(x, "es") <==> |x| >= 2 && x[|x| - 2] == 'e' && x[|x| - 1] == 's'
    ensures HasSuffix(x, "ies") <==> |x| >= 3 && x[|x| - 3] == 'i' && x[|x| - 2] == 'e' && x[|x| - 1] == 's'
  {
    EndsInS(x);
    EndsInEs(x);
    EndsInIes(x);
  }

  /**
    Exactly which words are equivalent to their plurals.  A word of three or more
    letters that ends in `e` is not: `names` is taken for the plural of `nam`.
   */
  lemma PluralsExactly(w: Text)
    ensures Equivalent(w, w + "s") <==> |w| >= 2 && (|w| == 2 || w[|w| - 1] !in "es")
    ensures Equivalent(w, w + "es") <==> |w| >= 2 && w[|w| - 1] != 'i' && (|w| == 2 || w[|w| - 1] != 's')
    ensures Equivalent(w + "y", w + "ies") <==> w != ""
  {
    SingularOfS(w);
    SingularOfEs(w);
    SingularOfIes(w);
  }

  /** Only a final `s` makes a word shorter. */
  lemma SingularLength(x: Text)
    ensures |x| >= 3 && x[|x| - 1] == 's' ==> |Singularize(x)| < |x|
    ensures |x| < 3 || x[|x| - 1] != 's' ==> Singularize(x) == x
  {
    Endings(x);
  }

  lemma SingularOfS(w: Text)
    ensures Equivalent(w, w + "s") <==> |w| >= 2 && (|w| == 2 || w[|w| - 1] !in "es")
  {
    var p := w + "s";
    SingularLength(w);
    Endings(p);
    if |w| < 2 {
      SingularLength(p);
    } else if w[|w| - 1] == 'e' && |w| > 2 {
      assert |Singularize(p)| < |w|;
    } else {
      assert Singularize(p) == p[..|w|] == w;
    }
  }

  lemma SingularOfEs(w: Text)
    ensures Equivalent(w, w + "es") <==> |w| >= 2 && w[|w| - 1] != 'i' && (|w| == 2 || w[|w| - 1] != 's')
  {
    var p := w + "es";
    SingularLength(w);
    Endings(p);
    if |w| < 2 {
      assert |Singularize(p)| > |w|;
    } else if w[|w| - 1] == 'i' {
      assert Singularize(p)[|w| - 1] == 'y';
    } else {
      assert Singularize(p) == p[..|w|] == w;
    }
  }

  lemma SingularOfIes(w: Text)
    ensures Equivalent(w + "y", w + "ies") <==> w != ""
  {
    Endings(w + "y");
    Endings(w + "ies");
    assert (w + "ies")[..|w|] == w;
  }

  /** `strings.ToLower` and `strings.TrimSpace` on the ASCII range. */
  function Lower(s: Text): (r: Text)
    ensures |r| == |s|
  {
    if s == [] then []
    else [LowerOf(s[0])] + Lower(s[1..])
  }

  function LowerOf(c: char): char {
    if 'A' <= c <= 'Z' then (c as int + 32) as char else c
  }

  predicate IsSpace(c: char) { c in " \t\n\r" || c as int == 11 || c as int == 12 }

  function TrimLeft(s: Text): Text {
    if s != [] && IsSpace(s[0]) then TrimLeft(s[1..]) else s
  }

  function TrimRight(s: Text): Text {
    if s != [] && IsSpace(s[|s| - 1]) then TrimRight(s[..|s| - 1]) else s
  }

  function Normalize(s: Text): Text {
    TrimRight(TrimLeft(Lower(s)))
  }

  const SMALL := "abcdefghijklmnopqrstuvwxyz"
  const CAPITAL := "ABCDEFGHIJKLMNOPQRSTUVWXYZ"

  lemma IsCapital(c: char)
    ensures 'A' <= c <= 'Z' ==> c in CAPITAL
  {}

  lemma Letters(letter: nat)
    requires letter < 26
    ensures CAPITAL[letter] as int == 'A' as int + letter && SMALL[letter] as int == 'a' as int + letter
  {}

  /** Each capital becomes its small letter; nothing else changes. */
  lemma LowerOfExactly(c: char, letter: nat)
    requires letter < 26
    ensures LowerOf(CAPITAL[letter]) == SMALL[letter]
    ensures c !in CAPITAL ==> LowerOf(c) == c
  {
    IsCapital(c);
    Letters(letter);
  }

  lemma {:induction false} LowerAt(s: Text, i: nat)
    requires i < |s|
    ensures Lower(s)[i] == LowerOf(s[i])
    decreases i
  {
    if i > 0 { LowerAt(s[1..], i - 1); }
  }

  predicate Blank(s: Text) { forall c :: c in s ==> IsSpace(c) }

  /** No space at either end. */
  predicate IsTrimmed(s: Text) { s == "" || (!IsSpace(s[0]) && !IsSpace(s[|s| - 1])) }

  lemma LowerAppend(s: Text, t: Text)
    ensures Lower(s + t) == Lower(s) + Lower(t)
  {
    forall i | 0 <= i < |s + t| ensures Lower(s + t)[i] == (Lower(s) + Lower(t))[i] {
      LowerAt(s + t, i);
      if i < |s| { LowerAt(s, i); } else { LowerAt(t, i - |s|); }
    }
  }

  lemma LowerKeepsSpaces(s: Text)
    ensures Blank(s) ==> Blank(Lower(s))
    ensures IsTrimmed(s) ==> IsTrimmed(Lower(s))
  {
    forall i | 0 <= i < |s| ensures IsSpace(Lower(s)[i]) <==> IsSpace(s[i]) { LowerAt(s, i); }
  }

  lemma {:induction false} TrimLeftDrops(before: Text, t: Text)
    requires Blank(before) && (t == "" || !IsSpace(t[0]))
    ensures TrimLeft(before + t) == t
  {
    if before == [] {
      assert before + t == t;
    } else {
      assert (before + t)[1..] == before[1..] + t;
      TrimLeftDrops(before[1..], t);
    }
  }

  lemma {:induction false} TrimRightDrops(t: Text, after: Text)
    requires Blank(after) && (t == "" || !IsSpace(t[|t| - 1]))
    ensures TrimRight(t + after) == t
    decreases |after|
  {
    if after == [] {
      assert t + after == t;
    } else {
      assert (t + after)[..|t + after| - 1] == t + after[..|after| - 1];
      TrimRightDrops(t, after[..|after| - 1]);
    }
  }

  lemma TrimDrops(before: Text, t: Text, after: Text)
    requires Blank(before) && IsTrimmed(t) && Blank(after)
    ensures TrimRight(TrimLeft(before + t + after)) == t
  {
    if t == "" {
      assert before + t + after == before + after + "";
      TrimLeftDrops(before + after, "");
    } else {
      assert before + t + after == before + (t + after);
      TrimLeftDrops(before, t + after);
      TrimRightDrops(t, after);
    }
  }

  /** A term is compared in lower case and without the spaces around it; those within it stay. */
  lemma NormalizeExactly(before: Text, term: Text, after: Text)
    requires Blank(before) && IsTrimmed(term) && Blank(after)
    ensures Normalize(before + term + after) == Lower(term)
  {
    LowerAppend(before + term, after);
    LowerAppend(before, term);
    LowerKeepsSpaces(before);
    LowerKeepsSpaces(term);
    LowerKeepsSpaces(after);
    TrimDrops(Lower(before), Lower(term), Lower(after));
  }

  /** Two single words of at least four bytes, not equivalent, within the given edit distance. */
  ghost predicate NearlyEqual(a: Text, b: Text, maxDistance: int) {
    && !Equivalent(a, b)
    && ' ' !in a && ' ' !in b
    && |a| >= 4 && |b| >= 4
    && Levenshtein(a, b) <= maxDistance
  }

  method FuzzyMatch(term: Text, candidate: Text, maxDistance: int) returns (matched: bool)
    ensures matched <==> NearlyEqual(Normalize(term), Normalize(candidate), maxDistance)
  {
    var t, c := Normalize(term), Normalize(candidate);
    if t == "" || c == "" || Equivalent(t, c) { return false; }
    if ' ' in t || ' ' in c { return false; }
    if |t| < 4 || |c| < 4 { return false; }
    DistanceAtLeastLengths(t, c, |t|, |c|);
    if Abs(|t| - |c|) > maxDistance { return false; }
    var _, ok := BoundedLevenshtein(t, c, maxDistance);
    matched := ok;
  }

  method TokenMatches(query: Text, candidate: Text) returns (matched: bool)
    ensures matched <==> Matches(query, candidate)
  {
    if Equivalent(query, candidate) { return true; }
    matched := FuzzyMatch(query, candidate, 1);
  }

  ghost predicate Matches(query: Text, candidate: Text) {
    Equivalent(query, candidate) || NearlyEqual(Normalize(query), Normalize(candidate), 1)
  }

  /** Every token matches itself, and matching does not depend on which token is the query. */
  lemma MatchesSymmetric(a: Text, b: Text)
    ensures Matches(a, a)
    ensures Matches(a, b) <==> Matches(b, a)
  {
    DistanceSymmetric(Normalize(a), Normalize(b), |Normalize(a)|, |Normalize(b)|);
  }

  lemma NormalPlural(w: Text)
    requires Lower(w) == w && IsTrimmed(w) && ' ' !in w
    ensures Normalize(w) == w && Normalize(w + "s") == w + "s" && ' ' !in w + "s"
  {
    LowerAppend(w, "s");
    assert "" + w + "" == w && "" + (w + "s") + "" == w + "s";
    NormalizeExactly("", w, "");
    NormalizeExactly("", w + "s", "");
  }

  lemma OneLetterMore(w: Text, c: char)
    ensures Levenshtein(w, w + [c]) <= 1
  {
    DistanceOfEqual(w, w + [c], |w|);
    DistanceSteps(w, w + [c], |w|, |w| + 1);
  }

  /**
    Which words match their plural in `s`, for a single word in lower case: all
    of four letters or more, and shorter ones when the two are equivalent.
   */
  lemma PluralMatchesExactly(w: Text)
    requires Lower(w) == w && IsTrimmed(w) && ' ' !in w
    ensures Matches(w, w + "s") <==> |w| == 2 || |w| >= 4 || (|w| == 3 && w[2] !in "es")
  {
    SingularOfS(w);
    NormalPlural(w);
    OneLetterMore(w, 's');
  }
}

/** How much of a literal sequence a query contains, in order. */
module SequenceScore {
  import opened HelpTokens

  type Tokens = seq<string>
  /** Any relation between query tokens and literals. */
  type Relation = (string, string) -> bool

  /** Increasing positions of `q` that match the tokens of `s` one by one. */
  ghost predicate Embeds(m: Relation, q: Tokens, s: Tokens, at: seq<nat>) {
    && |at| == |s|
    && (forall i :: 0 <= i < |at| ==> at[i] < |q| && m(q[at[i]], s[i]))
    && forall i, j :: 0 <= i < j < |at| ==> at[i] < at[j]
  }

  /** `s` occurs in order within `q`. */
  ghost predicate Occurs(m: Relation, q: Tokens, s: Tokens) {
    exists at :: Embeds(m, q, s, at)
  }

  /** `n` is the length of the longest prefix of `s` that occurs in `q`. */
  ghost predicate IsLongest(m: Relation, q: Tokens, s: Tokens, n: nat) {
    n <= |s| && Occurs(m, q, s[..n]) && forall k :: n < k <= |s| ==> !Occurs(m, q, s[..k])
  }

  /** `i` is the first position of `q` that matches `literal`. */
  ghost predicate IsFirstMatch(m: Relation, q: Tokens, literal: string, i: nat) {
    i < |q| && m(q[i], literal) && forall j :: 0 <= j < i ==> !m(q[j], literal)
  }

  function Score(hits: nat, length: nat, first: nat, queryLength: nat): int {
    if hits == 0 then 0
    else
      var score := 35 + hits * 12 + (if hits == length then 22 else 0)
                   + (if first == 0 then 18 else if first == 1 then 8 else 0)
                   + (if queryLength == 1 && first == 0 && hits == 1 then 18 else 0);
      if score > 96 then 96 else score
  }

  /** More hits score more, and an earlier first match never less, up to the greatest score. */
  lemma ScoreOrder(hits: nat, hits': nat, length: nat, first: nat, first': nat, queryLength: nat)
    requires hits <= hits' <= length && hits' <= queryLength && first >= first'
    ensures Score(hits, length, first, queryLength) <= Score(hits', length, first', queryLength) <= 96
    ensures hits < hits' && Score(hits, length, first, queryLength) == Score(hits', length, first', queryLength) ==>
              Score(hits, length, first, queryLength) == 96
    ensures Score(hits, length, first, queryLength) == 0 <==> hits == 0
  {}

  // ---- greedy matching, for any relation ----

  /** `i` is the first position at `from` or later that matches `literal`, or the end. */
  ghost predicate IsNextMatch(m: Relation, q: Tokens, from: nat, literal: string, i: nat) {
    from <= i <= |q| && (i < |q| ==> m(q[i], literal)) && forall j :: from <= j < i ==> !m(q[j], literal)
  }

  lemma {:induction false} NextMatchExists(m: Relation, q: Tokens, from: nat, literal: string)
    requires from <= |q|
    ensures exists i :: IsNextMatch(m, q, from, literal, i)
    decreases |q| - from
  {
    if from == |q| || m(q[from], literal) {
      assert IsNextMatch(m, q, from, literal, from);
    } else {
      NextMatchExists(m, q, from + 1, literal);
      var i :| IsNextMatch(m, q, from + 1, literal, i);
      assert IsNextMatch(m, q, from, literal, i);
    }
  }

  ghost function NextMatch(m: Relation, q: Tokens, from: nat, literal: string): (i: nat)
    requires from <= |q|
    ensures IsNextMatch(m, q, from, literal, i)
  {
    NextMatchExists(m, q, from, literal);
    var i :| IsNextMatch(m, q, from, literal, i);
    i
  }

  /** How many literals are matched when each takes the first token that fits. */
  ghost function GreedyHits(m: Relation, q: Tokens, s: Tokens, from: nat): (hits: nat)
    requires from <= |q|
    ensures hits <= |s|
    decreases |s|
  {
    if s == [] then 0
    else
      var next := NextMatch(m, q, from, s[0]);
      if next == |q| then 0 else 1 + GreedyHits(m, q, s[1..], next + 1)
  }

  lemma {:induction false} GreedyEmbeds(m: Relation, q: Tokens, s: Tokens, from: nat) returns (at: seq<nat>)
    requires from <= |q|
    ensures Embeds(m, q, s[..GreedyHits(m, q, s, from)], at) && forall i :: 0 <= i < |at| ==> from <= at[i]
    decreases |s|
  {
    at := [];
    var hits := GreedyHits(m, q, s, from);
    if hits > 0 {
      var next := NextMatch(m, q, from, s[0]);
      var rest := GreedyEmbeds(m, q, s[1..], next + 1);
      at := [next] + rest;
      assert s[..hits] == [s[0]] + s[1..][..hits - 1];
    }
  }

  /** No prefix that occurs from `from` on is longer than the greedy one. */
  lemma {:induction false} GreedyReaches(m: Relation, q: Tokens, s: Tokens, from: nat, k: nat, at: seq<nat>)
    requires from <= |q| && k <= |s| && Embeds(m, q, s[..k], at) && forall i :: 0 <= i < |at| ==> from <= at[i]
    ensures k <= GreedyHits(m, q, s, from)
    decreases k
  {
    if k > 0 {
      var next := NextMatch(m, q, from, s[0]);
      assert m(q[at[0]], s[..k][0]);
      forall i | 0 <= i < k - 1 ensures m(q[at[1..][i]], s[1..][..k - 1][i]) && next + 1 <= at[1..][i] {
        assert s[1..][..k - 1][i] == s[..k][i + 1] && at[0] < at[i + 1];
      }
      GreedyReaches(m, q, s[1..], next + 1, k - 1, at[1..]);
    }
  }

  /** Matching each literal at the first token that fits is optimal, for any relation. */
  lemma GreedyIsLongest(m: Relation, q: Tokens, s: Tokens)
    ensures IsLongest(m, q, s, GreedyHits(m, q, s, 0))
  {
    var at := GreedyEmbeds(m, q, s, 0);
    forall k | GreedyHits(m, q, s, 0) < k <= |s| ensures !Occurs(m, q, s[..k]) {
      if b :| Embeds(m, q, s[..k], b) { GreedyReaches(m, q, s, 0, k, b); }
    }
  }

  lemma NextHit(m: Relation, q: Tokens, s: Tokens, hits: nat, from: nat)
    requires hits < |s| && from <= |q|
    ensures var next := NextMatch(m, q, from, s[hits]);
      GreedyHits(m, q, s[hits..], from) == if next == |q| then 0 else 1 + GreedyHits(m, q, s[hits + 1..], next + 1)
  {
    assert s[hits..][1..] == s[hits + 1..];
  }

  // ---- the code's relation ----

  /** `m` is the relation the code tests. */
  ghost predicate IsTokenMatch(m: Relation) {
    forall a, b {:trigger Matches(a, b)} :: m(a, b) == Matches(a, b)
  }

  ghost function TokenMatch(): (m: Relation)
    ensures IsTokenMatch(m)
  {
    (a, b) => Matches(a, b)
  }

  method Test(ghost m: Relation, query: string, literal: string) returns (found: bool)
    requires IsTokenMatch(m)
    ensures found == m(query, literal)
  {
    found := TokenMatches(query, literal);
  }

  /** The next token at `from` or later that matches `literal`. */
  method FindNext(ghost m: Relation, q: Tokens, from: nat, literal: string) returns (idx: nat)
    requires IsTokenMatch(m) && from <= |q|
    ensures idx == NextMatch(m, q, from, literal)
  {
    idx := from;
    while idx < |q|
      invariant from <= idx <= |q| && forall j :: from <= j < idx ==> !m(q[j], literal)
    {
      var found := Test(m, q[idx], literal);
      if found { break; }
      idx := idx + 1;
    }
    assert IsNextMatch(m, q, from, literal, idx);
  }

  /** Match the literals one after another, each at the first token that fits. */
  method CountHits(ghost m: Relation, q: Tokens, s: Tokens) returns (hits: nat, first: int)
    requires IsTokenMatch(m) && s != []
    ensures hits == GreedyHits(m, q, s, 0) && IsLongest(m, q, s, hits)
    ensures first == if hits > 0 then NextMatch(m, q, 0, s[0]) else -1
    ensures hits > 0 ==> IsFirstMatch(m, q, s[0], first)
  {
    GreedyIsLongest(m, q, s);
    var qIdx: nat := 0;
    hits, first := 0, -1;
    assert s[0..] == s;
    while hits < |s|
      invariant hits <= |s| && qIdx <= |q|
      invariant hits + GreedyHits(m, q, s[hits..], qIdx) == GreedyHits(m, q, s, 0)
      invariant if hits > 0 then first == NextMatch(m, q, 0, s[0]) < |q| else first == -1 && qIdx == 0
    {
      var next := FindNext(m, q, qIdx, s[hits]);
      NextHit(m, q, s, hits, qIdx);
      if next == |q| { return; }
      if first == -1 { first := next; }
      hits := hits + 1;
      qIdx := next + 1;
    }
  }

  /** `score` is that of the longest prefix of `s` occurring in `q` and of the first match of its first literal. */
  ghost predicate IsScore(q: Tokens, s: Tokens, score: int) {
    if q == [] || s == [] then score == 0
    else exists hits: nat, first: nat :: IsScoreOf(q, s, hits, first, score)
  }

  ghost predicate IsScoreOf(q: Tokens, s: Tokens, hits: nat, first: nat, score: int)
    requires s != []
  {
    && IsLongest(TokenMatch(), q, s, hits) && score == Score(hits, |s|, first, |q|)
    && (hits > 0 ==> IsFirstMatch(TokenMatch(), q, s[0], first))
  }

  /**
    The score of a literal sequence: it depends on the longest prefix occurring
    in order in the query and on where its first literal first matches.
   */
  method LiteralSequenceScore(q: Tokens, s: Tokens) returns (score: int)
    ensures 0 <= score <= 96
    ensures IsScore(q, s, score)
  {
    if |q| == 0 || |s| == 0 { return 0; }
    var hits, first := CountHits(TokenMatch(), q, s);
    ghost var f: nat := if hits > 0 then first else 0;
    if hits == 0 {
      assert IsScoreOf(q, s, hits, f, 0);
      return 0;
    }
    score := 35 + hits * 12;
    if hits == |s| { score := score + 22; }
    if first == 0 { score := score + 18; } else if first == 1 { score := score + 8; }
    if |q| == 1 && first == 0 && hits == 1 { score := score + 18; }
    if score > 96 { score := 96; }
    assert IsScoreOf(q, s, hits, f, score);
  }

  lemma LongestIsUnique(m: Relation, q: Tokens, s: Tokens, a: nat, b: nat)
    requires IsLongest(m, q, s, a) && IsLongest(m, q, s, b)
    ensures a == b
  {}

  /** The longest occurring prefix and the first match are unique, so query and sequence have one score. */
  lemma ScoreIsUnique(q: Tokens, s: Tokens, score: int, score': int)
    requires IsScore(q, s, score) && IsScore(q, s, score')
    ensures score == score'
  {
    if q != [] && s != [] {
      var hits: nat, first: nat :| IsScoreOf(q, s, hits, first, score);
      var hits': nat, first': nat :| IsScoreOf(q, s, hits', first', score');
      LongestIsUnique(TokenMatch(), q, s, hits, hits');
      if hits > 0 { assert first == first'; }
    }
  }

  lemma OccurringFits(m: Relation, q: Tokens, s: Tokens, at: seq<nat>)
    requires Embeds(m, q, s, at)
    ensures |s| <= |q|
  {
    if |s| > 0 { AscendingRoom(at, |q|, |at| - 1); }
  }

  lemma {:induction false} AscendingRoom(at: seq<nat>, bound: nat, k: nat)
    requires k < |at| && (forall i :: 0 <= i < |at| ==> at[i] < bound)
    requires forall i, j :: 0 <= i < j < |at| ==> at[i] < at[j]
    ensures k <= at[k]
  {
    if k > 0 { AscendingRoom(at, bound, k - 1); }
  }

  /** A score is zero exactly when no token of the query matches the first literal. */
  lemma NoScoreExactly(q: Tokens, s: Tokens, score: int)
    requires IsScore(q, s, score) && s != []
    ensures score == 0 <==> forall i :: 0 <= i < |q| ==> !Matches(q[i], s[0])
  {
    if q != [] {
      var m := TokenMatch();
      var hits: nat, first: nat :| IsScoreOf(q, s, hits, first, score);
      if hits > 0 {
        assert Matches(q[first], s[0]) == m(q[first], s[0]);
      } else {
        forall i | 0 <= i < |q| && m(q[i], s[0]) ensures false {
          assert Embeds(m, q, s[..1], [i]);
        }
      }
    }
  }

  /**
    Of two sequences of one length with the same first literal, the one of which
    the query contains more scores more, unless both have the greatest score.
   */
  lemma LongerMatchScoresMore(q: Tokens, s: Tokens, s': Tokens, n: nat, n': nat, score: int, score': int)
    requires |s| == |s'| > 0 && s[0] == s'[0] && q != []
    requires IsScore(q, s, score) && IsScore(q, s', score')
    requires IsLongest(TokenMatch(), q, s, n) && IsLongest(TokenMatch(), q, s', n') && n < n'
    ensures score < score' || score == score' == 96
  {
    var m := TokenMatch();
    var hits: nat, first: nat :| IsScoreOf(q, s, hits, first, score);
    var hits': nat, first': nat :| IsScoreOf(q, s', hits', first', score');
    LongestIsUnique(m, q, s, hits, n);
    LongestIsUnique(m, q, s', hits', n');
    var at :| Embeds(m, q, s'[..n'], at);
    OccurringFits(m, q, s'[..n'], at);
    if hits > 0 {
      assert first == first';
      ScoreOrder(hits, hits', |s|, first, first', |q|);
    }
    ScoreOrder(0, hits', |s|, first', first', |q|);
  }

  /** A sequence the query contains outscores every longer one that begins with it and is not contained further. */
  lemma FullMatchOutscores(q: Tokens, s: Tokens, more: Tokens, score: int, score': int)
    requires q != [] && s != [] && more != []
    requires Occurs(TokenMatch(), q, s) && IsLongest(TokenMatch(), q, s + more, |s|)
    requires IsScore(q, s, score) && IsScore(q, s + more, score')
    ensures score > score' || score == score' == 96
  {
    var m := TokenMatch();
    var hits: nat, first: nat :| IsScoreOf(q, s, hits, first, score);
    var hits': nat, first': nat :| IsScoreOf(q, s + more, hits', first', score');
    assert s[..|s|] == s;
    LongestIsUnique(m, q, s, hits, |s|);
    LongestIsUnique(m, q, s + more, hits', |s|);
    assert (s + more)[0] == s[0] && first == first';
  }
}
