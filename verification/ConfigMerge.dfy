/** Layering one configuration tree over another. */
module ConfigMerge {
  import opened Options

  /** A decoded YAML value; `kind` is the dynamic type of a scalar. */
  datatype Value =
    | Nil
    | Scalar(kind: nat, text: string)
    | List(items: seq<Value>)
    | Map(entries: map<string, Value>)

  type Tree = map<string, Value>
  const APPEND := "Append"

  predicate IsAppend(k: string) {
    |k| >= 6 && k[..6] == APPEND
  }

  /** The key an entry is merged under: a leading "Append" is taken off once. */
  function Target(k: string): string {
    if IsAppend(k) then k[6..] else k
  }

  predicate SameType(a: Value, b: Value) {
    match (a, b)
    case (Nil, Nil) => true
    case (Scalar(k, _), Scalar(l, _)) => k == l
    case (List(_), List(_)) => true
    case (Map(_), Map(_)) => true
    case _ => false
  }

  ghost predicate AppendFree(v: Value)
    decreases v
  {
    v.Map? ==> forall k :: k in v.entries ==> !IsAppend(k) && AppendFree(v.entries[k])
  }

  // ---- the walk ----

  function Get(t: Tree, x: string): Option<Value> {
    if x in t then Some(t[x]) else None
  }

  lemma SameTree(a: Tree, b: Tree)
    requires forall x :: Get(a, x) == Get(b, x)
    ensures a == b
  {
    forall x ensures x in a <==> x in b { assert Get(a, x) == Get(b, x); }
    forall x | x in a ensures a[x] == b[x] { assert Get(a, x) == Get(b, x); }
  }

  /** What merging the value `v` of key `k` may make of the target's present value `cur`. */
  ghost predicate Outcome(k: string, v: Value, cur: Option<Value>, fin: Value)
    decreases v, 2, 0
  {
    match cur
    case None => fin == v
    case Some(tv) =>
      if !SameType(v, tv) then fin == if v.Nil? then tv else v
      else match v
        case Map(m) => fin.Map? && Merges(m, tv.entries, fin.entries)
        case List(items) => fin == if IsAppend(k) then List(tv.items + items) else v
        case _ => fin == v
  }

  /** One step of a walk: the key of an entry and the value its target key takes. */
  datatype Step = Step(key: string, value: Value)

  /** Walking the entries of `m` by these steps turns `t` into `r`. */
  ghost predicate Walk(m: Tree, steps: seq<Step>, t: Tree, r: Tree)
    decreases Map(m), 0, |steps|
  {
    if steps == [] then r == t
    else
      var s := steps[0];
      && s.key in m
      && (assert m[s.key] < Map(m); Outcome(s.key, m[s.key], Get(t, Target(s.key)), s.value))
      && Walk(m, steps[1..], t[Target(s.key) := s.value], r)
  }

  /** The steps visit the keys of `todo`, each once. */
  ghost predicate Visits(steps: seq<Step>, todo: set<string>)
    decreases |steps|
  {
    if steps == [] then todo == {} else steps[0].key in todo && Visits(steps[1..], todo - {steps[0].key})
  }

  ghost predicate MergesFrom(m: Tree, todo: set<string>, t: Tree, r: Tree)
    decreases Map(m), 1, 0
  {
    exists steps :: Visits(steps, todo) && Walk(m, steps, t, r)
  }

  /** Merging `m` into `t`, in some order of its keys and of those of its submaps, may give `r`. */
  ghost predicate Merges(m: Tree, t: Tree, r: Tree)
    decreases Map(m), 1, 1
  {
    MergesFrom(m, m.Keys, t, r)
  }

  lemma MergesFromNothing(m: Tree, t: Tree, r: Tree)
    ensures MergesFrom(m, {}, t, r) <==> r == t
  {
    if r == t { assert Visits([], {}) && Walk(m, [], t, r); }
  }

  lemma MergesFromStep(m: Tree, todo: set<string>, k: string, v: Value, t: Tree, r: Tree)
    requires k in todo && k in m && Outcome(k, m[k], Get(t, Target(k)), v)
    requires MergesFrom(m, todo - {k}, t[Target(k) := v], r)
    ensures MergesFrom(m, todo, t, r)
  {
    var rest :| Visits(rest, todo - {k}) && Walk(m, rest, t[Target(k) := v], r);
    var steps := [Step(k, v)] + rest;
    assert steps[1..] == rest;
    assert Visits(steps, todo) && Walk(m, steps, t, r);
  }

  lemma MergesFromFirst(m: Tree, todo: set<string>, t: Tree, r: Tree) returns (k: string, v: Value)
    requires todo != {} && MergesFrom(m, todo, t, r)
    ensures k in todo && k in m && Outcome(k, m[k], Get(t, Target(k)), v)
    ensures MergesFrom(m, todo - {k}, t[Target(k) := v], r)
  {
    var steps: seq<Step> :| Visits(steps, todo) && Walk(m, steps, t, r);
    k, v := steps[0].key, steps[0].value;
    assert Visits(steps[1..], todo - {k});
  }

  /** Merge `m` into `t`, entry by entry in whatever order the map is walked. */
  method MergeMap(m: Tree, t: Tree) returns (r: Tree)
    ensures Merges(m, t, r)
    decreases Map(m)
  {
    r := t;
    var todo := m.Keys;
    while todo != {}
      invariant todo <= m.Keys
      invariant forall f :: MergesFrom(m, todo, r, f) ==> Merges(m, t, f)
    {
      var k :| k in todo;
      var value := MergeValue(k, m[k], r, m);
      forall f | MergesFrom(m, todo - {k}, r[Target(k) := value], f) ensures Merges(m, t, f) {
        MergesFromStep(m, todo, k, value, r, f);
      }
      r := r[Target(k) := value];
      todo := todo - {k};
    }
    MergesFromNothing(m, r, r);
  }

  /** The new value of one entry, given what the target holds now. */
  method MergeValue(k: string, v: Value, r: Tree, ghost m: Tree) returns (value: Value)
    requires k in m && m[k] == v
    ensures Outcome(k, v, Get(r, Target(k)), value)
    decreases Map(m), 0, v
  {
    var x := if IsAppend(k) then k[6..] else k;
    if x !in r { return v; }
    var tv := r[x];
    if SameType(v, tv) {
      match v
      case Map(mv) =>
        assert v < Map(m);
        var merged := MergeMap(mv, tv.entries);
        value := Map(merged);
      case List(items) => value := if IsAppend(k) then List(tv.items + items) else v;
      case _ => value := v;
    } else {
      value := if !v.Nil? then v else tv;
    }
  }

  // ---- the walk, one target key at a time ----

  lemma TargetKeys(k: string)
    ensures if IsAppend(k) then k == APPEND + Target(k) else k == Target(k)
    ensures IsAppend(APPEND + k) && Target(APPEND + k) == k
  {
    if IsAppend(k) { assert k == k[..6] + k[6..]; }
    assert (APPEND + k)[..6] == APPEND && (APPEND + k)[6..] == k;
  }

  predicate HasPlain(todo: set<string>, x: string) { !IsAppend(x) && x in todo }
  predicate HasAppend(todo: set<string>, x: string) { APPEND + x in todo }

  /** Two keys merged under one target are always a plain `X` and `AppendX`. */
  lemma CollidingKeys(todo: set<string>, j: string, k: string)
    requires j in todo && k in todo && j != k && Target(j) == Target(k)
    ensures HasPlain(todo, Target(k)) && HasAppend(todo, Target(k))
    ensures {j, k} == {Target(k), APPEND + Target(k)}
  {
    TargetKeys(j);
    TargetKeys(k);
  }

  /** The entries of `todo` merged under `x` may turn `cur` into `fin`. */
  ghost predicate Reached(m: Tree, todo: set<string>, x: string, cur: Option<Value>, fin: Option<Value>)
    requires todo <= m.Keys
  {
    if HasPlain(todo, x) && HasAppend(todo, x) then
      fin.Some? && PairOutcome(x, m[x], m[APPEND + x], cur, fin.value)
    else if HasPlain(todo, x) then fin.Some? && Outcome(x, m[x], cur, fin.value)
    else if HasAppend(todo, x) then fin.Some? && Outcome(APPEND + x, m[APPEND + x], cur, fin.value)
    else fin == cur
  }

  ghost predicate OneThenOther(x: string, p: Value, a: Value, cur: Option<Value>, mid: Value, fin: Value) {
    || (Outcome(x, p, cur, mid) && Outcome(APPEND + x, a, Some(mid), fin))
    || (Outcome(APPEND + x, a, cur, mid) && Outcome(x, p, Some(mid), fin))
  }

  ghost predicate PairOutcome(x: string, p: Value, a: Value, cur: Option<Value>, fin: Value) {
    exists mid :: OneThenOther(x, p, a, cur, mid, fin)
  }

  lemma OtherTargets(todo: set<string>, k: string, x: string)
    requires k in todo && x != Target(k)
    ensures HasPlain(todo - {k}, x) <==> HasPlain(todo, x)
    ensures HasAppend(todo - {k}, x) <==> HasAppend(todo, x)
  {
    TargetKeys(k);
    TargetKeys(x);
  }

  lemma OwnTarget(todo: set<string>, k: string)
    requires k in todo
    ensures if IsAppend(k) then
              && k == APPEND + Target(k) && HasAppend(todo, Target(k)) && !HasAppend(todo - {k}, Target(k))
                                && (HasPlain(todo - {k}, Target(k)) <==> HasPlain(todo, Target(k)))
            else k == Target(k) && HasPlain(todo, k) && !HasPlain(todo - {k}, k)
                 && (HasAppend(todo - {k}, k) <==> HasAppend(todo, k))
  {
    TargetKeys(k);
    TargetKeys(Target(k));
  }

  /** A walk settles every target key on its own. */
  lemma {:induction false} WalkSettlesKeys(m: Tree, todo: set<string>, t: Tree, r: Tree, x: string)
    requires todo <= m.Keys && MergesFrom(m, todo, t, r)
    ensures Reached(m, todo, x, Get(t, x), Get(r, x))
    decreases |todo|
  {
    if todo == {} {
      MergesFromNothing(m, t, r);
    } else {
      var k, v := MergesFromFirst(m, todo, t, r);
      WalkSettlesKeys(m, todo - {k}, t[Target(k) := v], r, x);
      if x == Target(k) {
        OwnTarget(todo, k);
        FirstOfKey(m, todo, k, v, Get(t, x), Get(r, x));
      } else {
        OtherTargets(todo, k, x);
      }
    }
  }

  lemma FirstOfKey(m: Tree, todo: set<string>, k: string, v: Value, cur: Option<Value>, fin: Option<Value>)
    requires todo <= m.Keys && k in todo && Outcome(k, m[k], cur, v)
    requires Reached(m, todo - {k}, Target(k), Some(v), fin)
    ensures Reached(m, todo, Target(k), cur, fin)
  {
    OwnTarget(todo, k);
    var x := Target(k);
    if HasPlain(todo, x) && HasAppend(todo, x) {
      assert OneThenOther(x, m[x], m[APPEND + x], cur, v, fin.value);
    }
  }

  /** Any choice of outcomes, key by key, is that of some walk. */
  lemma {:induction false} KeysMakeWalk(m: Tree, todo: set<string>, t: Tree, r: Tree)
    requires todo <= m.Keys && forall x :: Reached(m, todo, x, Get(t, x), Get(r, x))
    ensures MergesFrom(m, todo, t, r)
    decreases |todo|
  {
    if todo == {} {
      forall x ensures Get(t, x) == Get(r, x) { assert Reached(m, {}, x, Get(t, x), Get(r, x)); }
      SameTree(t, r);
      MergesFromNothing(m, t, r);
    } else {
      var any :| any in todo;
      var x := Target(any);
      var k, v := FirstChoice(m, todo, any, Get(t, x), Get(r, x));
      var t' := t[x := v];
      forall y ensures Reached(m, todo - {k}, y, Get(t', y), Get(r, y)) {
        assert Reached(m, todo, y, Get(t, y), Get(r, y));
        if y != x { OtherTargets(todo, k, y); }
      }
      KeysMakeWalk(m, todo - {k}, t', r);
      MergesFromStep(m, todo, k, v, t, r);
    }
  }

  /** The entry to merge first, and what it gives, to get from `cur` to `fin`. */
  lemma FirstChoice(m: Tree, todo: set<string>, any: string, cur: Option<Value>, fin: Option<Value>)
      returns (k: string, v: Value)
    requires todo <= m.Keys && any in todo && Reached(m, todo, Target(any), cur, fin)
    ensures k in todo && Target(k) == Target(any) && Outcome(k, m[k], cur, v)
    ensures Reached(m, todo - {k}, Target(any), Some(v), fin)
  {
    OwnTarget(todo, any);
    var x := Target(any);
    TargetKeys(x);
    if HasPlain(todo, x) && HasAppend(todo, x) {
      v :| OneThenOther(x, m[x], m[APPEND + x], cur, v, fin.value);
      k := if Outcome(x, m[x], cur, v) && Outcome(APPEND + x, m[APPEND + x], Some(v), fin.value) then x else APPEND + x;
      OwnTarget(todo, k);
    } else {
      k, v := any, fin.value;
    }
  }

  lemma {:induction false} OutcomeExists(k: string, v: Value, cur: Option<Value>) returns (r: Value)
    ensures Outcome(k, v, cur, r)
    decreases v, 1
  {
    match cur
    case None => r := v;
    case Some(tv) =>
      if !SameType(v, tv) { r := if v.Nil? then tv else v; }
      else {
        match v
        case Map(m) =>
          var merged := MergeExists(m, m.Keys, tv.entries);
          r := Map(merged);
        case List(items) => r := if IsAppend(k) then List(tv.items + items) else v;
        case _ => r := v;
      }
  }

  lemma {:induction false} MergeExists(m: Tree, todo: set<string>, t: Tree) returns (r: Tree)
    requires todo <= m.Keys
    ensures MergesFrom(m, todo, t, r)
    decreases Map(m), 0, |todo|
  {
    if todo == {} {
      r := t;
      MergesFromNothing(m, t, r);
    } else {
      var k :| k in todo;
      assert m[k] < Map(m);
      var v := OutcomeExists(k, m[k], Get(t, Target(k)));
      r := MergeExists(m, todo - {k}, t[Target(k) := v]);
      MergesFromStep(m, todo, k, v, t, r);
    }
  }

  // ---- when the order matters ----

  /** Every order gives the same result. */
  ghost predicate Determined(m: Tree, t: Tree) {
    forall r, r' :: Merges(m, t, r) && Merges(m, t, r') ==> r == r'
  }

  ghost predicate DeterminedAt(m: Tree, t: Tree, x: string) {
    forall f, f' :: Reached(m, m.Keys, x, Get(t, x), f) && Reached(m, m.Keys, x, Get(t, x), f') ==> f == f'
  }

  lemma DeterminedByKeys(m: Tree, t: Tree)
    ensures Determined(m, t) <==> forall x :: DeterminedAt(m, t, x)
  {
    if x :| !DeterminedAt(m, t, x) {
      var f, f' :| Reached(m, m.Keys, x, Get(t, x), f) && Reached(m, m.Keys, x, Get(t, x), f') && f != f';
      var r := MergeExists(m, m.Keys, t);
      var a := WithOutcome(m, t, r, x, f);
      var b := WithOutcome(m, t, r, x, f');
      assert Get(a, x) != Get(b, x);
      assert Merges(m, t, a) && Merges(m, t, b);
    }
    if forall x :: DeterminedAt(m, t, x) {
      forall r, r' | Merges(m, t, r) && Merges(m, t, r') ensures r == r' {
        forall x ensures Get(r, x) == Get(r', x) {
          WalkSettlesKeys(m, m.Keys, t, r, x);
          WalkSettlesKeys(m, m.Keys, t, r', x);
          assert DeterminedAt(m, t, x);
        }
        SameTree(r, r');
      }
    }
  }

  /** A merge with another of the possible outcomes for one key. */
  lemma WithOutcome(m: Tree, t: Tree, r: Tree, x: string, f: Option<Value>) returns (r': Tree)
    requires Merges(m, t, r) && Reached(m, m.Keys, x, Get(t, x), f)
    ensures Merges(m, t, r') && Get(r', x) == f
  {
    r' := if f.Some? then r[x := f.value] else r - {x};
    forall y ensures Reached(m, m.Keys, y, Get(t, y), Get(r', y)) {
      if y != x {
        WalkSettlesKeys(m, m.Keys, t, r, y);
        assert Get(r', y) == Get(r, y);
      }
    }
    KeysMakeWalk(m, m.Keys, t, r');
  }

  /** Merging the two values, in either order, over anything gives the same. */
  ghost predicate ValuesCommute(a: Value, b: Value)
    decreases a
  {
    || a.Nil? || b.Nil?
    || if a.Map? && b.Map? then
         forall x :: x in a.entries && x in b.entries ==> ValuesCommute(a.entries[x], b.entries[x])
       else a == b
  }

  /** A plain entry and an appending one for the same key give the same in either order. */
  ghost predicate PairAgrees(plain: Value, appended: Value) {
    if plain.List? && appended.List? then appended.items == [] else ValuesCommute(plain, appended)
  }

  /** No entry of `m`, at any depth where it meets a map of `t`, is at odds with another. */
  ghost predicate OrderFree(m: Tree, t: Tree)
    decreases Map(m)
  {
    forall k :: k in m ==>
      && (m[k].Map? && Target(k) in t && t[Target(k)].Map? ==>
            (assert m[k] < Map(m); OrderFree(m[k].entries, t[Target(k)].entries)))
      && (!IsAppend(k) && APPEND + k in m ==> PairAgrees(m[k], m[APPEND + k]))
  }

  /** Where both a plain and an appending entry for one key hold maps, these have no appending entries themselves. */
  ghost predicate PlainPairs(v: Value)
    decreases v
  {
    v.Map? ==> forall k :: k in v.entries ==>
      && PlainPairs(v.entries[k])
      && (!IsAppend(k) && APPEND + k in v.entries && v.entries[k].Map? && v.entries[APPEND + k].Map? ==>
            AppendFree(v.entries[k]) && AppendFree(v.entries[APPEND + k]))
  }

  // ---- append-free trees: merging as a function ----

  /** Two maps merge; a nil leaves the target alone; anything else replaces it. */
  function Over(v: Value, cur: Option<Value>): Value
    decreases v, 1
  {
    match cur
    case None => v
    case Some(tv) => if v.Map? && tv.Map? then Map(Merge(v.entries, tv.entries)) else if v.Nil? then tv else v
  }

  function Merge(m: Tree, t: Tree): Tree
    decreases Map(m), 0
  {
    map x | x in t.Keys + m.Keys ::
      if x in m then
        assert m[x] < Map(m);
        Over(m[x], Get(t, x))
      else t[x]
  }

  /** Without appending keys, the walk has this one result. */
  lemma {:induction false} AppendFreeMerges(m: Tree, t: Tree, r: Tree)
    requires AppendFree(Map(m))
    ensures Merges(m, t, r) <==> r == Merge(m, t)
    decreases Map(m), 0
  {
    if Merges(m, t, r) {
      forall x ensures Get(r, x) == Get(Merge(m, t), x) {
        WalkSettlesKeys(m, m.Keys, t, r, x);
        PlainKeyReached(m, t, x, Get(r, x));
      }
      SameTree(r, Merge(m, t));
    }
    forall x ensures Reached(m, m.Keys, x, Get(t, x), Get(Merge(m, t), x)) {
      PlainKeyReached(m, t, x, Get(Merge(m, t), x));
    }
    KeysMakeWalk(m, m.Keys, t, Merge(m, t));
  }

  lemma {:induction false} PlainKeyReached(m: Tree, t: Tree, x: string, f: Option<Value>)
    requires AppendFree(Map(m))
    ensures Reached(m, m.Keys, x, Get(t, x), f) <==> f == Get(Merge(m, t), x)
    decreases Map(m), 0, 0
  {
    TargetKeys(x);
    if x in m && f.Some? {
      assert m[x] < Map(m);
      PlainOutcome(x, m[x], Get(t, x), f.value);
    }
  }

  lemma {:induction false} PlainOutcome(k: string, v: Value, cur: Option<Value>, f: Value)
    requires AppendFree(v) && (IsAppend(k) ==> !v.List?)
    ensures Outcome(k, v, cur, f) <==> f == Over(v, cur)
    decreases v, 1
  {
    if v.Map? && cur.Some? && cur.value.Map? && f.Map? {
      AppendFreeMerges(v.entries, cur.value.entries, f.entries);
    }
  }

  // ---- when the order matters, exactly ----

  lemma {:induction false} CommuteExactly(a: Value, b: Value, cur: Option<Value>)
    ensures Over(b, Some(Over(a, cur))) == Over(a, Some(Over(b, cur))) <==> ValuesCommute(a, b)
    decreases a
  {
    if a.Map? && b.Map? {
      var t := if cur.Some? && cur.value.Map? then cur.value.entries else map[];
      MapsOver(a, cur, t);
      MapsOver(b, cur, t);
      forall x | x in a.entries && x in b.entries
        ensures Stacked(a.entries, b.entries, t, x) == Stacked(b.entries, a.entries, t, x)
                <==> ValuesCommute(a.entries[x], b.entries[x])
      {
        CommuteExactly(a.entries[x], b.entries[x], Get(t, x));
      }
      TreesCommute(a.entries, b.entries, t);
    }
  }

  /** What `x` holds once `a` and then `b` have gone over `t`. */
  function Stacked(a: Tree, b: Tree, t: Tree, x: string): Option<Value> {
    var under := if x in a then Some(Over(a[x], Get(t, x))) else Get(t, x);
    if x in b then Some(Over(b[x], under)) else under
  }

  lemma StackedIsMerged(a: Tree, b: Tree, t: Tree, x: string)
    ensures Get(Merge(b, Merge(a, t)), x) == Stacked(a, b, t, x)
  {}

  lemma TreesCommute(a: Tree, b: Tree, t: Tree)
    ensures Merge(b, Merge(a, t)) == Merge(a, Merge(b, t)) <==>
              forall x :: x in a && x in b ==> Stacked(a, b, t, x) == Stacked(b, a, t, x)
  {
    forall x ensures Get(Merge(b, Merge(a, t)), x) == Stacked(a, b, t, x) { StackedIsMerged(a, b, t, x); }
    forall x ensures Get(Merge(a, Merge(b, t)), x) == Stacked(b, a, t, x) { StackedIsMerged(b, a, t, x); }
    if forall x :: x in a && x in b ==> Stacked(a, b, t, x) == Stacked(b, a, t, x) {
      SameTree(Merge(b, Merge(a, t)), Merge(a, Merge(b, t)));
    }
  }

  /** A map goes over anything but a map as over an empty one. */
  lemma MapsOver(v: Value, cur: Option<Value>, t: Tree)
    requires v.Map? && t == if cur.Some? && cur.value.Map? then cur.value.entries else map[]
    ensures Over(v, cur) == Map(Merge(v.entries, t))
  {
    if t == map[] { assert Merge(v.entries, map[]) == v.entries; }
  }

  ghost predicate OutcomeUnique(k: string, v: Value, cur: Option<Value>) {
    forall f, f' :: Outcome(k, v, cur, f) && Outcome(k, v, cur, f') ==> f == f'
  }

  ghost predicate PairUnique(x: string, p: Value, a: Value, cur: Option<Value>) {
    forall f, f' :: PairOutcome(x, p, a, cur, f) && PairOutcome(x, p, a, cur, f') ==> f == f'
  }

  ghost predicate NestedDetermined(v: Value, cur: Option<Value>) {
    v.Map? && cur.Some? && cur.value.Map? ==> Determined(v.entries, cur.value.entries)
  }

  lemma OutcomeUniqueExactly(k: string, v: Value, cur: Option<Value>)
    ensures OutcomeUnique(k, v, cur) <==> NestedDetermined(v, cur)
  {
    if v.Map? && cur.Some? && cur.value.Map? {
      var t := cur.value.entries;
      if OutcomeUnique(k, v, cur) {
        forall r, r' | Merges(v.entries, t, r) && Merges(v.entries, t, r') ensures r == r' {
          assert Outcome(k, v, cur, Map(r)) && Outcome(k, v, cur, Map(r'));
        }
      }
      if Determined(v.entries, t) {
        forall f, f' | Outcome(k, v, cur, f) && Outcome(k, v, cur, f') ensures f == f' {
          assert f.Map? && Merges(v.entries, t, f.entries);
          assert f'.Map? && Merges(v.entries, t, f'.entries);
        }
      }
    }
  }

  /** A nil entry changes nothing that the other entry would not. */
  lemma NilPairOutcome(x: string, p: Value, a: Value, cur: Option<Value>, f: Value)
    requires p.Nil? || a.Nil?
    ensures PairOutcome(x, p, a, cur, f) <==>
              Outcome(if p.Nil? then APPEND + x else x, if p.Nil? then a else p, cur, f)
  {
    if Outcome(if p.Nil? then APPEND + x else x, if p.Nil? then a else p, cur, f) {
      assert OneThenOther(x, p, a, cur, f, f);
    }
  }

  lemma NilPair(x: string, p: Value, a: Value, cur: Option<Value>)
    requires p.Nil? || a.Nil?
    ensures PairUnique(x, p, a, cur) <==> if p.Nil? then OutcomeUnique(APPEND + x, a, cur) else OutcomeUnique(x, p, cur)
  {
    forall f
      ensures PairOutcome(x, p, a, cur, f) <==> if p.Nil? then Outcome(APPEND + x, a, cur, f) else Outcome(x, p, cur, f)
    {
      NilPairOutcome(x, p, a, cur, f);
    }
  }

  lemma ListPair(x: string, p: Value, a: Value, cur: Option<Value>)
    requires !IsAppend(x) && p.List? && a.List?
    ensures forall f :: PairOutcome(x, p, a, cur, f) <==> f == p || f == List(p.items + a.items)
  {
    TargetKeys(x);
    var mid := OutcomeExists(APPEND + x, a, cur);
    assert OneThenOther(x, p, a, cur, mid, p);
    assert OneThenOther(x, p, a, cur, p, List(p.items + a.items));
  }

  lemma MapPair(x: string, p: Value, a: Value, cur: Option<Value>, f: Value)
    requires p.Map? && a.Map? && AppendFree(p) && AppendFree(a)
    ensures PairOutcome(x, p, a, cur, f) <==>
              f == Over(a, Some(Over(p, cur))) || f == Over(p, Some(Over(a, cur)))
  {
    var p1, a1 := Over(p, cur), Over(a, cur);
    forall mid ensures OneThenOther(x, p, a, cur, mid, f) <==>
        (mid == p1 && f == Over(a, Some(p1))) || (mid == a1 && f == Over(p, Some(a1)))
    {
      PlainOutcome(x, p, cur, mid);
      PlainOutcome(APPEND + x, a, cur, mid);
      PlainOutcome(x, p, Some(mid), f);
      PlainOutcome(APPEND + x, a, Some(mid), f);
    }
    assert OneThenOther(x, p, a, cur, p1, f) <==> (f == Over(a, Some(p1)) || (p1 == a1 && f == Over(p, Some(a1))));
    assert OneThenOther(x, p, a, cur, a1, f) <==> (f == Over(p, Some(a1)) || (p1 == a1 && f == Over(a, Some(p1))));
  }

  /** Two values that are neither nil, nor both lists, nor both maps: the later one wins. */
  lemma LastWins(x: string, p: Value, a: Value, cur: Option<Value>, f: Value)
    requires !p.Nil? && !a.Nil? && !(p.List? && a.List?) && !(p.Map? && a.Map?)
    ensures PairOutcome(x, p, a, cur, f) <==> f == p || f == a
  {
    var pm := OutcomeExists(x, p, cur);
    var am := OutcomeExists(APPEND + x, a, cur);
    assert f == a ==> OneThenOther(x, p, a, cur, pm, f);
    assert f == p ==> OneThenOther(x, p, a, cur, am, f);
  }

  lemma PairUniqueExactly(x: string, p: Value, a: Value, cur: Option<Value>)
    requires !IsAppend(x) && (p.Map? && a.Map? ==> AppendFree(p) && AppendFree(a))
    ensures PairUnique(x, p, a, cur) <==> PairAgrees(p, a) && NestedDetermined(p, cur) && NestedDetermined(a, cur)
  {
    if p.Nil? || a.Nil? {
      NilPair(x, p, a, cur);
      OutcomeUniqueExactly(x, p, cur);
      OutcomeUniqueExactly(APPEND + x, a, cur);
    } else if p.List? && a.List? {
      ListPair(x, p, a, cur);
      TwoResults(x, p, a, cur, p, List(p.items + a.items));
      assert p == List(p.items + a.items) <==> a.items == [] by {
        assert |p.items + a.items| == |p.items| + |a.items|;
      }
    } else if p.Map? && a.Map? {
      var f, f' := Over(a, Some(Over(p, cur))), Over(p, Some(Over(a, cur)));
      forall g ensures PairOutcome(x, p, a, cur, g) <==> g == f || g == f' { MapPair(x, p, a, cur, g); }
      TwoResults(x, p, a, cur, f, f');
      CommuteExactly(p, a, cur);
      AppendFreeDetermined(p, cur);
      AppendFreeDetermined(a, cur);
    } else {
      forall g ensures PairOutcome(x, p, a, cur, g) <==> g == p || g == a { LastWins(x, p, a, cur, g); }
      TwoResults(x, p, a, cur, p, a);
    }
  }

  lemma TwoResults(x: string, p: Value, a: Value, cur: Option<Value>, f: Value, f': Value)
    requires forall g :: PairOutcome(x, p, a, cur, g) <==> g == f || g == f'
    ensures PairUnique(x, p, a, cur) <==> f == f'
  {
    assert PairOutcome(x, p, a, cur, f) && PairOutcome(x, p, a, cur, f');
  }

  lemma AppendFreeDetermined(v: Value, cur: Option<Value>)
    requires AppendFree(v)
    ensures NestedDetermined(v, cur)
  {
    if v.Map? && cur.Some? && cur.value.Map? {
      forall r { AppendFreeMerges(v.entries, cur.value.entries, r); }
    }
  }

  ghost predicate KeyFree(m: Tree, t: Tree, x: string) {
    && (HasPlain(m.Keys, x) ==> NestedDetermined(m[x], Get(t, x)))
    && (HasAppend(m.Keys, x) ==> NestedDetermined(m[APPEND + x], Get(t, x)))
    && (HasPlain(m.Keys, x) && HasAppend(m.Keys, x) ==> PairAgrees(m[x], m[APPEND + x]))
  }

  /** If both entries for `x` hold maps, these have no appending entries themselves. */
  ghost predicate PlainPairAt(m: Tree, x: string) {
    HasPlain(m.Keys, x) && HasAppend(m.Keys, x) && m[x].Map? && m[APPEND + x].Map? ==>
      AppendFree(m[x]) && AppendFree(m[APPEND + x])
  }

  lemma KeyExactly(m: Tree, t: Tree, x: string)
    requires PlainPairAt(m, x)
    ensures DeterminedAt(m, t, x) <==> KeyFree(m, t, x)
  {
    var cur := Get(t, x);
    if HasPlain(m.Keys, x) && HasAppend(m.Keys, x) {
      PairUniqueExactly(x, m[x], m[APPEND + x], cur);
      PairAtKey(m, t, x);
    } else if HasPlain(m.Keys, x) || HasAppend(m.Keys, x) {
      var k := if HasPlain(m.Keys, x) then x else APPEND + x;
      OutcomeUniqueExactly(k, m[k], cur);
      OneAtKey(m, t, x, k);
    }
  }

  lemma OneAtKey(m: Tree, t: Tree, x: string, k: string)
    requires HasPlain(m.Keys, x) != HasAppend(m.Keys, x)
    requires k == if HasPlain(m.Keys, x) then x else APPEND + x
    ensures DeterminedAt(m, t, x) <==> OutcomeUnique(k, m[k], Get(t, x))
  {
    if DeterminedAt(m, t, x) {
      forall f, f' | Outcome(k, m[k], Get(t, x), f) && Outcome(k, m[k], Get(t, x), f') ensures f == f' {
        assert Reached(m, m.Keys, x, Get(t, x), Some(f)) && Reached(m, m.Keys, x, Get(t, x), Some(f'));
      }
    }
  }

  lemma PairAtKey(m: Tree, t: Tree, x: string)
    requires HasPlain(m.Keys, x) && HasAppend(m.Keys, x)
    ensures DeterminedAt(m, t, x) <==> PairUnique(x, m[x], m[APPEND + x], Get(t, x))
  {
    var p, a, cur := m[x], m[APPEND + x], Get(t, x);
    if DeterminedAt(m, t, x) {
      forall f, f' | PairOutcome(x, p, a, cur, f) && PairOutcome(x, p, a, cur, f') ensures f == f' {
        assert Reached(m, m.Keys, x, cur, Some(f)) && Reached(m, m.Keys, x, cur, Some(f'));
      }
    }
  }

  /**
    Exactly when the result depends on the order of the walk: the map itself,
    or a submap that meets a map of the target, has a plain and an appending
    entry for one key that do not agree.  Two lists agree when the appended one
    is empty, two maps when they commute key by key, other values when they are
    equal, and a nil agrees with everything.
   */
  lemma {:induction false} OrderMattersExactly(m: Tree, t: Tree)
    requires PlainPairs(Map(m))
    ensures Determined(m, t) <==> OrderFree(m, t)
    decreases Map(m)
  {
    forall x ensures DeterminedAt(m, t, x) <==> KeyFree(m, t, x) {
      assert PlainPairAt(m, x);
      KeyExactly(m, t, x);
    }
    DeterminedByKeys(m, t);
    forall k | k in m && m[k].Map? && Target(k) in t && t[Target(k)].Map?
      ensures Determined(m[k].entries, t[Target(k)].entries) <==> OrderFree(m[k].entries, t[Target(k)].entries)
    {
      assert m[k] < Map(m);
      OrderMattersExactly(m[k].entries, t[Target(k)].entries);
    }
    KeysAreFree(m, t);
  }

  /** Without that restriction, a result that does not depend on the order still needs every other pair to agree. */
  lemma DeterminedNeeds(m: Tree, t: Tree)
    requires Determined(m, t)
    ensures forall x :: PlainPairAt(m, x) ==> KeyFree(m, t, x)
  {
    DeterminedByKeys(m, t);
    forall x | PlainPairAt(m, x) ensures KeyFree(m, t, x) {
      KeyExactly(m, t, x);
      assert DeterminedAt(m, t, x);
    }
  }

  /**
    Nor is it enough there: a plain and an appended map, one appending to a list
    that the other sets, share no key and still differ, over any target.
   */
  lemma NestedAppend(x: string, y: string, u: seq<Value>, v: seq<Value>, t: Tree)
    requires !IsAppend(x) && !IsAppend(y) && u != []
    ensures var m := map[x := Map(map[APPEND + y := List(u)]), APPEND + x := Map(map[y := List(v)])];
      OrderFree(m, t) && !Determined(m, t)
  {
    var p, a := Map(map[APPEND + y := List(u)]), Map(map[y := List(v)]);
    var m := map[x := p, APPEND + x := a];
    TargetKeys(x);
    TargetKeys(y);
    var cur := Get(t, x);
    var mid := OutcomeExists(x, p, cur);
    var first := OutcomeExists(APPEND + x, a, Some(mid));
    PlainListSet(APPEND + x, y, v, Some(mid), first);
    var mid' := OutcomeExists(APPEND + x, a, cur);
    var second := OutcomeExists(x, p, Some(mid'));
    PlainListSet(APPEND + x, y, v, cur, mid');
    AppendExtends(p.entries, mid'.entries, second.entries, APPEND + y);
    assert first.entries[y] != second.entries[y] by { assert |v + u| != |v|; }
    assert OneThenOther(x, p, a, cur, mid, first) && OneThenOther(x, p, a, cur, mid', second);
    assert PairOutcome(x, p, a, cur, first) && PairOutcome(x, p, a, cur, second);
    assert Reached(m, m.Keys, x, cur, Some(first)) && Reached(m, m.Keys, x, cur, Some(second));
    assert !DeterminedAt(m, t, x);
    DeterminedByKeys(m, t);
    NestedIsOrderFree(x, y, u, v, t);
  }

  /** A map with one plain list sets that list. */
  lemma PlainListSet(k: string, y: string, v: seq<Value>, cur: Option<Value>, f: Value)
    requires !IsAppend(y) && Outcome(k, Map(map[y := List(v)]), cur, f)
    ensures f.Map? && y in f.entries && f.entries[y] == List(v)
  {
    var m := map[y := List(v)];
    TargetKeys(y);
    if cur.Some? && cur.value.Map? {
      WalkSettlesKeys(m, m.Keys, cur.value.entries, f.entries, y);
      assert APPEND + y != y by { assert |APPEND + y| != |y|; }
    }
  }

  lemma NestedIsOrderFree(x: string, y: string, u: seq<Value>, v: seq<Value>, t: Tree)
    requires !IsAppend(x) && !IsAppend(y)
    ensures OrderFree(map[x := Map(map[APPEND + y := List(u)]), APPEND + x := Map(map[y := List(v)])], t)
  {
    TargetKeys(x);
    TargetKeys(y);
    assert APPEND + y != y by { assert |APPEND + y| != |y|; }
    assert APPEND + x != x by { assert |APPEND + x| != |x|; }
    assert APPEND + (APPEND + x) != x && APPEND + (APPEND + x) != APPEND + x by {
      assert |APPEND + (APPEND + x)| > |APPEND + x| > |x|;
    }
  }

  lemma KeysAreFree(m: Tree, t: Tree)
    requires forall k :: k in m && m[k].Map? && Target(k) in t && t[Target(k)].Map? ==>
      (Determined(m[k].entries, t[Target(k)].entries) <==> OrderFree(m[k].entries, t[Target(k)].entries))
    ensures OrderFree(m, t) <==> forall x :: KeyFree(m, t, x)
  {
    if OrderFree(m, t) {
      forall x ensures KeyFree(m, t, x) { TargetKeys(x); }
    }
    if forall x :: KeyFree(m, t, x) {
      forall k | k in m
        ensures m[k].Map? && Target(k) in t && t[Target(k)].Map? ==> OrderFree(m[k].entries, t[Target(k)].entries)
        ensures !IsAppend(k) && APPEND + k in m ==> PairAgrees(m[k], m[APPEND + k])
      {
        TargetKeys(k);
        assert KeyFree(m, t, Target(k));
      }
    }
  }

  /** A plain and an appended list for one key: the two walks, over any target, and the only results. */
  lemma TwoLists(x: string, p: seq<Value>, a: seq<Value>, t: Tree)
    requires !IsAppend(x)
    ensures var m := map[x := List(p), APPEND + x := List(a)];
      && (exists q :: Walk(m, [Step(x, q), Step(APPEND + x, List(p + a))], t, t[x := List(p + a)]))
      && (exists q :: Walk(m, [Step(APPEND + x, q), Step(x, List(p))], t, t[x := List(p)]))
      && (Determined(m, t) <==> a == [])
  {
    var m := map[x := List(p), APPEND + x := List(a)];
    TargetKeys(x);
    TwoSteps(m, x, APPEND + x, t, List(p), List(p + a));
    var mid := OutcomeExists(APPEND + x, List(a), Get(t, x));
    TwoSteps(m, APPEND + x, x, t, mid, List(p));
    OrderMattersExactly(m, t);
    assert PairAgrees(m[x], m[APPEND + x]) <==> a == [];
  }

  lemma TwoSteps(m: Tree, j: string, k: string, t: Tree, mid: Value, f: Value)
    requires j in m && k in m && Target(j) == Target(k)
    requires Outcome(j, m[j], Get(t, Target(j)), mid) && Outcome(k, m[k], Some(mid), f)
    ensures Walk(m, [Step(j, mid), Step(k, f)], t, t[Target(j) := f])
  {
    var x, first, second := Target(j), Step(j, mid), Step(k, f);
    assert t[x := mid][x := f] == t[x := f];
    assert [second][1..] == [] && [first, second][1..] == [second];
    assert Walk(m, [second], t[x := mid], t[x := f]);
  }

  /** An input on which two orders give different results. */
  lemma OrderMatters()
    ensures var a, b := [Scalar(0, "a")], [Scalar(0, "b")];
      var m, t: Tree := map["X" := List(a), "AppendX" := List(b)], map["X" := List([])];
      && Walk(m, [Step("X", List(a)), Step("AppendX", List(a + b))], t, map["X" := List(a + b)])
      && Walk(m, [Step("AppendX", List(b)), Step("X", List(a))], t, map["X" := List(a)])
      && !OrderFree(m, t)
  {
    var a, b := [Scalar(0, "a")], [Scalar(0, "b")];
    var m, t: Tree := map["X" := List(a), "AppendX" := List(b)], map["X" := List([])];
    assert APPEND + "X" == "AppendX" && [] + b == b;
    TargetKeys("X");
    TwoSteps(m, "X", "AppendX", t, List(a), List(a + b));
    TwoSteps(m, "AppendX", "X", t, List(b), List(a));
    assert t["X" := List(a + b)] == map["X" := List(a + b)] && t["X" := List(a)] == map["X" := List(a)];
    assert !PairAgrees(m["X"], m["AppendX"]);
  }

  // ---- what a merge keeps ----

  lemma MergeAt(m: Tree, t: Tree, k: string)
    ensures k in Merge(m, t) <==> k in m || k in t
    ensures k in m && k in t ==>
              Merge(m, t)[k] == if m[k].Map? && t[k].Map? then Map(Merge(m[k].entries, t[k].entries))
                                else if m[k].Nil? then t[k] else m[k]
    ensures k in m && k !in t ==> Merge(m, t)[k] == m[k]
    ensures k in t && k !in m ==> Merge(m, t)[k] == t[k]
  {}

  function Lookup(v: Value, path: seq<string>): Option<Value>
    decreases |path|
  {
    if path == [] then Some(v)
    else if v.Map? && path[0] in v.entries then Lookup(v.entries[path[0]], path[1..])
    else None
  }

  predicate IsLeaf(v: Value) { !v.Map? }

  /** Every non-nil leaf of the overriding tree is at its path in the merge. */
  lemma {:induction false} LeavesOverride(m: Tree, t: Tree, path: seq<string>, leaf: Value)
    requires AppendFree(Map(m)) && IsLeaf(leaf) && !leaf.Nil?
    requires Lookup(Map(m), path) == Some(leaf)
    ensures Lookup(Map(Merge(m, t)), path) == Some(leaf)
    decreases |path|
  {
    var k := path[0];
    MergeAt(m, t, k);
    if k in t && m[k].Map? && t[k].Map? {
      assert AppendFree(m[k]);
      LeavesOverride(m[k].entries, t[k].entries, path[1..], leaf);
    }
  }

  /** Walking `path` by target keys, the overriding tree ends in a missing key or a nil. */
  predicate Untouched(v: Value, path: seq<string>)
    decreases |path|
  {
    match v
    case Nil => true
    case Map(m) =>
      && path != []
      && (HasPlain(m.Keys, path[0]) ==> Untouched(m[path[0]], path[1..]))
      && (HasAppend(m.Keys, path[0]) ==> Untouched(m[APPEND + path[0]], path[1..]))
    case _ => false
  }

  /** Whatever the target has at a path the overriding tree does not mention is still there, after any walk. */
  lemma {:induction false} UnmentionedSurvives(m: Tree, t: Tree, r: Tree, path: seq<string>)
    requires Merges(m, t, r) && Untouched(Map(m), path) && Lookup(Map(t), path).Some?
    ensures Lookup(Map(r), path) == Lookup(Map(t), path)
    decreases |path|, 1
  {
    var x := path[0];
    WalkSettlesKeys(m, m.Keys, t, r, x);
    if HasPlain(m.Keys, x) && HasAppend(m.Keys, x) {
      var mid :| OneThenOther(x, m[x], m[APPEND + x], Some(t[x]), mid, r[x]);
      if Outcome(x, m[x], Some(t[x]), mid) && Outcome(APPEND + x, m[APPEND + x], Some(mid), r[x]) {
        OutcomeSurvives(x, m[x], t[x], mid, path[1..]);
        OutcomeSurvives(APPEND + x, m[APPEND + x], mid, r[x], path[1..]);
      } else {
        OutcomeSurvives(APPEND + x, m[APPEND + x], t[x], mid, path[1..]);
        OutcomeSurvives(x, m[x], mid, r[x], path[1..]);
      }
    } else if HasPlain(m.Keys, x) {
      OutcomeSurvives(x, m[x], t[x], r[x], path[1..]);
    } else if HasAppend(m.Keys, x) {
      OutcomeSurvives(APPEND + x, m[APPEND + x], t[x], r[x], path[1..]);
    }
  }

  lemma {:induction false} OutcomeSurvives(k: string, v: Value, tv: Value, f: Value, path: seq<string>)
    requires Outcome(k, v, Some(tv), f) && Untouched(v, path) && Lookup(tv, path).Some?
    ensures Lookup(f, path) == Lookup(tv, path)
    decreases |path|, 2
  {
    if v.Map? { UnmentionedSurvives(v.entries, tv.entries, f.entries, path); }
  }

  /** Nothing else gets in: a leaf of the merge is a leaf of one of the two trees at the same path. */
  lemma {:induction false} LeavesHaveASource(m: Tree, t: Tree, path: seq<string>, leaf: Value)
    requires AppendFree(Map(m)) && IsLeaf(leaf)
    requires Lookup(Map(Merge(m, t)), path) == Some(leaf)
    ensures Lookup(Map(m), path) == Some(leaf) || Lookup(Map(t), path) == Some(leaf)
    decreases |path|
  {
    var k := path[0];
    MergeAt(m, t, k);
    if k in m && k in t && m[k].Map? && t[k].Map? {
      assert AppendFree(m[k]);
      LeavesHaveASource(m[k].entries, t[k].entries, path[1..], leaf);
    }
  }

  lemma {:induction false} MergeWithItself(m: Tree)
    requires AppendFree(Map(m))
    ensures Merge(m, m) == m
    decreases Map(m)
  {
    forall k | k in m ensures Merge(m, m)[k] == m[k] {
      assert m[k] < Map(m);
      MergeAt(m, m, k);
      if m[k].Map? { MergeWithItself(m[k].entries); }
    }
  }

  /** Merging the same tree again changes nothing more. */
  lemma {:induction false} MergeIdempotent(m: Tree, t: Tree)
    requires AppendFree(Map(m))
    ensures Merge(m, Merge(m, t)) == Merge(m, t)
    decreases Map(m)
  {
    forall k | k in m ensures Merge(m, Merge(m, t))[k] == Merge(m, t)[k] {
      assert m[k] < Map(m);
      MergeAt(m, t, k);
      MergeAt(m, Merge(m, t), k);
      if m[k].Map? {
        MergeWithItself(m[k].entries);
        if k in t && t[k].Map? { MergeIdempotent(m[k].entries, t[k].entries); }
      }
    }
  }

  // ---- appending ----

  /** The other key merged under the same target, if `m` has it, holds nil. */
  predicate NoRival(m: Tree, k: string) {
    if IsAppend(k) then HasPlain(m.Keys, Target(k)) ==> m[Target(k)].Nil?
    else HasAppend(m.Keys, k) ==> m[APPEND + k].Nil?
  }

  /** An entry without a rival alone decides what its target key holds, in every order of the walk. */
  lemma EntryDecides(m: Tree, t: Tree, r: Tree, k: string)
    requires Merges(m, t, r) && k in m && NoRival(m, k) && !m[k].Nil?
    ensures Target(k) in r && Outcome(k, m[k], Get(t, Target(k)), r[Target(k)])
  {
    var x := Target(k);
    OwnTarget(m.Keys, k);
    TargetKeys(x);
    WalkSettlesKeys(m, m.Keys, t, r, x);
    if HasPlain(m.Keys, x) && HasAppend(m.Keys, x) { NilPairOutcome(x, m[x], m[APPEND + x], Get(t, x), r[x]); }
  }

  /**
    A list marked for appending extends the target's list at the target's key,
    and is all there is when the target has no list there, in every order of the walk.
   */
  lemma AppendExtends(m: Tree, t: Tree, r: Tree, k: string)
    requires Merges(m, t, r) && k in m && IsAppend(k) && m[k].List? && NoRival(m, k)
    ensures Target(k) in r
    ensures r[Target(k)] ==
            if Target(k) in t && t[Target(k)].List? then List(t[Target(k)].items + m[k].items) else m[k]
  {
    EntryDecides(m, t, r, k);
  }

  // ---- where leaves land, for any trees ----

  /** The entry and the target both hold maps, so these are merged. */
  predicate Meets(m: Tree, t: Tree, k: string) {
    k in m && m[k].Map? && Target(k) in t && t[Target(k)].Map?
  }

  /** No entry on the path has a rival where maps meet. */
  predicate Unrivalled(m: Tree, t: Tree, path: seq<string>)
    decreases |path|
  {
    path != [] && path[0] in m ==>
      && NoRival(m, path[0])
      && (Meets(m, t, path[0]) ==> Unrivalled(m[path[0]].entries, t[Target(path[0])].entries, path[1..]))
  }

  /** Where the entry at `path` ends up: appending keys lose their prefix as long as maps meet, and then no more. */
  function Landing(m: Tree, t: Tree, path: seq<string>): seq<string>
    requires path != []
    decreases |path|
  {
    [Target(path[0])] +
    if |path| > 1 && Meets(m, t, path[0]) then Landing(m[path[0]].entries, t[Target(path[0])].entries, path[1..])
    else path[1..]
  }

  /** What it is there: an appended list follows the target's, anything else is as it was. */
  function Landed(m: Tree, t: Tree, path: seq<string>, leaf: Value): Value
    requires path != []
    decreases |path|
  {
    var x := Target(path[0]);
    if |path| > 1 then
      if Meets(m, t, path[0]) then Landed(m[path[0]].entries, t[x].entries, path[1..], leaf) else leaf
    else if IsAppend(path[0]) && leaf.List? && x in t && t[x].List? then List(t[x].items + leaf.items)
    else leaf
  }

  /** Every non-nil leaf of any tree, at any depth, is in the result of every walk, if nothing rivals it. */
  lemma {:induction false} LeavesLand(m: Tree, t: Tree, r: Tree, path: seq<string>, leaf: Value)
    requires Merges(m, t, r) && path != [] && Lookup(Map(m), path) == Some(leaf)
    requires IsLeaf(leaf) && !leaf.Nil? && Unrivalled(m, t, path)
    ensures Lookup(Map(r), Landing(m, t, path)) == Some(Landed(m, t, path, leaf))
    decreases |path|
  {
    var k, x := path[0], Target(path[0]);
    EntryDecides(m, t, r, k);
    var landing := Landing(m, t, path);
    assert landing[0] == x;
    if |path| > 1 {
      if Meets(m, t, k) {
        LeavesLand(m[k].entries, t[x].entries, r[x].entries, path[1..], leaf);
        assert landing[1..] == Landing(m[k].entries, t[x].entries, path[1..]);
      } else {
        assert landing[1..] == path[1..] && r[x] == m[k];
      }
    } else {
      assert path[1..] == [] && landing[1..] == [];
    }
  }

  /** Every item of an appending list is an item of the list it lands in. */
  lemma AppendedItemsLand(m: Tree, t: Tree, r: Tree, path: seq<string>, items: seq<Value>, i: nat)
    requires Merges(m, t, r) && path != [] && Lookup(Map(m), path) == Some(List(items)) && Unrivalled(m, t, path)
    requires i < |items|
    ensures Lookup(Map(r), Landing(m, t, path)).Some? && Lookup(Map(r), Landing(m, t, path)).value.List?
    ensures items[i] in Lookup(Map(r), Landing(m, t, path)).value.items
  {
    LeavesLand(m, t, r, path, List(items));
    LandedEndsWith(m, t, path, items);
    var all := Landed(m, t, path, List(items)).items;
    assert all[|all| - |items| + i] == all[|all| - |items|..][i] == items[i];
  }

  lemma {:induction false} LandedEndsWith(m: Tree, t: Tree, path: seq<string>, items: seq<Value>)
    requires path != []
    ensures var l := Landed(m, t, path, List(items));
      l.List? && |items| <= |l.items| && l.items[|l.items| - |items|..] == items
    decreases |path|
  {
    if |path| > 1 && Meets(m, t, path[0]) {
      LandedEndsWith(m[path[0]].entries, t[Target(path[0])].entries, path[1..], items);
    }
  }
}
