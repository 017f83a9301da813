/** Ephemeral memories as JSON: five-field contexts joined into one string key, and split again. */
module MemoryKeys {
  import opened Options

  datatype Context = Context(key: string, user: string, channel: string, thread: string, protocol: string)
  type Memories<V> = map<Context, V>

  const SEP := "{|}"
  const LAST_MSG := "lastMsg"

  /** The separator occurs in `s` at position `i`. */
  predicate SepAt(s: string, i: int) {
    0 <= i && i + 3 <= |s| && s[i] == '{' && s[i + 1] == '|' && s[i + 2] == '}'
  }

  predicate HasSep(s: string) {
    exists i :: 0 <= i < |s| && SepAt(s, i)
  }

  /** The first position at or after `from` where the separator occurs, or the length of `s`. */
  function FirstSep(s: string, from: nat): (i: nat)
    requires from <= |s|
    ensures from <= i <= |s| && (i < |s| ==> SepAt(s, i))
    ensures forall j :: from <= j < i ==> !SepAt(s, j)
    decreases |s| - from
  {
    if from == |s| || SepAt(s, from) then from else FirstSep(s, from + 1)
  }

  /** `strings.Split` by the separator. */
  function Split(s: string): (parts: seq<string>)
    ensures parts != []
    decreases |s|
  {
    var i := FirstSep(s, 0);
    if i == |s| then [s] else [s[..i]] + Split(s[i + 3..])
  }

  function Join(c: Context): string {
    c.key + SEP + (c.user + SEP + (c.channel + SEP + (c.thread + SEP + c.protocol)))
  }

  function Decode(s: string): Option<Context> {
    var parts := Split(s);
    if |parts| != 4 && |parts| != 5 then None
    else Some(Context(parts[0], parts[1], parts[2], parts[3], if |parts| == 5 then parts[4] else ""))
  }

  predicate Clean(c: Context) {
    !HasSep(c.key) && !HasSep(c.user) && !HasSep(c.channel) && !HasSep(c.thread) && !HasSep(c.protocol)
  }

  // ---- splitting a joined string ----

  /** The separator cannot overlap itself, so none starts inside a clean field that it follows. */
  lemma NoSepBefore(field: string, rest: string, i: nat)
    requires i < |field|
    ensures SepAt(field + SEP + rest, i) <==> SepAt(field, i)
  {
    var s := field + SEP + rest;
    assert s[i] == field[i];
    assert i + 1 < |field| ==> s[i + 1] == field[i + 1];
    assert i + 2 < |field| ==> s[i + 2] == field[i + 2];
    assert s[|field|] == '{' && s[|field| + 1] == '|' && s[|field| + 2] == '}';
  }

  /** How many parts `s` splits into. */
  function PartCount(s: string): nat { |Split(s)| }

  /** The first separator of a joined string is the field's own first, or the one that ends the field. */
  lemma FirstSepJoined(field: string, rest: string)
    ensures FirstSep(field + SEP + rest, 0) == FirstSep(field, 0)
  {
    var s := field + SEP + rest;
    forall j | 0 <= j < |field| ensures SepAt(s, j) <==> SepAt(field, j) { NoSepBefore(field, rest, j); }
    assert SepAt(s, |field|);
  }

  lemma {:induction false} SplitJoined(field: string, rest: string)
    ensures Split(field + SEP + rest) == Split(field) + Split(rest)
    decreases |field|
  {
    var s := field + SEP + rest;
    var i := FirstSep(field, 0);
    FirstSepJoined(field, rest);
    SplitFirst(s);
    SplitFirst(field);
    assert s[..i] == field[..i];
    if i == |field| {
      assert s[i + 3..] == rest && field[..i] == field;
    } else {
      assert s[i + 3..] == field[i + 3..] + SEP + rest;
      SplitJoined(field[i + 3..], rest);
      assert [field[..i]] + (Split(field[i + 3..]) + Split(rest)) == Split(field) + Split(rest);
    }
  }

  lemma SplitFirst(s: string)
    ensures var i := FirstSep(s, 0); Split(s) == if i == |s| then [s] else [s[..i]] + Split(s[i + 3..])
  {}

  lemma CleanIsOnePart(s: string)
    ensures PartCount(s) == 1 <==> !HasSep(s)
    ensures !HasSep(s) ==> Split(s) == [s]
  {
    var i := FirstSep(s, 0);
    if i < |s| { assert SepAt(s, i); }
  }

  lemma SplitOfJoin(c: Context)
    ensures Split(Join(c)) ==
            Split(c.key) + (Split(c.user) + (Split(c.channel) + (Split(c.thread) + Split(c.protocol))))
  {
    SplitJoined(c.thread, c.protocol);
    SplitJoined(c.channel, c.thread + SEP + c.protocol);
    SplitJoined(c.user, c.channel + SEP + (c.thread + SEP + c.protocol));
    SplitJoined(c.key, c.user + SEP + (c.channel + SEP + (c.thread + SEP + c.protocol)));
  }

  /** A context survives encoding exactly when no field contains the separator; otherwise its key is refused. */
  lemma ContextRoundTrip(c: Context)
    ensures Decode(Join(c)) == if Clean(c) then Some(c) else None
  {
    SplitOfJoin(c);
    CleanIsOnePart(c.key);
    CleanIsOnePart(c.user);
    CleanIsOnePart(c.channel);
    CleanIsOnePart(c.thread);
    CleanIsOnePart(c.protocol);
  }

  lemma NoCollisions(c: Context, d: Context)
    requires Clean(c) && Clean(d) && Join(c) == Join(d)
    ensures c == d
  {
    ContextRoundTrip(c);
    ContextRoundTrip(d);
  }

  /** Keys written before contexts had a protocol decode with an empty one. */
  lemma LegacyKey(key: string, user: string, channel: string, thread: string)
    requires !HasSep(key) && !HasSep(user) && !HasSep(channel) && !HasSep(thread)
    ensures Decode(key + SEP + (user + SEP + (channel + SEP + thread))) == Some(Context(key, user, channel, thread, ""))
  {
    SplitJoined(channel, thread);
    SplitJoined(user, channel + SEP + thread);
    SplitJoined(key, user + SEP + (channel + SEP + thread));
    CleanIsOnePart(key);
    CleanIsOnePart(user);
    CleanIsOnePart(channel);
    CleanIsOnePart(thread);
  }

  // ---- whole maps ----

  function Kept<V>(m: Memories<V>): Memories<V> {
    map c | c in m && c.key != LAST_MSG :: m[c]
  }

  ghost predicate AllClean<V>(m: Memories<V>) {
    forall c :: c in m && c.key != LAST_MSG ==> Clean(c)
  }

  /** What marshalling may produce: every kept context under its joined key, and nothing else. */
  ghost predicate IsEncoding<V>(m: Memories<V>, t: map<string, V>) {
    && (forall c :: c in Kept(m) ==> Join(c) in t)
    && (forall s :: s in t ==> exists c :: c in Kept(m) && Join(c) == s && t[s] == m[c])
  }

  method Marshal<V>(m: Memories<V>) returns (t: map<string, V>)
    ensures IsEncoding(m, t)
  {
    t := map[];
    var todo := m.Keys;
    while todo != {}
      invariant todo <= m.Keys
      invariant forall c :: c in m && c !in todo && c.key != LAST_MSG ==> Join(c) in t
      invariant forall s :: s in t ==> exists c :: c in Kept(m) && Join(c) == s && t[s] == m[c]
    {
      var c :| c in todo;
      todo := todo - {c};
      if c.key == LAST_MSG { continue; }
      assert c in Kept(m);
      t := t[Join(c) := m[c]];
    }
  }

  datatype Restored<V> = Failed | Ok(m: Memories<V>)

  /** What unmarshalling may produce: every key's context, with the value of a key that decodes to it. */
  ghost predicate IsDecoding<V>(t: map<string, V>, r: Restored<V>) {
    if exists s :: s in t && Decode(s).None? then r.Failed?
    else
      && r.Ok?
      && (forall s :: s in t ==> Decode(s).value in r.m)
      && (forall c :: c in r.m ==> exists s :: s in t && Decode(s) == Some(c) && t[s] == r.m[c])
  }

  method Unmarshal<V>(t: map<string, V>) returns (r: Restored<V>)
    ensures IsDecoding(t, r)
  {
    var m: Memories<V> := map[];
    var todo := t.Keys;
    while todo != {}
      invariant todo <= t.Keys
      invariant forall s :: s in t && s !in todo ==> Decode(s).Some? && Decode(s).value in m
      invariant forall c :: c in m ==> exists s :: s in t && Decode(s) == Some(c) && t[s] == m[c]
    {
      var s :| s in todo;
      todo := todo - {s};
      var c := Decode(s);
      if c.None? { return Failed; }
      m := m[c.value := t[s]];
    }
    r := Ok(m);
  }

  lemma CleanEntries<V>(m: Memories<V>, t: map<string, V>, s: string)
    requires IsEncoding(m, t) && AllClean(m) && s in t
    ensures Decode(s).Some? && Decode(s).value in Kept(m) && t[s] == m[Decode(s).value]
  {
    var c :| c in Kept(m) && Join(c) == s && t[s] == m[c];
    ContextRoundTrip(c);
  }

  /** Decoding every key of an encoding, when decoding undoes encoding, gives back what was encoded. */
  lemma DecodedIsEncoded<V>(kept: Memories<V>, t: map<string, V>, r: Memories<V>,
                            encode: Context -> string, decode: string -> Option<Context>)
    requires forall c :: c in kept ==> encode(c) in t && decode(encode(c)) == Some(c)
    requires forall s :: s in t ==> decode(s).Some? && decode(s).value in kept && t[s] == kept[decode(s).value]
    requires forall s :: s in t ==> decode(s).value in r
    requires forall c :: c in r ==> exists s :: s in t && decode(s) == Some(c) && t[s] == r[c]
    ensures r == kept
  {
    forall c | c in r ensures c in kept && r[c] == kept[c] {
      var s :| s in t && decode(s) == Some(c) && t[s] == r[c];
    }
    forall c | c in kept ensures c in r { assert encode(c) in t; }
  }

  lemma CleanEncoding<V>(m: Memories<V>, t: map<string, V>)
    requires IsEncoding(m, t) && AllClean(m)
    ensures forall c :: c in Kept(m) ==> Join(c) in t && Decode(Join(c)) == Some(c)
    ensures forall s :: s in t ==> Decode(s).Some? && Decode(s).value in Kept(m) && t[s] == Kept(m)[Decode(s).value]
  {
    forall s | s in t ensures Decode(s).Some? && Decode(s).value in Kept(m) && t[s] == Kept(m)[Decode(s).value] {
      CleanEntries(m, t, s);
    }
    forall c | c in Kept(m) ensures Join(c) in t && Decode(Join(c)) == Some(c) { ContextRoundTrip(c); }
  }

  lemma CleanRoundTrip<V>(m: Memories<V>, t: map<string, V>, r: Restored<V>)
    requires forall c :: c in Kept(m) ==> Join(c) in t && Decode(Join(c)) == Some(c)
    requires forall s :: s in t ==> Decode(s).Some? && Decode(s).value in Kept(m) && t[s] == Kept(m)[Decode(s).value]
    requires IsDecoding(t, r)
    ensures r == Ok(Kept(m))
  {
    assert r.Ok?;
    DecodedIsEncoded(Kept(m), t, r.m, Join, Decode);
  }

  /**
    Saving and restoring gives back exactly the memories other than last
    messages when no field of theirs contains the separator; when one does, the
    whole restore fails.
   */
  lemma RoundTrip<V>(m: Memories<V>, t: map<string, V>, r: Restored<V>)
    requires IsEncoding(m, t) && IsDecoding(t, r)
    ensures AllClean(m) ==>
              r.Ok? && forall c :: (c in r.m <==> c in m && c.key != "lastMsg") && (c in r.m ==> r.m[c] == m[c])
    ensures !AllClean(m) ==> r.Failed?
  {
    if AllClean(m) {
      CleanEncoding(m, t);
      CleanRoundTrip(m, t, r);
    } else {
      var c :| c in m && c.key != LAST_MSG && !Clean(c);
      ContextRoundTrip(c);
      assert c in Kept(m);
      assert Join(c) in t;
    }
  }
}
