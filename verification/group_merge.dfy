/** Group preference merging (lib/qloo-api.ts, `mergeGroupPreferences`):
    a de-duplication over preferences keyed by the string
    `name + "-" + category`, with a `union` and an `intersection`
    strategy, both folding left to right into an insertion-ordered map. */
module GroupMerge {
  import opened Wrappers
  import opened Types
  import opened Seqs
  import opened Assoc

  datatype Strategy = Union | Intersection

  /** The merge key. It is a concatenated string, not a pair, so
      different name/category splits can share a key. */
  function Key(p: Preference): string {
    p.name + "-" + p.category
  }

  function KeysOf(prefs: seq<Preference>): (ks: seq<string>)
    ensures |ks| == |prefs|
    ensures forall i :: 0 <= i < |prefs| ==> ks[i] == Key(prefs[i])
  {
    seq(|prefs|, i requires 0 <= i < |prefs| => Key(prefs[i]))
  }

  /** `pref.confidence || 0`. */
  function Confidence(p: Preference): real {
    match p.confidence
    case Some(c) => c
    case None => 0.0
  }

  /** The key `("a-b", "c")` and the key `("a", "b-c")` coincide. */
  lemma KeyCollision(p: Preference, q: Preference)
    requires p.name == "a-b" && p.category == "c"
    requires q.name == "a" && q.category == "b-c"
    ensures Key(p) == Key(q) && (p.name, p.category) != (q.name, q.category)
  {
  }

  // ---------------------------------------------------------------- union

  /** One `forEach` step of the union strategy: store `p` when its key is
      new or its confidence is strictly greater than the stored one. */
  function UnionStep(m: seq<Entry<Preference>>, p: Preference): seq<Entry<Preference>> {
    var k := Key(p);
    if k !in Keys(m) || Confidence(p) > Confidence(Get(m, k)) then Put(m, k, p) else m
  }

  function UnionTable(prefs: seq<Preference>): seq<Entry<Preference>> {
    if |prefs| == 0 then []
    else UnionStep(UnionTable(prefs[..|prefs| - 1]), prefs[|prefs| - 1])
  }

  /** Entry `j` is the one union keeps for its key: every earlier entry
      with that key has strictly smaller confidence and no later one has
      larger confidence. */
  ghost predicate KeptByUnion(prefs: seq<Preference>, j: int) {
    0 <= j < |prefs| &&
    forall i :: 0 <= i < |prefs| && Key(prefs[i]) == Key(prefs[j]) ==>
      (i < j ==> Confidence(prefs[i]) < Confidence(prefs[j])) &&
      (j < i ==> Confidence(prefs[i]) <= Confidence(prefs[j]))
  }

  ghost predicate UnionRepresents(prefs: seq<Preference>, e: Entry<Preference>) {
    exists j :: KeptByUnion(prefs, j) && prefs[j] == e.value && Key(prefs[j]) == e.key
  }

  ghost predicate UnionTableInv(prefs: seq<Preference>, m: seq<Entry<Preference>>) {
    Keys(m) == Distinct(KeysOf(prefs)) &&
    forall e :: e in m ==> UnionRepresents(prefs, e)
  }

  /** At most one entry per key satisfies `KeptByUnion`. */
  lemma KeptByUnionUnique(prefs: seq<Preference>, j1: int, j2: int)
    requires KeptByUnion(prefs, j1) && KeptByUnion(prefs, j2)
    requires Key(prefs[j1]) == Key(prefs[j2])
    ensures j1 == j2
  {
  }

  /** Appending `p` keeps entry `j` kept unless `p` shares its key with
      strictly greater confidence. */
  lemma KeptByUnionExtend(init: seq<Preference>, p: Preference, j: int)
    requires KeptByUnion(init, j)
    requires Key(p) != Key(init[j]) || Confidence(p) <= Confidence(init[j])
    ensures KeptByUnion(init + [p], j)
  {
    var prefs := init + [p];
    forall i | 0 <= i < |prefs| && Key(prefs[i]) == Key(prefs[j])
      ensures (i < j ==> Confidence(prefs[i]) < Confidence(prefs[j]))
      ensures (j < i ==> Confidence(prefs[i]) <= Confidence(prefs[j]))
    {
      if i < |init| {
        assert prefs[i] == init[i];
      }
    }
  }

  /** The appended `p` is kept when every earlier entry with its key has
      strictly smaller confidence. */
  lemma KeptByUnionLast(init: seq<Preference>, p: Preference)
    requires forall i :: 0 <= i < |init| && Key(init[i]) == Key(p) ==> Confidence(init[i]) < Confidence(p)
    ensures KeptByUnion(init + [p], |init|)
  {
    var prefs := init + [p];
    forall i | 0 <= i < |prefs| && Key(prefs[i]) == Key(prefs[|init|]) && i < |init|
      ensures Confidence(prefs[i]) < Confidence(prefs[|init|])
    {
      assert prefs[i] == init[i];
    }
  }

  /** `UnionStep` only ever adds the key of the new element. */
  lemma UnionStepKeys(m: seq<Entry<Preference>>, p: Preference)
    ensures Keys(UnionStep(m, p)) == if Key(p) in Keys(m) then Keys(m) else Keys(m) + [Key(p)]
  {
  }

  lemma KeysOfSnoc(init: seq<Preference>, p: Preference)
    ensures KeysOf(init + [p]) == KeysOf(init) + [Key(p)]
  {
  }

  lemma {:induction false} UnionTableKeys(prefs: seq<Preference>)
    ensures Keys(UnionTable(prefs)) == Distinct(KeysOf(prefs))
  {
    if |prefs| > 0 {
      var n := |prefs| - 1;
      var init, p := prefs[..n], prefs[n];
      assert prefs == init + [p];
      UnionTableKeys(init);
      UnionStepKeys(UnionTable(init), p);
      KeysOfSnoc(init, p);
      DistinctSnoc(KeysOf(init), Key(p));
    }
  }

  /** The step that stores the new element `p` keeps every represented
      entry represented. */
  lemma UnionStepReplaces(init: seq<Preference>, m0: seq<Entry<Preference>>, p: Preference)
    requires forall e :: e in m0 ==> UnionRepresents(init, e)
    requires Key(p) !in Keys(m0) || Confidence(p) > Confidence(Get(m0, Key(p)))
    requires forall i :: 0 <= i < |init| && Key(init[i]) == Key(p) ==> Key(p) in Keys(m0)
    ensures forall e :: e in Put(m0, Key(p), p) ==> UnionRepresents(init + [p], e)
  {
    var k := Key(p);
    var prefs := init + [p];
    var n := |init|;
    forall i | 0 <= i < n && Key(init[i]) == k
      ensures Confidence(init[i]) < Confidence(p)
    {
      assert Entry(k, Get(m0, k)) in m0;
      var j :| KeptByUnion(init, j) && init[j] == Get(m0, k) && Key(init[j]) == k;
    }
    KeptByUnionLast(init, p);
    forall e | e in Put(m0, k, p)
      ensures UnionRepresents(prefs, e)
    {
      if e == Entry(k, p) {
        assert prefs[n] == e.value;
      } else {
        var j :| KeptByUnion(init, j) && init[j] == e.value && Key(init[j]) == e.key;
        KeptByUnionExtend(init, p, j);
        assert prefs[j] == init[j];
      }
    }
  }

  /** The step that ignores the new element `p` keeps every represented
      entry represented. */
  lemma UnionStepKeeps(init: seq<Preference>, m0: seq<Entry<Preference>>, p: Preference)
    requires forall e :: e in m0 ==> UnionRepresents(init, e)
    requires Key(p) in Keys(m0) && Confidence(p) <= Confidence(Get(m0, Key(p)))
    ensures forall e :: e in m0 ==> UnionRepresents(init + [p], e)
  {
    var k := Key(p);
    var prefs := init + [p];
    forall e | e in m0
      ensures UnionRepresents(prefs, e)
    {
      var j :| KeptByUnion(init, j) && init[j] == e.value && Key(init[j]) == e.key;
      if e.key == k {
        assert Entry(k, Get(m0, k)) in m0;
        var j' :| KeptByUnion(init, j') && init[j'] == Get(m0, k) && Key(init[j']) == k;
        KeptByUnionUnique(init, j, j');
      }
      KeptByUnionExtend(init, p, j);
      assert prefs[j] == init[j];
    }
  }

  ghost predicate AllRepresented(prefs: seq<Preference>, m: seq<Entry<Preference>>) {
    forall e :: e in m ==> UnionRepresents(prefs, e)
  }

  lemma {:induction false} UnionTableRepresents(prefs: seq<Preference>)
    ensures AllRepresented(prefs, UnionTable(prefs))
  {
    if |prefs| > 0 {
      var n := |prefs| - 1;
      var init := prefs[..n];
      var p := prefs[n];
      assert prefs == init + [p];
      UnionTableRepresents(init);
      UnionTableKeys(init);
      var m0 := UnionTable(init);
      forall i | 0 <= i < |init| && Key(init[i]) == Key(p)
        ensures Key(p) in Keys(m0)
      {
        assert KeysOf(init)[i] == Key(p);
      }
      if Key(p) !in Keys(m0) || Confidence(p) > Confidence(Get(m0, Key(p))) {
        UnionStepReplaces(init, m0, p);
      } else {
        UnionStepKeeps(init, m0, p);
      }
    }
  }

  lemma UnionTableCorrect(prefs: seq<Preference>)
    ensures UnionTableInv(prefs, UnionTable(prefs))
  {
    UnionTableKeys(prefs);
    UnionTableRepresents(prefs);
  }

  /** The union strategy. The result has one preference per distinct
      key, listed in the order in which keys first occur in the input,
      and the preference for each key is an input element of maximal
      confidence for that key, the earliest one among equals. */
  function MergeUnion(prefs: seq<Preference>): (r: seq<Preference>)
    ensures KeysOf(r) == Distinct(KeysOf(prefs))
    ensures forall i :: 0 <= i < |r| ==>
      exists j :: KeptByUnion(prefs, j) && prefs[j] == r[i]
  {
    var m := UnionTable(prefs);
    UnionTableCorrect(prefs);
    var r := Values(m);
    assert forall i :: 0 <= i < |r| ==> m[i] in m && UnionRepresents(prefs, m[i]);
    assert KeysOf(r) == Keys(m);
    r
  }

  // --------------------------------------------------------- intersection

  /** The first preference seen for a key and how often the key occurred. */
  datatype Tally = Tally(first: Preference, count: nat)

  /** One `forEach` step of the intersection strategy. */
  function TallyStep(m: seq<Entry<Tally>>, p: Preference): seq<Entry<Tally>> {
    var k := Key(p);
    if k in Keys(m) then
      var t := Get(m, k);
      Put(m, k, Tally(t.first, t.count + 1))
    else
      Put(m, k, Tally(p, 1))
  }

  function TallyTable(prefs: seq<Preference>): seq<Entry<Tally>> {
    if |prefs| == 0 then []
    else TallyStep(TallyTable(prefs[..|prefs| - 1]), prefs[|prefs| - 1])
  }

  /** `.filter(item => item.count > 1).map(item => item.pref)`. */
  function Repeated(m: seq<Entry<Tally>>): seq<Preference> {
    if |m| == 0 then []
    else (if m[0].value.count > 1 then [m[0].value.first] else []) + Repeated(m[1..])
  }

  /** The intersection strategy. The fold computes the reference
      intersection: the first element of every key that occurs at least
      twice, in first-occurrence order of the keys. */
  function MergeIntersection(prefs: seq<Preference>): (r: seq<Preference>)
    ensures r == FirstOfRepeatedKeys(Distinct(KeysOf(prefs)), prefs)
  {
    TallyTableCorrect(prefs);
    RepeatedMatchesReference(prefs, TallyTable(prefs));
    Repeated(TallyTable(prefs))
  }

  /** The first input element with key `k`. */
  function FirstWithKey(prefs: seq<Preference>, k: string): (p: Preference)
    requires k in KeysOf(prefs)
    ensures p in prefs && Key(p) == k
  {
    prefs[IndexOf(KeysOf(prefs), k)]
  }

  /** How many input elements have key `k`. */
  function Occurrences(prefs: seq<Preference>, k: string): nat {
    multiset(KeysOf(prefs))[k]
  }

  /** Reference definition of the intersection, independent of the fold:
      walk the given keys and keep, for each key occurring at least
      twice in the input, its first input element. */
  function FirstOfRepeatedKeys(ks: seq<string>, prefs: seq<Preference>): seq<Preference>
    requires forall k :: k in ks ==> k in KeysOf(prefs)
  {
    if |ks| == 0 then []
    else
      (if Occurrences(prefs, ks[0]) >= 2 then [FirstWithKey(prefs, ks[0])] else [])
      + FirstOfRepeatedKeys(ks[1..], prefs)
  }

  /** Every tally entry records its key's first element and count. */
  ghost predicate TallyEntriesOk(prefs: seq<Preference>, m: seq<Entry<Tally>>) {
    forall e :: e in m ==>
      e.key in KeysOf(prefs) &&
      e.value.first == FirstWithKey(prefs, e.key) &&
      e.value.count == Occurrences(prefs, e.key)
  }

  ghost predicate TallyTableInv(prefs: seq<Preference>, m: seq<Entry<Tally>>) {
    Keys(m) == Distinct(KeysOf(prefs)) && TallyEntriesOk(prefs, m)
  }

  lemma TallyStepKeys(m: seq<Entry<Tally>>, p: Preference)
    ensures Keys(TallyStep(m, p)) == if Key(p) in Keys(m) then Keys(m) else Keys(m) + [Key(p)]
  {
  }

  lemma {:induction false} TallyTableKeys(prefs: seq<Preference>)
    ensures Keys(TallyTable(prefs)) == Distinct(KeysOf(prefs))
  {
    if |prefs| > 0 {
      var n := |prefs| - 1;
      TallyTableKeys(prefs[..n]);
      TallyStepKeys(TallyTable(prefs[..n]), prefs[n]);
      assert KeysOf(prefs)[..n] == KeysOf(prefs[..n]);
    }
  }

  /** Appending `p` adds one occurrence of its key and moves no first
      occurrence. */
  lemma Snoc(init: seq<Preference>, p: Preference, k: string)
    ensures Occurrences(init + [p], k) == Occurrences(init, k) + (if k == Key(p) then 1 else 0)
    ensures k in KeysOf(init) ==> k in KeysOf(init + [p]) && FirstWithKey(init + [p], k) == FirstWithKey(init, k)
    ensures k == Key(p) && k !in KeysOf(init) ==> FirstWithKey(init + [p], k) == p
  {
    var prefs := init + [p];
    var n := |init|;
    assert KeysOf(prefs) == KeysOf(init) + [Key(p)];
    assert KeysOf(init) == KeysOf(prefs)[..n];
    if k in KeysOf(init) {
      IndexOfPrefix(KeysOf(prefs), n, k);
    } else if k == Key(p) {
      assert IndexOf(KeysOf(prefs), k) == n;
    }
  }

  lemma TallyStepEntries(init: seq<Preference>, m0: seq<Entry<Tally>>, p: Preference, prefs: seq<Preference>)
    requires prefs == init + [p]
    requires Keys(m0) == Distinct(KeysOf(init))
    requires TallyEntriesOk(init, m0)
    ensures TallyEntriesOk(prefs, TallyStep(m0, p))
  {
    var k := Key(p);
    assert KeysOf(prefs) == KeysOf(init) + [k];
    forall e | e in TallyStep(m0, p)
      ensures e.key in KeysOf(prefs)
      ensures e.value.first == FirstWithKey(prefs, e.key)
      ensures e.value.count == Occurrences(prefs, e.key)
    {
      Snoc(init, p, e.key);
      if e.key == k && k in Keys(m0) {
        assert Entry(k, Get(m0, k)) in m0;
      } else if e.key == k {
        assert Occurrences(init, k) == 0;
      }
    }
  }

  lemma {:induction false} TallyTableEntries(prefs: seq<Preference>)
    ensures TallyEntriesOk(prefs, TallyTable(prefs))
  {
    if |prefs| > 0 {
      var n := |prefs| - 1;
      var init, p := prefs[..n], prefs[n];
      assert init + [p] == prefs;
      TallyTableEntries(init);
      TallyTableKeys(init);
      TallyStepEntries(init, TallyTable(init), p, prefs);
    }
  }

  lemma TallyTableCorrect(prefs: seq<Preference>)
    ensures TallyTableInv(prefs, TallyTable(prefs))
  {
    TallyTableKeys(prefs);
    TallyTableEntries(prefs);
  }

  lemma {:induction false} RepeatedMatchesReference(prefs: seq<Preference>, m: seq<Entry<Tally>>)
    requires TallyEntriesOk(prefs, m)
    ensures forall k :: k in Keys(m) ==> k in KeysOf(prefs)
    ensures Repeated(m) == FirstOfRepeatedKeys(Keys(m), prefs)
  {
    assert forall k :: k in Keys(m) ==> exists i :: 0 <= i < |m| && m[i].key == k;
    if |m| > 0 {
      assert m[0] in m;
      assert Keys(m[1..]) == Keys(m)[1..];
      RepeatedMatchesReference(prefs, m[1..]);
    }
  }

  lemma {:induction false} ReferenceMembers(ks: seq<string>, prefs: seq<Preference>)
    requires forall k :: k in ks ==> k in KeysOf(prefs)
    ensures forall x :: x in FirstOfRepeatedKeys(ks, prefs) ==>
      Key(x) in ks && Occurrences(prefs, Key(x)) >= 2 && x == FirstWithKey(prefs, Key(x))
    ensures forall k :: k in ks && Occurrences(prefs, k) >= 2 ==>
      FirstWithKey(prefs, k) in FirstOfRepeatedKeys(ks, prefs)
  {
    if |ks| > 0 {
      ReferenceMembers(ks[1..], prefs);
      assert forall k :: k in ks ==> k == ks[0] || k in ks[1..];
    }
  }

  /** What the intersection holds: exactly the keys occurring at least
      twice, each represented by its first occurrence. */
  lemma IntersectionMembers(prefs: seq<Preference>)
    ensures forall x :: x in MergeIntersection(prefs) ==>
      Occurrences(prefs, Key(x)) >= 2 && x == FirstWithKey(prefs, Key(x))
    ensures forall i :: 0 <= i < |prefs| && Occurrences(prefs, Key(prefs[i])) >= 2 ==>
      FirstWithKey(prefs, Key(prefs[i])) in MergeIntersection(prefs)
  {
    var ks := Distinct(KeysOf(prefs));
    ReferenceMembers(ks, prefs);
    forall i | 0 <= i < |prefs|
      ensures Key(prefs[i]) in ks
    {
      assert KeysOf(prefs)[i] == Key(prefs[i]);
    }
  }

  lemma {:induction false} NoDupOccursOnce(ks: seq<string>, k: string)
    requires NoDup(ks)
    ensures multiset(ks)[k] <= 1
  {
    if |ks| > 0 {
      var n := |ks| - 1;
      assert ks == ks[..n] + [ks[n]];
      assert NoDup(ks[..n]);
      NoDupOccursOnce(ks[..n], k);
      if k == ks[n] {
        assert k !in ks[..n];
      }
    }
  }

  /** With all keys distinct the intersection is empty. */
  lemma IntersectionOfDistinctKeysIsEmpty(prefs: seq<Preference>)
    requires NoDup(KeysOf(prefs))
    ensures MergeIntersection(prefs) == []
  {
    IntersectionMembers(prefs);
    if |MergeIntersection(prefs)| > 0 {
      var x := MergeIntersection(prefs)[0];
      NoDupOccursOnce(KeysOf(prefs), Key(x));
    }
  }

  // ------------------------------------------------------------- dispatch

  /** Two entries under one key: the more confident one is kept, alone. */
  lemma UnionKeepsMoreConfident(p: Preference, q: Preference)
    requires Key(p) == Key(q) && Confidence(p) < Confidence(q)
    ensures MergeUnion([p, q]) == [q]
  {
    var prefs := [p, q];
    var r := MergeUnion(prefs);
    assert KeysOf(prefs) == [Key(p), Key(p)];
    assert Distinct([Key(p), Key(p)]) == [Key(p)];
    assert |r| == 1;
    var j :| KeptByUnion(prefs, j) && prefs[j] == r[0];
  }

  lemma DistinctOfRepeat(x: string, y: string)
    requires x != y
    ensures Distinct([x, y, x]) == [x, y]
  {
    var ks := [x, y, x];
    assert ks[..2] == [x, y] && [x, y][..1] == [x] && [x][..0] == [];
  }

  lemma ReferenceOfRepeat(a: Preference, b: Preference, c: Preference)
    requires Key(a) == Key(c) && Key(b) != Key(a)
    ensures KeysOf([a, b, c]) == [Key(a), Key(b), Key(a)]
    ensures FirstOfRepeatedKeys([Key(a), Key(b)], [a, b, c]) == [a]
  {
    var prefs := [a, b, c];
    var ka, kb := Key(a), Key(b);
    assert KeysOf(prefs) == [ka, kb, ka];
    assert ka in KeysOf(prefs) && kb in KeysOf(prefs);
    assert Occurrences(prefs, ka) == 2 && Occurrences(prefs, kb) == 1;
    assert FirstWithKey(prefs, ka) == a;
    assert [kb][1..] == [];
    assert FirstOfRepeatedKeys([kb], prefs) == [] + FirstOfRepeatedKeys([], prefs);
    assert [ka, kb][1..] == [kb];
    assert FirstOfRepeatedKeys([ka, kb], prefs) == [a] + FirstOfRepeatedKeys([kb], prefs);
  }

  /** Three entries of which exactly two share a key: only the first of
      that pair survives. */
  lemma IntersectionKeepsTheRepeat(a: Preference, b: Preference, c: Preference)
    requires Key(a) == Key(c) && Key(b) != Key(a)
    ensures MergeIntersection([a, b, c]) == [a]
  {
    ReferenceOfRepeat(a, b, c);
    DistinctOfRepeat(Key(a), Key(b));
  }

  /** Putting a preference with a new key in front keeps the keys
      distinct. */
  lemma ConsKeysDistinct(x: Preference, rest: seq<Preference>)
    requires NoDup(KeysOf(rest))
    requires forall y | y in rest :: Key(y) != Key(x)
    ensures NoDup(KeysOf([x] + rest))
  {
    var all := [x] + rest;
    forall i, j | 0 <= i < j < |all|
      ensures KeysOf(all)[i] != KeysOf(all)[j]
    {
      assert all[j] == rest[j - 1];
      if i == 0 {
        assert rest[j - 1] in rest;
      } else {
        assert all[i] == rest[i - 1];
        assert KeysOf(rest)[i - 1] != KeysOf(rest)[j - 1];
      }
    }
  }

  /** The reference intersection keeps at most one element per key. */
  lemma {:induction false} ReferenceKeysDistinct(ks: seq<string>, prefs: seq<Preference>)
    requires forall k :: k in ks ==> k in KeysOf(prefs)
    requires NoDup(ks)
    ensures NoDup(KeysOf(FirstOfRepeatedKeys(ks, prefs)))
  {
    if |ks| > 0 {
      var rest := FirstOfRepeatedKeys(ks[1..], prefs);
      assert NoDup(ks[1..]);
      ReferenceKeysDistinct(ks[1..], prefs);
      if Occurrences(prefs, ks[0]) >= 2 {
        var x := FirstWithKey(prefs, ks[0]);
        ReferenceMembers(ks[1..], prefs);
        assert ks[0] !in ks[1..];
        assert FirstOfRepeatedKeys(ks, prefs) == [x] + rest;
        ConsKeysDistinct(x, rest);
      } else {
        assert FirstOfRepeatedKeys(ks, prefs) == [] + rest;
      }
    }
  }

  /** `mergeGroupPreferences(preferences, strategy)`: at most one
      preference per key, each an input element; union keeps every key,
      intersection only the keys that occur at least twice. */
  function Merge(prefs: seq<Preference>, strategy: Strategy): (r: seq<Preference>)
    ensures NoDup(KeysOf(r))
    ensures forall x | x in r :: x in prefs
    ensures strategy.Union? ==> KeysOf(r) == Distinct(KeysOf(prefs))
    ensures strategy.Intersection? ==> forall x | x in r :: Occurrences(prefs, Key(x)) >= 2
  {
    match strategy
    case Union =>
      var r := MergeUnion(prefs);
      forall x | x in r
        ensures x in prefs
      {
        var i :| 0 <= i < |r| && r[i] == x;
        var j :| KeptByUnion(prefs, j) && prefs[j] == r[i];
      }
      r
    case Intersection =>
      var r := MergeIntersection(prefs);
      IntersectionMembers(prefs);
      ReferenceKeysDistinct(Distinct(KeysOf(prefs)), prefs);
      forall x | x in r
        ensures x in prefs
      {
        assert Key(x) in multiset(KeysOf(prefs));
      }
      r
  }
}
