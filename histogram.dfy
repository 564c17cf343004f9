/** The frequency count behind the customize page's bar chart: a `reduce`
    over the rows that bumps `acc[key]` once per row, followed by
    `Object.entries`. */
module Histogram {
  import opened Seqs
  import opened Js

  /** One step of the reduction, `acc[key] = acc[key] ? acc[key] + 1 : 1`,
      on a dictionary that has no inherited keys. Counts are never 0, so the
      test `acc[key]` is "the key is present". */
  function Bump(acc: map<string, nat>, key: string): map<string, nat> {
    acc[key := if key in acc then acc[key] + 1 else 1]
  }

  /** The accumulator after reducing over `keys`, from the left. */
  function Tally(keys: seq<string>): map<string, nat> {
    if keys == [] then map[] else Bump(Tally(keys[..|keys| - 1]), keys[|keys| - 1])
  }

  /** The tally holds exactly the keys that occur, each with the number of
      times it occurs. */
  lemma {:induction false} TallyCounts(keys: seq<string>)
    ensures forall k :: k in Tally(keys) <==> k in multiset(keys)
    ensures forall k :: k in Tally(keys) ==> Tally(keys)[k] == multiset(keys)[k]
  {
    if keys != [] {
      var n := |keys|;
      assert keys == keys[..n - 1] + [keys[n - 1]];
      TallyCounts(keys[..n - 1]);
    }
  }

  /** A key has been counted exactly when it has been created. */
  lemma TallyDomain(keys: seq<string>)
    ensures forall k :: k in Tally(keys) <==> k in Dedup(keys)
  {
    TallyCounts(keys);
    DedupSpec(keys);
    forall k ensures k in Tally(keys) <==> k in Dedup(keys) {
      assert k in keys <==> k in multiset(keys);
    }
  }

  /** The bars: `Object.entries(acc)` as (key, count) pairs. The object
      received its keys in first-occurrence order. */
  function Bars(keys: seq<string>): seq<(string, nat)> {
    var t := Tally(keys);
    var order := OwnKeys(Dedup(keys));
    seq(|order|, i requires 0 <= i < |order| => (order[i], if order[i] in t then t[order[i]] else 0))
  }

  function BarKeys(bars: seq<(string, nat)>): seq<string> {
    seq(|bars|, i requires 0 <= i < |bars| => bars[i].0)
  }

  /** The sum of the counts. */
  function Total(bars: seq<(string, nat)>): nat {
    if bars == [] then 0 else bars[0].1 + Total(bars[1..])
  }

  /** The sum, over the names `d`, of their multiplicities in `m`. */
  function Occurrences(d: seq<string>, m: multiset<string>): nat {
    if d == [] then 0 else m[d[0]] + Occurrences(d[1..], m)
  }

  lemma {:induction false} OccurrencesEmpty(d: seq<string>)
    ensures Occurrences(d, multiset{}) == 0
  {
    if d != [] {
      OccurrencesEmpty(d[1..]);
    }
  }

  /** Adding one element to the multiset adds one to the sum over a
      duplicate-free `d` if and only if `d` names it. */
  lemma {:induction false} OccurrencesAdd(d: seq<string>, m: multiset<string>, x: string)
    requires Distinct(d)
    ensures Occurrences(d, m + multiset{x}) == Occurrences(d, m) + (if x in d then 1 else 0)
  {
    if d != [] {
      assert Distinct(d[1..]) by {
        forall i, j | 0 <= i < j < |d[1..]| ensures d[1..][i] != d[1..][j] {
          assert d[1..][i] == d[i + 1] && d[1..][j] == d[j + 1];
        }
      }
      OccurrencesAdd(d[1..], m, x);
      assert d == [d[0]] + d[1..];
      if x == d[0] {
        assert x !in d[1..] by {
          forall k | 0 <= k < |d[1..]| ensures d[1..][k] != x {
            assert d[1..][k] == d[k + 1];
          }
        }
      }
    }
  }

  /** Summing the multiplicities of `keys` over any duplicate-free list that
      names every key gives the number of keys. */
  lemma {:induction false} OccurrencesCover(d: seq<string>, keys: seq<string>)
    requires Distinct(d)
    requires forall k :: k in keys ==> k in d
    ensures Occurrences(d, multiset(keys)) == |keys|
  {
    if keys == [] {
      OccurrencesEmpty(d);
    } else {
      var n := |keys|;
      var init := keys[..n - 1];
      assert keys == init + [keys[n - 1]];
      assert forall k :: k in init ==> k in keys;
      OccurrencesCover(d, init);
      OccurrencesAdd(d, multiset(init), keys[n - 1]);
    }
  }

  lemma {:induction false} TotalIsOccurrences(bars: seq<(string, nat)>, m: multiset<string>)
    requires forall i :: 0 <= i < |bars| ==> bars[i].1 == m[bars[i].0]
    ensures Total(bars) == Occurrences(BarKeys(bars), m)
  {
    if bars != [] {
      TotalIsOccurrences(bars[1..], m);
      assert BarKeys(bars)[1..] == BarKeys(bars[1..]);
    }
  }

  /** There is one bar per distinct key, each key once, in `Object.entries`
      order. */
  lemma BarsKeys(keys: seq<string>)
    ensures BarKeys(Bars(keys)) == OwnKeys(Dedup(keys))
    ensures Distinct(BarKeys(Bars(keys)))
    ensures forall k :: k in BarKeys(Bars(keys)) <==> k in keys
  {
    DedupSpec(keys);
    OwnKeysSpec(Dedup(keys));
    forall k ensures k in OwnKeys(Dedup(keys)) <==> k in keys {
      assert k in Dedup(keys) <==> k in keys;
    }
  }

  /** Each bar's count is the number of rows with that key, at least 1. */
  lemma BarsCounts(keys: seq<string>)
    ensures forall i :: 0 <= i < |Bars(keys)| ==>
              1 <= Bars(keys)[i].1 == multiset(keys)[Bars(keys)[i].0]
  {
    var bars := Bars(keys);
    var order := OwnKeys(Dedup(keys));
    BarsKeys(keys);
    TallyCounts(keys);
    forall i | 0 <= i < |bars| ensures 1 <= bars[i].1 == multiset(keys)[bars[i].0] {
      assert bars[i].0 == order[i] && order[i] in order;
      assert order[i] in multiset(keys);
    }
  }

  /** The counts add up to the number of rows. */
  lemma BarsTotal(keys: seq<string>)
    ensures Total(Bars(keys)) == |keys|
  {
    BarsKeys(keys);
    BarsCounts(keys);
    TotalIsOccurrences(Bars(keys), multiset(keys));
    OccurrencesCover(OwnKeys(Dedup(keys)), keys);
  }

  // ---------------------------------------------------------------------
  // The accumulator as written: a plain `{}` inherits Object.prototype.

  /** What the `{}` accumulator holds under a key: a count, or a string
      (the source text of an inherited method with "1" appended). */
  datatype Slot = Count(n: nat) | Text

  /** The methods every plain object inherits from Object.prototype; reading
      `acc[key]` for one of them gives a function, which is truthy. */
  const InheritedMethods: set<string> :=
    {"constructor", "hasOwnProperty", "isPrototypeOf", "propertyIsEnumerable",
     "toLocaleString", "toString", "valueOf",
     "__defineGetter__", "__defineSetter__", "__lookupGetter__", "__lookupSetter__"}

  /** One step of the reduction on `{}`. For "__proto__" the read yields
      Object.prototype and the write of the string `Object.prototype + 1` is
      ignored by the accessor, so the row leaves no trace. For an inherited
      method the function is concatenated with 1; for an own text slot the
      string grows by "1". */
  function BumpAsWritten(acc: map<string, Slot>, key: string): map<string, Slot> {
    if key == "__proto__" then acc
    else if key in acc then acc[key := if acc[key].Count? then Count(acc[key].n + 1) else Text]
    else if key in InheritedMethods then acc[key := Text]
    else acc[key := Count(1)]
  }

  function TallyAsWritten(keys: seq<string>): map<string, Slot> {
    if keys == [] then map[]
    else BumpAsWritten(TallyAsWritten(keys[..|keys| - 1]), keys[|keys| - 1])
  }

  predicate Ordinary(k: string) {
    k != "__proto__" && k !in InheritedMethods
  }

  /** For keys that no plain object inherits, the accumulator as written
      computes the intended tally. */
  lemma {:induction false} TallyAsWrittenAgrees(keys: seq<string>)
    requires forall i :: 0 <= i < |keys| ==> Ordinary(keys[i])
    ensures TallyAsWritten(keys).Keys == Tally(keys).Keys
    ensures forall k :: k in Tally(keys) ==> TallyAsWritten(keys)[k] == Count(Tally(keys)[k])
  {
    if keys != [] {
      var n := |keys|;
      TallyAsWrittenAgrees(keys[..n - 1]);
    }
  }

  /** The order in which the accumulator as written creates its own keys:
      first occurrences, except that "__proto__" never becomes one. */
  function CreatedAsWritten(keys: seq<string>): seq<string> {
    if keys == [] then []
    else
      var init := CreatedAsWritten(keys[..|keys| - 1]);
      var k := keys[|keys| - 1];
      if k == "__proto__" || k in init then init else init + [k]
  }

  /** `Object.entries(acc)` on the accumulator as written. */
  function BarsAsWritten(keys: seq<string>): seq<(string, Slot)> {
    var t := TallyAsWritten(keys);
    var order := OwnKeys(CreatedAsWritten(keys));
    seq(|order|, i requires 0 <= i < |order| => (order[i], if order[i] in t then t[order[i]] else Count(0)))
  }

  /** Without "__proto__", the accumulator as written creates its keys in
      first-occurrence order. */
  lemma {:induction false} CreatedAsWrittenIsDedup(keys: seq<string>)
    requires forall i :: 0 <= i < |keys| ==> keys[i] != "__proto__"
    ensures CreatedAsWritten(keys) == Dedup(keys)
  {
    if keys != [] {
      CreatedAsWrittenIsDedup(keys[..|keys| - 1]);
    }
  }

  /** For keys that no plain object inherits, the bars as written are the
      intended bars, entry by entry. */
  lemma BarsAsWrittenAgrees(keys: seq<string>)
    requires forall i :: 0 <= i < |keys| ==> Ordinary(keys[i])
    ensures |BarsAsWritten(keys)| == |Bars(keys)|
    ensures forall i :: 0 <= i < |Bars(keys)| ==>
              BarsAsWritten(keys)[i] == (Bars(keys)[i].0, Count(Bars(keys)[i].1))
  {
    CreatedAsWrittenIsDedup(keys);
    TallyAsWrittenAgrees(keys);
  }

  /** A row whose key is "toString" yields a bar whose height is text, and
      a row whose key is "__proto__" is not counted at all, so the counts
      no longer add up to the number of rows. */
  lemma PrototypeKeysBreakCounts()
    ensures TallyAsWritten(["toString"]) == map["toString" := Text]
    ensures TallyAsWritten(["__proto__"]) == map[]
    ensures Tally(["toString"]) == map["toString" := 1]
    ensures Tally(["__proto__"]) == map["__proto__" := 1]
    ensures BarsAsWritten(["toString"]) == [("toString", Text)]
    ensures BarsAsWritten(["__proto__"]) == []
  {
    assert !IsArrayIndex("toString") by { assert DigitRun("toString") == 0; }
    assert CreatedAsWritten(["toString"]) == ["toString"];
    assert OwnKeys(["toString"]) == ["toString"];
    assert CreatedAsWritten(["__proto__"]) == [];
  }
}
