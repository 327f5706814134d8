/**
 * The history view's editing buffers. Every saved day gets its own key: the
 * first record of a date is keyed by the date, the n-th (n >= 2) by
 * `date#n`. Keys are listed for display newest date first, and the
 * duplicates of one date by their suffix, a bare date counting as 1.
 */
module Reconcile {
  import opened Wrappers
  import opened Text
  import opened Seqs
  import opened Sorting
  import opened Ledger

  /** How many records of `days` carry `date`. */
  function CountDate(days: seq<DayRecord>, date: string): nat
  {
    if days == [] then 0
    else CountDate(days[..|days| - 1], date) + (if days[|days| - 1].date == date then 1 else 0)
  }

  /** `seen[base]` after the loop has reached record `i`: its rank among the records of its date. */
  function Occurrence(days: seq<DayRecord>, i: nat): nat
    requires i < |days|
  {
    CountDate(days[..i + 1], days[i].date)
  }

  /** `n === 1 ? base : `${base}#${n}``. */
  function KeyFor(date: string, n: nat): (r: string)
    ensures date <= r
    ensures r == date <==> n == 1
  {
    if n == 1 then date else date + "#" + NatToString(n)
  }

  /** The editing key of record `i`. */
  function KeyAt(days: seq<DayRecord>, i: nat): (r: string)
    requires i < |days|
    ensures r == days[i].date <==> Occurrence(days, i) == 1
  {
    KeyFor(days[i].date, Occurrence(days, i))
  }

  /** The map the loop builds: each record stored under its key, later writes winning. */
  function EditableMap(days: seq<DayRecord>): (r: map<string, DayRecord>)
    ensures |r| <= |days|
  {
    if days == [] then map[]
    else EditableMap(days[..|days| - 1])[KeyAt(days, |days| - 1) := days[|days| - 1]]
  }

  /** `Object.keys` of that map: keys in order of first insertion. */
  function KeyOrder(days: seq<DayRecord>): (r: seq<string>)
    ensures |r| <= |days|
    ensures Distinct(r)
  {
    if days == [] then []
    else
      var before, key := KeyOrder(days[..|days| - 1]), KeyAt(days, |days| - 1);
      if key in before then before else before + [key]
  }

  /**
   * The effect that rebuilds the editing buffers whenever the saved days
   * change: one pass over the days with a per-date counter.
   */
  method BuildEditable(days: seq<DayRecord>) returns (m: map<string, DayRecord>, order: seq<string>)
    ensures m == EditableMap(days)
    ensures order == KeyOrder(days)
  {
    m, order := map[], [];
    var seen: map<string, nat> := map[];
    for i := 0 to |days|
      invariant m == EditableMap(days[..i])
      invariant order == KeyOrder(days[..i])
      invariant forall k :: k in m <==> k in order
      invariant forall d :: (if d in seen then seen[d] else 0) == CountDate(days[..i], d)
    {
      var base := days[i].date;
      var n := (if base in seen then seen[base] else 0) + 1;
      BuildStep(days, i, n);
      seen := seen[base := n];
      forall d ensures (if d in seen then seen[d] else 0) == CountDate(days[..i + 1], d) {
        CountStep(days, i, d);
        if d != base {
          assert (if d in seen then seen[d] else 0) == CountDate(days[..i], d);
        }
      }
      var key := KeyFor(base, n);
      if key !in m {
        order := order + [key];
      }
      m := m[key := days[i]];
    }
    assert days[..|days|] == days;
  }

  /** One more record adds one to the count of its own date only. */
  lemma CountStep(days: seq<DayRecord>, i: nat, d: string)
    requires i < |days|
    ensures CountDate(days[..i + 1], d) == CountDate(days[..i], d) + (if days[i].date == d then 1 else 0)
  {
    assert days[..i + 1][..i] == days[..i];
  }

  /** What one more record, the `n`-th of its date, adds to the map and the key order. */
  lemma BuildStep(days: seq<DayRecord>, i: nat, n: nat)
    requires i < |days| && n == CountDate(days[..i], days[i].date) + 1
    ensures var key := KeyFor(days[i].date, n);
      && EditableMap(days[..i + 1]) == EditableMap(days[..i])[key := days[i]]
      && KeyOrder(days[..i + 1]) == if key in KeyOrder(days[..i]) then KeyOrder(days[..i]) else KeyOrder(days[..i]) + [key]
  {
    var p := days[..i + 1];
    assert p[..i] == days[..i] && p[i] == days[i] && p[..i + 1] == p;
    CountStep(days, i, days[i].date);
    assert KeyAt(p, i) == KeyFor(days[i].date, n);
  }

  /** No key is listed twice. */
  predicate Distinct(keys: seq<string>)
  {
    forall i, j :: 0 <= i < j < |keys| ==> keys[i] != keys[j]
  }

  /** A distinct list naming exactly the keys of a map is as long as the map. */
  lemma {:induction false} DistinctKeysCount<V>(keys: seq<string>, m: map<string, V>)
    requires Distinct(keys) && forall k :: k in m <==> k in keys
    ensures |keys| == |m|
  {
    if keys == [] {
      assert m.Keys == {};
    } else {
      var last := keys[|keys| - 1];
      var rest := keys[..|keys| - 1];
      assert Distinct(rest);
      assert last !in rest;
      DistinctKeysCount(rest, m - {last});
      assert |m - {last}| == |m| - 1;
    }
  }

  /** The display list of a map's distinct key list shows every key once. */
  lemma DatesListEachKey<V>(keys: seq<string>, m: map<string, V>)
    ensures Distinct(keys) && (forall k :: k in m <==> k in keys) ==>
      |Dates(keys)| == |m| && forall k :: k in m <==> k in Dates(keys)
  {
    if Distinct(keys) && (forall k :: k in m <==> k in keys) {
      var r := Dates(keys);
      forall k ensures k in r <==> k in keys {
        assert k in multiset(r) <==> k in multiset(keys);
      }
      DistinctKeysCount(keys, m);
    }
  }

  /** No date contains the separator `#` (true of `YYYY-MM-DD` dates). */
  predicate NoHash(days: seq<DayRecord>)
  {
    forall i :: 0 <= i < |days| ==> '#' !in days[i].date
  }

  lemma {:induction false} CountDateConcat(a: seq<DayRecord>, b: seq<DayRecord>, date: string)
    ensures CountDate(a + b, date) == CountDate(a, date) + CountDate(b, date)
  {
    if b == [] {
      assert a + b == a;
    } else {
      assert (a + b)[..|a + b| - 1] == a + b[..|b| - 1];
      CountDateConcat(a, b[..|b| - 1], date);
    }
  }

  /** A date is counted zero times exactly when no record carries it. */
  lemma {:induction false} CountDateZero(days: seq<DayRecord>, date: string)
    ensures CountDate(days, date) == 0 <==> forall j :: 0 <= j < |days| ==> days[j].date != date
  {
    if days != [] {
      CountDateZero(days[..|days| - 1], date);
    }
  }

  /** The first record of a date has rank 1, and only the first. */
  lemma FirstOccurrence(days: seq<DayRecord>, i: nat)
    requires i < |days|
    ensures Occurrence(days, i) >= 1
    ensures Occurrence(days, i) == 1 <==> forall j :: 0 <= j < i ==> days[j].date != days[i].date
  {
    assert days[..i + 1][..i] == days[..i];
    CountDateZero(days[..i], days[i].date);
  }

  /** A later record of the same date has a strictly higher rank. */
  lemma OccurrenceIncreases(days: seq<DayRecord>, i: nat, j: nat)
    requires i < j < |days| && days[i].date == days[j].date
    ensures Occurrence(days, i) < Occurrence(days, j)
  {
    var d := days[i].date;
    assert days[..j + 1] == days[..i + 1] + days[i + 1..j + 1];
    CountDateConcat(days[..i + 1], days[i + 1..j + 1], d);
    var tail := days[i + 1..j + 1];
    assert tail[|tail| - 1] == days[j];
    CountDateZero(tail, d);
  }

  /** The key before the first `#`: `key.split('#')[0]`. */
  function Base(key: string): (r: string)
    ensures r <= key && '#' !in r
    ensures '#' !in key ==> r == key
  {
    if '#' in key then key[..FirstIndex(key, '#')] else key
  }

  function FirstIndex(s: string, c: char): (k: nat)
    requires c in s
    ensures k < |s| && s[k] == c && c !in s[..k]
  {
    if s[0] == c then 0 else assert c in s[1..]; 1 + FirstIndex(s[1..], c)
  }

  /** `key.split('#')[1]`: the text between the first `#` and the next one, if any. */
  function Suffix(key: string): (r: Option<string>)
    ensures r.Some? <==> '#' in key
    ensures r.Some? ==> '#' !in r.value && Base(key) + "#" + r.value <= key
  {
    if '#' !in key then None
    else
      var rest := key[FirstIndex(key, '#') + 1..];
      Some(if '#' in rest then rest[..FirstIndex(rest, '#')] else rest)
  }

  /** `Number(key.split('#')[1] || 1)`: a bare key ranks 1. */
  function Rank(key: string): (r: real)
    ensures r >= 0.0
    ensures '#' !in key ==> r == 1.0
  {
    match Suffix(key)
    case None => 1.0
    case Some(t) =>
      if t == "" then 1.0
      else match ParseNumber(t)
        case Some(v) => v
        case None => 0.0
  }

  /**
   * `compare(a, b) <= 0` for the display comparator: dates descending, and
   * for equal dates suffixes ascending.
   */
  predicate KeyLe(a: string, b: string)
    ensures Base(a) != Base(b) ==> (KeyLe(a, b) <==> !LexLess(Base(a), Base(b)))
  {
    if Base(a) != Base(b) then
      LexLessConnected(Base(a), Base(b));
      LexLessAsymmetric(Base(a), Base(b));
      LexLess(Base(b), Base(a))
    else Rank(a) <= Rank(b)
  }

  lemma KeyLeTotalPreorder()
    ensures TotalPreorder(KeyLe)
  {
    forall a, b ensures KeyLe(a, b) || KeyLe(b, a) {
      if Base(a) != Base(b) {
        LexLessConnected(Base(a), Base(b));
      }
    }
    forall a, b, c | KeyLe(a, b) && KeyLe(b, c) ensures KeyLe(a, c) {
      var x, y, z := Base(a), Base(b), Base(c);
      if x != y && y != z {
        LexLessTransitive(z, y, x);
        if x == z {
          LexLessIrreflexive(x);
        }
      }
    }
  }

  /** The display list: `Object.keys(editable).sort(compare)`. */
  function Dates(order: seq<string>): (r: seq<string>)
    ensures multiset(r) == multiset(order)
    ensures SortedBy(r, KeyLe)
  {
    KeyLeTotalPreorder();
    SortBySorted(order, KeyLe);
    SortBy(order, KeyLe)
  }

  lemma ParseNumberOfNat(n: nat)
    ensures ParseNumber(NatToString(n)) == Some(n as real)
  {
    NatToStringRoundTrip(n);
  }

  /** Splitting a key at `#` gives back its record's date and rank. */
  lemma KeyAtParts(days: seq<DayRecord>, i: nat)
    requires i < |days| && NoHash(days)
    ensures Base(KeyAt(days, i)) == days[i].date
    ensures Rank(KeyAt(days, i)) == Occurrence(days, i) as real
  {
    var d, n := days[i].date, Occurrence(days, i);
    FirstOccurrence(days, i);
    if n != 1 {
      var k := d + "#" + NatToString(n);
      var text := NatToString(n);
      assert k[|d|] == '#';
      var h := FirstIndex(k, '#');
      assert k[..|d|] == d;
      assert h == |d|;
      assert k[..h] == d;
      assert k[h + 1..] == text;
      assert '#' !in text by {
        forall j | 0 <= j < |text| ensures text[j] != '#' {
          assert IsDigit(text[j]);
        }
      }
      ParseNumberOfNat(n);
    }
  }

  /** Distinct records get distinct keys, so no editing buffer is shared. */
  lemma KeysDistinct(days: seq<DayRecord>, i: nat, j: nat)
    requires i < |days| && j < |days| && i != j && NoHash(days)
    ensures KeyAt(days, i) != KeyAt(days, j)
  {
    KeyAtParts(days, i);
    KeyAtParts(days, j);
    if days[i].date == days[j].date {
      if i < j {
        OccurrenceIncreases(days, i, j);
      } else {
        OccurrenceIncreases(days, j, i);
      }
    }
  }

  /** Keys depend only on the records up to their own. */
  lemma KeyAtPrefix(days: seq<DayRecord>, m: nat, i: nat)
    requires i < m <= |days|
    ensures KeyAt(days[..m], i) == KeyAt(days, i)
  {
    assert days[..m][..i + 1] == days[..i + 1];
  }

  /** The map's keys are the keys listed by `KeyOrder`, whatever the dates. */
  lemma {:induction false} EditableMapKeys(days: seq<DayRecord>)
    ensures forall k :: k in EditableMap(days) <==> k in KeyOrder(days)
  {
    if days != [] {
      EditableMapKeys(days[..|days| - 1]);
    }
  }

  /** The last record's key is new: no earlier record has it, and earlier keys are unchanged by it. */
  lemma LastKeyFresh(days: seq<DayRecord>)
    requires |days| > 0 && NoHash(days)
    ensures var n := |days| - 1;
      forall i :: 0 <= i < n ==> KeyAt(days[..n], i) == KeyAt(days, i) && KeyAt(days, i) != KeyAt(days, n)
  {
    var n := |days| - 1;
    forall i | 0 <= i < n ensures KeyAt(days[..n], i) == KeyAt(days, i) && KeyAt(days, i) != KeyAt(days, n) {
      KeyAtPrefix(days, n, i);
      KeysDistinct(days, i, n);
    }
  }

  /** With no `#` in any date, the key order lists every record's key, in the records' order. */
  lemma {:induction false} KeyOrderOfRecords(days: seq<DayRecord>)
    requires NoHash(days)
    ensures |KeyOrder(days)| == |days|
    ensures forall i :: 0 <= i < |days| ==> KeyOrder(days)[i] == KeyAt(days, i)
  {
    if days != [] {
      var n := |days| - 1;
      assert NoHash(days[..n]);
      KeyOrderOfRecords(days[..n]);
      var before, key := KeyOrder(days[..n]), KeyAt(days, n);
      assert key !in before by {
        LastKeyFresh(days);
        assert forall i :: 0 <= i < |before| ==> before[i] != key;
      }
      assert KeyOrder(days) == before + [key];
      forall i | 0 <= i < |days| ensures KeyOrder(days)[i] == KeyAt(days, i) {
        if i < n {
          KeyAtPrefix(days, n, i);
        }
      }
    }
  }

  /** With no `#` in any date, every record sits in the map under its own key. */
  lemma {:induction false} EditableMapLookup(days: seq<DayRecord>)
    requires NoHash(days)
    ensures forall i :: 0 <= i < |days| ==> KeyAt(days, i) in EditableMap(days) && EditableMap(days)[KeyAt(days, i)] == days[i]
  {
    if days != [] {
      var n := |days| - 1;
      assert NoHash(days[..n]);
      EditableMapLookup(days[..n]);
      LastKeyFresh(days);
    }
  }

  /** Without the no-`#` assumption keys can collide: a date "a#2" is overwritten by the second "a". */
  lemma HashInDateLosesRecord(r0: DayRecord, r1: DayRecord, r2: DayRecord)
    requires r0.date == "a#2" && r1.date == "a" && r2.date == "a" && r0 != r2
    ensures KeyAt([r0, r1, r2], 0) == KeyAt([r0, r1, r2], 2)
    ensures |KeyOrder([r0, r1, r2])| == 2
    ensures r0 !in EditableMap([r0, r1, r2]).Values
  {
    var days := [r0, r1, r2];
    assert days[..1] == [r0] && days[..2] == [r0, r1] && days[..3] == days;
    assert [r0, r1][..1] == [r0] && [r0][..0] == [];
    assert "a#2" != "a" by { assert |"a#2"| == 3; }
    assert CountDate([r0], "a#2") == 1 && CountDate([r0], "a") == 0;
    assert Occurrence(days, 0) == 1;
    assert CountDate([r0, r1], "a") == 1;
    assert Occurrence(days, 1) == 1;
    assert CountDate(days, "a") == 2;
    assert NatToString(2) == "2";
    assert KeyAt(days, 2) == "a#2";
    assert KeyAt(days, 1) == "a";
    assert KeyAt(days[..2], 1) == "a" by { KeyAtPrefix(days, 2, 1); }
    assert KeyAt(days[..1], 0) == "a#2" by { KeyAtPrefix(days, 1, 0); }
    assert EditableMap(days[..1]) == map["a#2" := r0];
    assert EditableMap(days[..2]) == map["a#2" := r0, "a" := r1];
    assert EditableMap(days) == map["a#2" := r2, "a" := r1];
    assert KeyOrder(days[..1]) == ["a#2"];
  }

  /** Which of two records' keys must be shown first. */
  lemma KeyStrictlyBefore(days: seq<DayRecord>, i: nat, j: nat)
    requires NoHash(days) && i < |days| && j < |days|
    requires LexLess(days[j].date, days[i].date) || (days[i].date == days[j].date && i < j)
    ensures !KeyLe(KeyAt(days, j), KeyAt(days, i))
  {
    KeyAtParts(days, i);
    KeyAtParts(days, j);
    if days[i].date == days[j].date {
      LexLessIrreflexive(days[i].date);
      OccurrenceIncreases(days, i, j);
    } else if LexLess(days[i].date, days[j].date) {
      LexLessTransitive(days[i].date, days[j].date, days[i].date);
      LexLessIrreflexive(days[i].date);
    }
  }

  /**
   * The display order: newest date first and, within a date, records in the
   * order the store returned them.
   */
  lemma DisplayOrder(days: seq<DayRecord>, i: nat, j: nat, p: nat, q: nat)
    requires NoHash(days) && i < |days| && j < |days|
    requires var shown := Dates(KeyOrder(days));
      p < |shown| && q < |shown| && shown[p] == KeyAt(days, i) && shown[q] == KeyAt(days, j)
    ensures LexLess(days[j].date, days[i].date) ==> p < q
    ensures days[i].date == days[j].date && i < j ==> p < q
  {
    var shown := Dates(KeyOrder(days));
    if LexLess(days[j].date, days[i].date) || (days[i].date == days[j].date && i < j) {
      LexLessIrreflexive(days[i].date);
      KeyStrictlyBefore(days, i, j);
      assert KeyLe(shown[p], shown[p]);
      SortedPrecedes(shown, KeyLe, p, q);
    }
  }
}
