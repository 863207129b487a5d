/**
 A map with two keys per value. Its meaning is a set of triples in which no two triples share
 a key of either kind; two hash maps represent it, the second the inverse of the first's keys.
 */
module DoubleMaps {
  import opened Wire

  datatype Triple<K1, K2, V> = Triple(key1: K1, key2: K2, value: V)

  // ----- Sets of triples -----

  /** How a pair of keys meets a set of triples: both keys in one triple, neither key anywhere,
      or in one of three conflicts. */
  datatype Meeting = Same | Fresh | Key1Exists | Key2Exists | BothKeysExist

  ghost predicate Unique<K1(!new), K2(!new), V(!new)>(s: set<Triple<K1, K2, V>>) {
    forall t, u :: t in s && u in s && (t.key1 == u.key1 || t.key2 == u.key2) ==> t == u
  }

  ghost predicate Has1<K1(!new), K2(!new), V(!new)>(s: set<Triple<K1, K2, V>>, k1: K1) {
    exists t :: t in s && t.key1 == k1
  }

  ghost predicate Has2<K1(!new), K2(!new), V(!new)>(s: set<Triple<K1, K2, V>>, k2: K2) {
    exists t :: t in s && t.key2 == k2
  }

  ghost predicate Has12<K1(!new), K2(!new), V(!new)>(s: set<Triple<K1, K2, V>>, k1: K1, k2: K2) {
    exists t :: t in s && t.key1 == k1 && t.key2 == k2
  }

  ghost function Meet<K1(!new), K2(!new), V(!new)>(s: set<Triple<K1, K2, V>>, k1: K1, k2: K2): Meeting {
    if Has12(s, k1, k2) then Same
    else if Has1(s, k1) then (if Has2(s, k2) then BothKeysExist else Key1Exists)
    else if Has2(s, k2) then Key2Exists
    else Fresh
  }

  ghost function Without1<K1(!new), K2(!new), V(!new)>(s: set<Triple<K1, K2, V>>, k1: K1): set<Triple<K1, K2, V>> {
    set t | t in s && t.key1 != k1
  }

  ghost function Without2<K1(!new), K2(!new), V(!new)>(s: set<Triple<K1, K2, V>>, k2: K2): set<Triple<K1, K2, V>> {
    set t | t in s && t.key2 != k2
  }

  /** The set after an insertion: a conflict changes nothing. */
  ghost function Inserted<K1(!new), K2(!new), V(!new)>(s: set<Triple<K1, K2, V>>, t: Triple<K1, K2, V>): set<Triple<K1, K2, V>> {
    match Meet(s, t.key1, t.key2)
    case Same => Without1(s, t.key1) + {t}
    case Fresh => s + {t}
    case _ => s
  }

  ghost function InsertedAll<K1(!new), K2(!new), V(!new)>(s: set<Triple<K1, K2, V>>, ts: seq<Triple<K1, K2, V>>): set<Triple<K1, K2, V>>
    decreases ts
  {
    if ts == [] then s else InsertedAll(Inserted(s, ts[0]), ts[1..])
  }

  // ----- Representation -----

  datatype Pair<K2, V> = Pair(key2: K2, value: V)

  type Primary<K1, K2, V> = map<K1, Pair<K2, V>>
  type Secondary<K1, K2> = map<K2, K1>

  ghost function Triples<K1(!new), K2(!new), V(!new)>(p: Primary<K1, K2, V>): set<Triple<K1, K2, V>> {
    set k | k in p :: Triple(k, p[k].key2, p[k].value)
  }

  /** `s` is the exact inverse of the keys of `p`. */
  ghost predicate Inverse<K1(!new), K2(!new), V(!new)>(p: Primary<K1, K2, V>, s: Secondary<K1, K2>) {
    && (forall k :: k in p ==> p[k].key2 in s && s[p[k].key2] == k)
    && (forall k :: k in s ==> s[k] in p && p[s[k]].key2 == k)
  }

  lemma {:induction false} TripleOf<K1(!new), K2(!new), V(!new)>(p: Primary<K1, K2, V>, t: Triple<K1, K2, V>)
    ensures t in Triples(p) <==> t.key1 in p && p[t.key1] == Pair(t.key2, t.value)
  {
  }

  /** The lookups in the two maps decide which keys the set has. */
  lemma {:induction false} Lookup1<K1(!new), K2(!new), V(!new)>(p: Primary<K1, K2, V>, k1: K1)
    ensures Has1(Triples(p), k1) <==> k1 in p
  {
    if k1 in p { assert Triple(k1, p[k1].key2, p[k1].value) in Triples(p); }
  }

  lemma {:induction false} Lookup2<K1(!new), K2(!new), V(!new)>(p: Primary<K1, K2, V>, s: Secondary<K1, K2>, k2: K2)
    requires Inverse(p, s)
    ensures Has2(Triples(p), k2) <==> k2 in s
  {
    if k2 in s { assert Triple(s[k2], k2, p[s[k2]].value) in Triples(p); }
  }

  lemma {:induction false} Lookup12<K1(!new), K2(!new), V(!new)>(p: Primary<K1, K2, V>, k1: K1, k2: K2)
    ensures Has12(Triples(p), k1, k2) <==> k1 in p && p[k1].key2 == k2
  {
    if k1 in p && p[k1].key2 == k2 { assert Triple(k1, k2, p[k1].value) in Triples(p); }
  }

  /** The tests that `insert` and `entry` make decide how a pair of keys meets the set. */
  lemma {:induction false} MeetByLookup<K1(!new), K2(!new), V(!new)>(p: Primary<K1, K2, V>, s: Secondary<K1, K2>, k1: K1, k2: K2)
    requires Inverse(p, s)
    ensures Meet(Triples(p), k1, k2) ==
            if k1 in p then
              if p[k1].key2 == k2 then Same else if k2 in s then BothKeysExist else Key1Exists
            else if k2 in s then Key2Exists else Fresh
  {
    hide Has1, Has2, Has12, Triples;
    Lookup1(p, k1);
    Lookup2(p, s, k2);
    Lookup12(p, k1, k2);
  }

  /** What a representation means is unique in both keys. */
  lemma {:induction false} MeaningUnique<K1(!new), K2(!new), V(!new)>(p: Primary<K1, K2, V>, s: Secondary<K1, K2>)
    requires Inverse(p, s)
    ensures Unique(Triples(p))
  {
  }

  /** Two maps with equal primary parts are wholly equal, and equality of the primary parts is
      equality of the meanings. */
  lemma {:induction false} PrimaryDecides<K1(!new), K2(!new), V(!new)>(p: Primary<K1, K2, V>, s: Secondary<K1, K2>, p': Primary<K1, K2, V>, s': Secondary<K1, K2>)
    requires Inverse(p, s) && Inverse(p', s')
    ensures p == p' ==> s == s'
    ensures p == p' <==> Triples(p) == Triples(p')
  {
    if Triples(p) == Triples(p') {
      SameTriples(p, p');
      SameTriples(p', p);
    }
  }

  lemma {:induction false} SameTriples<K1(!new), K2(!new), V(!new)>(p: Primary<K1, K2, V>, p': Primary<K1, K2, V>)
    requires Triples(p) == Triples(p')
    ensures forall k :: k in p ==> k in p' && p'[k] == p[k]
  {
    forall k | k in p ensures k in p' && p'[k] == p[k] {
      var t := Triple(k, p[k].key2, p[k].value);
      TripleOf(p, t);
      TripleOf(p', t);
    }
  }

  lemma {:induction false} Size<K1(!new), K2(!new), V(!new)>(p: Primary<K1, K2, V>)
    ensures |Triples(p)| == |p|
    decreases |p|
  {
    if p != map[] {
      var k :| k in p;
      var q := p - {k};
      Size(q);
      var t := Triple(k, p[k].key2, p[k].value);
      forall u ensures u in Triples(p) <==> u in Triples(q) || u == t {
        TripleOf(p, u);
        TripleOf(q, u);
      }
      TripleOf(q, t);
      assert Triples(p) == Triples(q) + {t};
    }
  }

  // ----- Effect of the two map updates -----

  lemma {:induction false} InsertFresh<K1(!new), K2(!new), V(!new)>(p: Primary<K1, K2, V>, s: Secondary<K1, K2>, t: Triple<K1, K2, V>)
    requires Inverse(p, s) && t.key1 !in p && t.key2 !in s
    ensures Inverse(p[t.key1 := Pair(t.key2, t.value)], s[t.key2 := t.key1])
    ensures Triples(p[t.key1 := Pair(t.key2, t.value)]) == Triples(p) + {t}
  {
    forall u ensures u in Triples(p[t.key1 := Pair(t.key2, t.value)]) <==> u in Triples(p) || u == t {
      TripleOf(p, u);
      TripleOf(p[t.key1 := Pair(t.key2, t.value)], u);
    }
  }

  lemma {:induction false} ReplaceValue<K1(!new), K2(!new), V(!new)>(p: Primary<K1, K2, V>, s: Secondary<K1, K2>, t: Triple<K1, K2, V>)
    requires Inverse(p, s) && t.key1 in p && p[t.key1].key2 == t.key2
    ensures Inverse(p[t.key1 := Pair(t.key2, t.value)], s)
    ensures Triples(p[t.key1 := Pair(t.key2, t.value)]) == Without1(Triples(p), t.key1) + {t}
  {
    forall u ensures u in Triples(p[t.key1 := Pair(t.key2, t.value)]) <==> u in Without1(Triples(p), t.key1) || u == t {
      TripleOf(p, u);
      TripleOf(p[t.key1 := Pair(t.key2, t.value)], u);
    }
  }

  lemma {:induction false} RemoveBoth<K1(!new), K2(!new), V(!new)>(p: Primary<K1, K2, V>, s: Secondary<K1, K2>, k1: K1)
    requires Inverse(p, s) && k1 in p
    ensures Inverse(p - {k1}, s - {p[k1].key2})
    ensures Triples(p - {k1}) == Without1(Triples(p), k1)
    ensures Without1(Triples(p), k1) == Without2(Triples(p), p[k1].key2)
  {
    forall u ensures u in Triples(p - {k1}) <==> u in Triples(p) && u.key1 != k1 {
      TripleOf(p, u);
      TripleOf(p - {k1}, u);
    }
    forall u | u in Triples(p) ensures u.key1 != k1 <==> u.key2 != p[k1].key2 {
      TripleOf(p, u);
    }
  }

  // ----- The class -----

  datatype InsertResult<K1, K2, V> = Ok(previous: Option<V>) | Conflict(kind: Meeting, rejected: Triple<K1, K2, V>)

  /** What a caller of `retain` decides about one entry: whether to keep it, and its value. Each
      entry is visited once, so the decisions of one call are a function of the entries, whatever
      state the caller's closure carries from one to the next. */
  datatype Verdict<V> = Verdict(keep: bool, value: V)

  /** The triples that `retain` leaves, with their new values. */
  ghost function Retained<K1(!new), K2(!new), V(!new)>(s: set<Triple<K1, K2, V>>, f: Triple<K1, K2, V> -> Verdict<V>): set<Triple<K1, K2, V>> {
    set t | t in s && f(t).keep :: Triple(t.key1, t.key2, f(t).value)
  }

  class DoubleMap<K1(==, !new), K2(==, !new), V(==, !new)> {
    var primary: Primary<K1, K2, V>
    var secondary: Secondary<K1, K2>

    ghost predicate Valid()
      reads this
    {
      Inverse(primary, secondary)
    }

    ghost function Contents(): set<Triple<K1, K2, V>>
      reads this
    {
      Triples(primary)
    }

    constructor ()
      ensures Valid() && Contents() == {}
    {
      primary, secondary := map[], map[];
    }

    method Clear()
      modifies this
      ensures Valid() && Contents() == {}
    {
      primary, secondary := map[], map[];
    }

    method Len() returns (n: nat)
      ensures n == |Contents()|
    {
      n := |primary|;
      Size(primary);
    }

    method GetByKey1(k1: K1) returns (v: Option<V>)
      requires Valid()
      ensures v.Some? <==> Has1(Contents(), k1)
      ensures v.Some? ==> exists k2 :: Triple(k1, k2, v.value) in Contents()
    {
      Lookup1(primary, k1);
      if k1 !in primary { return None; }
      v := Some(primary[k1].value);
      assert Triple(k1, primary[k1].key2, v.value) in Contents();
    }

    method GetByKey2(k2: K2) returns (v: Option<V>)
      requires Valid()
      ensures v.Some? <==> Has2(Contents(), k2)
      ensures v.Some? ==> exists k1 :: Triple(k1, k2, v.value) in Contents()
    {
      Lookup2(primary, secondary, k2);
      if k2 !in secondary { return None; }
      var k1 := secondary[k2];
      v := Some(primary[k1].value);
      assert Triple(k1, k2, v.value) in Contents();
    }

    method GetByKeys(k1: K1, k2: K2) returns (v: Option<V>)
      requires Valid()
      ensures v.Some? <==> Has12(Contents(), k1, k2)
      ensures v.Some? ==> Triple(k1, k2, v.value) in Contents()
    {
      Lookup12(primary, k1, k2);
      if k1 !in primary || primary[k1].key2 != k2 { return None; }
      v := Some(primary[k1].value);
      assert Triple(k1, k2, v.value) in Contents();
    }

    method RemoveEntryByKey1(k1: K1) returns (r: Option<Triple<K1, K2, V>>)
      requires Valid()
      modifies this
      ensures Valid() && Contents() == Without1(old(Contents()), k1)
      ensures forall t :: t in Contents() <==> t in old(Contents()) && t.key1 != k1
      ensures r.Some? <==> Has1(old(Contents()), k1)
      ensures r.Some? ==> r.value.key1 == k1 && r.value in old(Contents())
    {
      Lookup1(primary, k1);
      if k1 !in primary { return None; }
      RemoveBoth(primary, secondary, k1);
      var pair := primary[k1];
      r := Some(Triple(k1, pair.key2, pair.value));
      primary := primary - {k1};
      secondary := secondary - {pair.key2};
    }

    /** The `expect` of this operation never fails: the primary map has the key. */
    method RemoveEntryByKey2(k2: K2) returns (r: Option<Triple<K1, K2, V>>)
      requires Valid()
      modifies this
      ensures Valid() && Contents() == Without2(old(Contents()), k2)
      ensures forall t :: t in Contents() <==> t in old(Contents()) && t.key2 != k2
      ensures r.Some? <==> Has2(old(Contents()), k2)
      ensures r.Some? ==> r.value.key2 == k2 && r.value in old(Contents())
    {
      Lookup2(primary, secondary, k2);
      if k2 !in secondary { return None; }
      var k1 := secondary[k2];
      assert k1 in primary;
      RemoveBoth(primary, secondary, k1);
      secondary := secondary - {k2};
      r := Some(Triple(k1, primary[k1].key2, primary[k1].value));
      primary := primary - {k1};
    }

    /** Takes the entry of the first key out, and puts it back if the second does not match. */
    method RemoveEntryByKeys(k1: K1, k2: K2) returns (r: Option<Triple<K1, K2, V>>)
      requires Valid()
      modifies this
      ensures Valid() && (r.Some? <==> Has12(old(Contents()), k1, k2))
      ensures if r.Some? then r.value.key1 == k1 && r.value.key2 == k2 && r.value in old(Contents()) && Contents() == old(Contents()) - {r.value}
              else primary == old(primary) && secondary == old(secondary)
    {
      Lookup12(primary, k1, k2);
      if k1 !in primary { return None; }
      RemoveBoth(primary, secondary, k1);
      OnlyOne(primary, k1);
      var pair := primary[k1];
      primary := primary - {k1};
      if pair.key2 != k2 {
        primary := primary[k1 := pair];
        return None;
      }
      secondary := secondary - {pair.key2};
      r := Some(Triple(k1, pair.key2, pair.value));
    }

    /** Inserts a fresh entry, replaces the value of an existing one, or rejects the triple; a
        rejection leaves both maps as they were. */
    method Insert(k1: K1, k2: K2, v: V) returns (r: InsertResult<K1, K2, V>)
      requires Valid()
      modifies this
      ensures Valid() && Contents() == Inserted(old(Contents()), Triple(k1, k2, v))
      ensures match Meet(old(Contents()), k1, k2)
              case Same => r.Ok? && r.previous.Some? && Triple(k1, k2, r.previous.value) in old(Contents())
              case Fresh => r == InsertResult.Ok(None)
              case kind => r == Conflict(kind, Triple(k1, k2, v)) && primary == old(primary) && secondary == old(secondary)
      ensures r.Ok? ==> Triple(k1, k2, v) in Contents()
      ensures r.Ok? ==> forall t: Triple<K1, K2, V> :: t.key1 != k1 || t.key2 != k2 ==> (t in Contents() <==> t in old(Contents()))
      ensures r.Ok? ==> forall t :: t in Contents() && (t.key1 == k1 || t.key2 == k2) ==> t == Triple(k1, k2, v)
    {
      hide Meet, Inverse, Unique;
      ghost var before := Contents();
      InsertedExactly(before, Triple(k1, k2, v));
      MeetNames(before, k1, k2);
      MeaningUnique(primary, secondary);
      OnlyUnder(before, k1, k2);
      MeetByLookup(primary, secondary, k1, k2);
      if k1 in primary {
        var existing := primary[k1];
        if existing.key2 == k2 {
          ReplaceValue(primary, secondary, Triple(k1, k2, v));
          TripleOf(primary, Triple(k1, k2, existing.value));
          primary := primary[k1 := Pair(k2, v)];
          return InsertResult.Ok(Some(existing.value));
        }
        if k2 in secondary { return Conflict(BothKeysExist, Triple(k1, k2, v)); }
        return Conflict(Key1Exists, Triple(k1, k2, v));
      }
      if k2 in secondary { return Conflict(Key2Exists, Triple(k1, k2, v)); }
      InsertFresh(primary, secondary, Triple(k1, k2, v));
      secondary := secondary[k2 := k1];
      primary := primary[k1 := Pair(k2, v)];
      r := InsertResult.Ok(None);
    }

    /** Classifies a pair of keys exactly like `Insert`, and changes nothing. None of its
        `unreachable!` branches is reached. */
    method Entry(k1: K1, k2: K2) returns (kind: Meeting)
      requires Valid()
      ensures kind == Meet(Contents(), k1, k2)
    {
      hide Meet, Triples;
      MeetByLookup(primary, secondary, k1, k2);
      var key1MatchesKey2 := if k1 in primary then Some(primary[k1].key2 == k2) else None;
      var key2Present := k2 in secondary;
      if key1MatchesKey2 == Some(true) {
        assert k1 in primary && k2 in secondary;
        kind := Same;
      } else if key1MatchesKey2 == None && !key2Present {
        kind := Fresh;
      } else if key1MatchesKey2 == Some(false) {
        kind := if key2Present then BothKeysExist else Key1Exists;
      } else {
        kind := Key2Exists;
      }
    }

    /** `or_insert` on an entry: inserts if it is vacant and returns the value now stored. */
    method OrInsert(k1: K1, k2: K2, v: V) returns (stored: Option<V>)
      requires Valid()
      modifies this
      ensures Valid()
      ensures match Meet(old(Contents()), k1, k2)
              case Same => stored.Some? && Triple(k1, k2, stored.value) in old(Contents()) && Contents() == old(Contents())
              case Fresh => stored == Some(v) && Contents() == old(Contents()) + {Triple(k1, k2, v)}
              case _ => stored == None && Contents() == old(Contents())
    {
      hide Meet;
      MeetByLookup(primary, secondary, k1, k2);
      var kind := Entry(k1, k2);
      match kind
      case Same =>
        TripleOf(primary, Triple(k1, k2, primary[k1].value));
        stored := Some(primary[k1].value);
      case Fresh =>
        InsertFresh(primary, secondary, Triple(k1, k2, v));
        secondary := secondary[k2 := k1];
        primary := primary[k1 := Pair(k2, v)];
        stored := Some(v);
      case _ => stored := None;
    }

    /** Removes what an occupied entry stands for. */
    method RemoveOccupied(k1: K1, k2: K2) returns (t: Triple<K1, K2, V>)
      requires Valid() && Meet(Contents(), k1, k2) == Same
      modifies this
      ensures Valid() && t in old(Contents()) && t.key1 == k1 && t.key2 == k2 && Contents() == old(Contents()) - {t}
    {
      hide Meet;
      MeetByLookup(primary, secondary, k1, k2);
      RemoveBoth(primary, secondary, k1);
      OnlyOne(primary, k1);
      secondary := secondary - {k2};
      t := Triple(k1, primary[k1].key2, primary[k1].value);
      primary := primary - {k1};
    }

    method RetainOne(k1: K1, f: Triple<K1, K2, V> -> Verdict<V>)
      requires Valid() && k1 in primary
      modifies this
      ensures Valid() && Kept(old(primary), primary, k1, f)
      ensures primary - {k1} == old(primary) - {k1}
    {
      var t := Triple(k1, primary[k1].key2, primary[k1].value);
      if f(t).keep {
        ReplaceValue(primary, secondary, Triple(t.key1, t.key2, f(t).value));
        primary := primary[k1 := Pair(t.key2, f(t).value)];
      } else {
        RemoveBoth(primary, secondary, k1);
        secondary := secondary - {t.key2};
        primary := primary - {k1};
      }
    }

    /** Keeps the entries that `f` keeps, with the values that `f` gives them. */
    method Retain(f: Triple<K1, K2, V> -> Verdict<V>)
      requires Valid()
      modifies this
      ensures Valid() && Contents() == Retained(old(Contents()), f)
      ensures forall t :: t in old(Contents()) && f(t).keep ==> Triple(t.key1, t.key2, f(t).value) in Contents()
      ensures forall u :: u in Contents() ==>
                exists t :: t in old(Contents()) && f(t).keep && u == Triple(t.key1, t.key2, f(t).value)
    {
      ghost var all := primary;
      var todo := primary.Keys;
      while todo != {}
        invariant Valid() && todo <= primary.Keys && primary.Keys <= all.Keys
        invariant forall k :: k in todo ==> primary[k] == all[k]
        invariant forall k :: k in all && k !in todo ==> Kept(all, primary, k, f)
        decreases |todo|
      {
        var k1 :| k1 in todo;
        ghost var before := primary;
        RetainOne(k1, f);
        forall k | k != k1 ensures k in primary <==> k in before {
          assert k in primary - {k1} <==> k in before - {k1};
        }
        forall k | k != k1 && k in primary ensures primary[k] == before[k] {
          assert (primary - {k1})[k] == (before - {k1})[k];
        }
        todo := todo - {k1};
      }
      RetainedAll(all, primary, f);
    }

    /** Inserts one triple after the other; conflicting ones are skipped. */
    method Extend(ts: seq<Triple<K1, K2, V>>)
      requires Valid()
      modifies this
      ensures Valid() && Contents() == InsertedAll(old(Contents()), ts)
    {
      var i := 0;
      while i < |ts|
        invariant 0 <= i <= |ts| && Valid()
        invariant InsertedAll(Contents(), ts[i..]) == InsertedAll(old(Contents()), ts)
      {
        hide Inserted;
        assert ts[i..][0] == ts[i] && ts[i..][1..] == ts[i + 1..];
        var _ := Insert(ts[i].key1, ts[i].key2, ts[i].value);
        i := i + 1;
      }
    }

    /** Compares the primary maps only, and that is enough. */
    method Equals(other: DoubleMap<K1, K2, V>) returns (same: bool)
      requires Valid() && other.Valid()
      ensures same <==> Contents() == other.Contents()
      ensures same <==> primary == other.primary && secondary == other.secondary
    {
      same := primary == other.primary;
      PrimaryDecides(primary, secondary, other.primary, other.secondary);
    }
  }

  /** What `retain` has made of the entry of `k`. */
  ghost predicate Kept<K1(!new), K2(!new), V(!new)>(all: Primary<K1, K2, V>, now: Primary<K1, K2, V>, k: K1, f: Triple<K1, K2, V> -> Verdict<V>)
    requires k in all
  {
    var t := Triple(k, all[k].key2, all[k].value);
    if f(t).keep then k in now && now[k] == Pair(t.key2, f(t).value) else k !in now
  }

  lemma {:induction false} RetainedAll<K1(!new), K2(!new), V(!new)>(all: Primary<K1, K2, V>, now: Primary<K1, K2, V>, f: Triple<K1, K2, V> -> Verdict<V>)
    requires now.Keys <= all.Keys && forall k :: k in all ==> Kept(all, now, k, f)
    ensures Triples(now) == Retained(Triples(all), f)
  {
    forall u ensures u in Triples(now) <==> u in Retained(Triples(all), f) {
      TripleOf(now, u);
      if u.key1 in all {
        var t := Triple(u.key1, all[u.key1].key2, all[u.key1].value);
        TripleOf(all, t);
        assert Kept(all, now, u.key1, f);
        if u in Triples(now) { assert t in Triples(all) && f(t).keep && u == Triple(t.key1, t.key2, f(t).value); }
      }
    }
  }

  lemma {:induction false} OnlyOne<K1(!new), K2(!new), V(!new)>(p: Primary<K1, K2, V>, k1: K1)
    requires k1 in p
    ensures var t := Triple(k1, p[k1].key2, p[k1].value);
            t in Triples(p) && Without1(Triples(p), k1) == Triples(p) - {t}
  {
    var t := Triple(k1, p[k1].key2, p[k1].value);
    forall u | u in Triples(p) ensures u.key1 != k1 <==> u != t { TripleOf(p, u); }
  }

  // ----- Laws of the set of triples -----

  /** Insertion keeps both keys unique. */
  lemma {:induction false} InsertedUnique<K1(!new), K2(!new), V(!new)>(s: set<Triple<K1, K2, V>>, t: Triple<K1, K2, V>)
    requires Unique(s)
    ensures Unique(Inserted(s, t))
  {
    var u := Inserted(s, t);
    forall x, y | x in u && y in u && (x.key1 == y.key1 || x.key2 == y.key2) ensures x == y {
      if x != t && y != t {
        assert x in s && y in s;
      }
    }
  }

  /** What an insertion makes of a set, triple by triple: the new triple is there exactly if its
      keys meet no other, and every other triple stays unless it has both its keys. */
  lemma {:induction false} InsertedExactly<K1(!new), K2(!new), V(!new)>(s: set<Triple<K1, K2, V>>, t: Triple<K1, K2, V>)
    ensures forall x ::
      x in Inserted(s, t) <==>
        if Has12(s, t.key1, t.key2) then x == t || (x in s && x.key1 != t.key1)
        else if Has1(s, t.key1) || Has2(s, t.key2) then x in s
        else x == t || x in s
  {
  }

  lemma {:induction false} MeetNames<K1(!new), K2(!new), V(!new)>(s: set<Triple<K1, K2, V>>, k1: K1, k2: K2)
    ensures Meet(s, k1, k2) == Same <==> Has12(s, k1, k2)
    ensures Meet(s, k1, k2) == Fresh <==> !Has1(s, k1) && !Has2(s, k2)
  {
    if Has12(s, k1, k2) { assert Has1(s, k1); }
  }

  /** If one triple has both keys, no other has one of them. */
  lemma {:induction false} OnlyUnder<K1(!new), K2(!new), V(!new)>(s: set<Triple<K1, K2, V>>, k1: K1, k2: K2)
    requires Unique(s)
    ensures Has12(s, k1, k2) ==> forall t :: t in s && (t.key1 == k1 || t.key2 == k2) ==> t.key1 == k1 && t.key2 == k2
  {
  }

  /** Extending by one triple more inserts it last: it is there exactly if its keys meet no other by
      then, and every other triple stays unless it has both its keys. */
  lemma {:induction false} ExtendLast<K1(!new), K2(!new), V(!new)>(s: set<Triple<K1, K2, V>>, ts: seq<Triple<K1, K2, V>>, t: Triple<K1, K2, V>)
    ensures InsertedAll(s, []) == s
    ensures var u := InsertedAll(s, ts);
            forall x ::
              x in InsertedAll(s, ts + [t]) <==>
                if Has12(u, t.key1, t.key2) then x == t || (x in u && x.key1 != t.key1)
                else if Has1(u, t.key1) || Has2(u, t.key2) then x in u
                else x == t || x in u
    decreases ts
  {
    hide Inserted, Has1, Has2, Has12;
    if ts == [] {
      assert ts + [t] == [t] && [t][1..] == [];
      assert InsertedAll(s, [t]) == InsertedAll(Inserted(s, t), []);
      InsertedExactly(s, t);
    } else {
      assert (ts + [t])[1..] == ts[1..] + [t] && (ts + [t])[0] == ts[0];
      ExtendLast(Inserted(s, ts[0]), ts[1..], t);
    }
  }
}
