/** scheduler/schedule.go: a flat map keyed by `problemID + "@" + workerID`. */
module Schedules {
  import opened Int32

  /** A problem's instance count on a worker, as `Apply` hands it to its callback. */
  datatype Entry = Entry(worker: string, problem: string, count: int32)

  predicate AtFree(id: string) {
    '@' !in id
  }

  function Key(worker: string, problem: string): string {
    problem + "@" + worker
  }

  /** `strings.Split(s, "@")`. */
  function Split(s: string): (parts: seq<string>)
    ensures |parts| >= 1
    ensures |parts| >= 2 <==> '@' in s
    ensures forall i :: 0 <= i < |parts| ==> AtFree(parts[i])
  {
    if s == [] then [""]
    else if s[0] == '@' then [""] + Split(s[1..])
    else
      var rest := Split(s[1..]);
      [[s[0]] + rest[0]] + rest[1..]
  }

  /** A key made by `Set` from separator-free IDs holds one separator. */
  predicate Clean(key: string)
    ensures Clean(key) ==> '@' in key
  {
    |Split(key)| == 2
  }

  /** The pair that `Apply` reads back from a key: the second part names the worker. */
  function Decode(key: string): (string, string)
    requires '@' in key
  {
    (Split(key)[1], Split(key)[0])
  }

  lemma {:induction false} SplitAtFree(s: string)
    requires AtFree(s)
    ensures Split(s) == [s]
  {
    if s == [] {
    } else {
      SplitAtFree(s[1..]);
      assert [s[0]] + s[1..] == s;
    }
  }

  lemma {:induction false} SplitPrefix(p: string, rest: string)
    requires AtFree(p)
    ensures Split(p + "@" + rest) == [p] + Split(rest)
  {
    if p == [] {
      assert (p + "@" + rest)[1..] == rest;
    } else {
      SplitPrefix(p[1..], rest);
      assert (p + "@" + rest)[1..] == p[1..] + "@" + rest;
      assert [p[0]] + p[1..] == p;
    }
  }

  lemma {:induction false} JoinSplit(key: string)
    requires Clean(key)
    ensures Key(Split(key)[1], Split(key)[0]) == key
  {
    if key[0] == '@' {
      assert AtFree(key[1..]);
      SplitAtFree(key[1..]);
    } else {
      JoinSplit(key[1..]);
      var rest := Split(key[1..]);
      assert rest[0] + "@" + rest[1] == key[1..];
      assert Split(key) == [[key[0]] + rest[0], rest[1]];
    }
  }

  lemma {:induction false} KeyHasSeparator(worker: string, problem: string)
    ensures '@' in Key(worker, problem)
  {
    assert Key(worker, problem)[|problem|] == '@';
  }

  /** Decoding inverts encoding for exactly the IDs that hold no separator. */
  lemma {:induction false} RoundTrip(worker: string, problem: string)
    ensures '@' in Key(worker, problem)
    ensures Decode(Key(worker, problem)) == (worker, problem) <==> AtFree(worker) && AtFree(problem)
    ensures AtFree(worker) && AtFree(problem) ==> Clean(Key(worker, problem))
  {
    KeyHasSeparator(worker, problem);
    if AtFree(worker) && AtFree(problem) {
      SplitPrefix(problem, worker);
      SplitAtFree(worker);
    }
  }

  /** Two separator-free pairs never share a key. */
  lemma {:induction false} KeyInjective(w: string, p: string, w': string, p': string)
    requires AtFree(w) && AtFree(p) && AtFree(w') && AtFree(p')
    ensures Key(w, p) == Key(w', p') <==> w == w' && p == p'
  {
    RoundTrip(w, p);
    RoundTrip(w', p');
  }

  ghost predicate Shared(w: string, p: string) {
    exists w', p' :: (w', p') != (w, p) && Key(w', p') == Key(w, p)
  }

  /** A pair shares its key with some other pair exactly if one of its IDs holds the separator. */
  lemma {:induction false} KeyIsShared(w: string, p: string)
    ensures Shared(w, p) <==> !AtFree(w) || !AtFree(p)
  {
    if AtFree(w) && AtFree(p) {
      forall w', p' | Key(w', p') == Key(w, p)
        ensures (w', p') == (w, p)
      {
        OneSeparator(w, p, w', p');
      }
    } else if !AtFree(w) {
      var i := SeparatorAt(w);
      assert Key(w[i + 1..], p + "@" + w[..i]) == p + "@" + (w[..i] + "@" + w[i + 1..]);
    } else {
      var i := SeparatorAt(p);
      assert Key(p[i + 1..] + "@" + w, p[..i]) == (p[..i] + "@" + p[i + 1..]) + "@" + w;
      assert |p[..i]| != |p|;
    }
  }

  lemma {:induction false} SeparatorAt(id: string) returns (i: nat)
    requires !AtFree(id)
    ensures i < |id| && id == id[..i] + "@" + id[i + 1..]
  {
    i :| 0 <= i < |id| && id[i] == '@';
  }

  /** The only separator of a clean key tells where it was put together. */
  lemma {:induction false} OneSeparator(w: string, p: string, w': string, p': string)
    requires AtFree(w) && AtFree(p) && Key(w', p') == Key(w, p)
    ensures w' == w && p' == p
  {
    var key := Key(w, p);
    assert key[|p|] == '@' && key[|p'|] == '@' by { assert Key(w', p')[|p'|] == '@'; }
    assert forall i :: 0 <= i < |p| ==> key[i] == p[i];
    assert forall i :: |p| < i < |key| ==> key[i] == w[i - |p| - 1];
    assert |p'| == |p|;
    assert p == key[..|p|] && p' == Key(w', p')[..|p'|];
    assert w == key[|p| + 1..] && w' == Key(w', p')[|p'| + 1..];
  }

  /** For example, these two. */
  lemma {:induction false} KeyClash()
    ensures Key("c", "a@b") == Key("b@c", "a")
  {
    assert Key("c", "a@b") == "a@b@c";
    assert Key("b@c", "a") == "a@b@c";
  }

  /** `visits` lists every pair of `m` once, with its value. */
  ghost predicate Enumerates(visits: seq<Entry>, m: map<(string, string), int32>) {
    && (forall i :: 0 <= i < |visits| ==>
          (visits[i].worker, visits[i].problem) in m && m[(visits[i].worker, visits[i].problem)] == visits[i].count)
    && (forall i, j :: 0 <= i < j < |visits| ==>
          (visits[i].worker, visits[i].problem) != (visits[j].worker, visits[j].problem))
    && (forall wp :: wp in m ==> Entry(wp.0, wp.1, m[wp]) in visits)
  }

  /** The map on (worker, problem) pairs that a flat map with clean keys stands for. */
  ghost function PairsOf(entries: map<string, int32>): map<(string, string), int32>
    requires forall k :: k in entries ==> Clean(k)
  {
    map wp | wp in Decoded(entries) :: EntryAt(entries, wp.0, wp.1)
  }

  ghost function Decoded(entries: map<string, int32>): set<(string, string)>
    requires forall k :: k in entries ==> Clean(k)
  {
    set k | k in entries && Clean(k) :: Decode(k)
  }

  /** What `Get` returns. */
  function EntryAt(entries: map<string, int32>, worker: string, problem: string): int32 {
    if Key(worker, problem) in entries then entries[Key(worker, problem)] else 0
  }

  lemma {:induction false} InPairs(entries: map<string, int32>, w: string, p: string)
    requires forall k :: k in entries ==> Clean(k)
    ensures (w, p) in PairsOf(entries) <==> AtFree(w) && AtFree(p) && Key(w, p) in entries
    ensures (w, p) in PairsOf(entries) ==> PairsOf(entries)[(w, p)] == entries[Key(w, p)]
  {
    if (w, p) in Decoded(entries) {
      var k :| k in entries && Decode(k) == (w, p);
      JoinSplit(k);
    }
    if AtFree(w) && AtFree(p) && Key(w, p) in entries {
      RoundTrip(w, p);
    }
  }

  lemma {:induction false} PairsCount(entries: map<string, int32>)
    requires forall k :: k in entries ==> Clean(k)
    ensures |PairsOf(entries)| == |Decoded(entries)| == |entries|
    decreases |entries|
  {
    assert PairsOf(entries).Keys == Decoded(entries);
    hide *;
    DecodedCount(entries);
  }

  lemma {:induction false} DecodedCount(entries: map<string, int32>)
    requires forall k :: k in entries ==> Clean(k)
    ensures |Decoded(entries)| == |entries|
    decreases |entries|
  {
    if entries == map[] {
      assert Decoded(entries) == {};
    } else {
      var k :| k in entries;
      DecodedStep(entries, k);
      hide *;
      DecodedCount(entries - {k});
      assert |entries| == |entries.Keys| && |entries - {k}| == |entries.Keys - {k}|;
    }
  }

  lemma {:induction false} DecodedStep(entries: map<string, int32>, k: string)
    requires k in entries && forall k :: k in entries ==> Clean(k)
    ensures Decoded(entries) == Decoded(entries - {k}) + {Decode(k)} && Decode(k) !in Decoded(entries - {k})
  {
    if Decode(k) in Decoded(entries - {k}) {
      var other :| other in entries - {k} && Decode(other) == Decode(k);
      JoinSplit(k);
      JoinSplit(other);
      assert false;
    }
  }

  lemma {:induction false} PairsOfSet(entries: map<string, int32>, worker: string, problem: string, val: int32)
    requires forall k :: k in entries ==> Clean(k)
    requires AtFree(worker) && AtFree(problem)
    ensures Clean(Key(worker, problem))
    ensures PairsOf(entries[Key(worker, problem) := val]) == PairsOf(entries)[(worker, problem) := val]
  {
    RoundTrip(worker, problem);
    var entries' := entries[Key(worker, problem) := val];
    assert forall k :: k in entries' ==> Clean(k);
    var left, right := PairsOf(entries'), PairsOf(entries)[(worker, problem) := val];
    forall w, p
      ensures (w, p) in left <==> (w, p) in right
      ensures (w, p) in left ==> left[(w, p)] == right[(w, p)]
    {
      InPairs(entries, w, p);
      InPairs(entries', w, p);
      if AtFree(w) && AtFree(p) {
        KeyInjective(w, p, worker, problem);
      }
    }
    assert forall wp :: wp in left <==> wp in right by {
      forall wp: (string, string)
        ensures wp in left <==> wp in right
      {
        assert wp == (wp.0, wp.1);
      }
    }
    assert left.Keys == right.Keys;
    forall wp | wp in left
      ensures left[wp] == right[wp]
    {
      assert wp == (wp.0, wp.1);
    }
  }

  /** The call that `Apply` makes for one key. */
  function EntryOf(entries: map<string, int32>, key: string): Entry
    requires key in entries && '@' in key
  {
    Entry(Decode(key).0, Decode(key).1, entries[key])
  }

  /** `visits` are the calls for the keys in `order`, which are distinct. */
  ghost predicate Visits(entries: map<string, int32>, order: seq<string>, visits: seq<Entry>) {
    && |order| == |visits|
    && (forall i :: 0 <= i < |order| ==>
          order[i] in entries && '@' in order[i] && visits[i] == EntryOf(entries, order[i]))
    && (forall i, j :: 0 <= i < j < |order| ==> order[i] != order[j])
  }

  lemma {:induction false} NoVisits(entries: map<string, int32>)
    ensures Visits(entries, [], [])
  {
  }

  lemma {:induction false} NextVisit(entries: map<string, int32>, order: seq<string>, visits: seq<Entry>, k: string)
    requires Visits(entries, order, visits) && k in entries && '@' in k && k !in order
    ensures |Split(k)| >= 2
    ensures Visits(entries, order + [k], visits + [Entry(Split(k)[1], Split(k)[0], entries[k])])
  {
  }

  lemma {:induction false} AllVisited(entries: map<string, int32>, order: seq<string>, visits: seq<Entry>)
    requires Visits(entries, order, visits) && forall k :: k in entries ==> k in order && '@' in k
    ensures forall k :: k in entries ==> EntryOf(entries, k) in visits
  {
    forall k | k in entries
      ensures EntryOf(entries, k) in visits
    {
      var i :| 0 <= i < |order| && order[i] == k;
      assert visits[i] in visits;
    }
  }

  lemma {:induction false} VisitsEnumerate(entries: map<string, int32>, visits: seq<Entry>, order: seq<string>)
    requires forall k :: k in entries ==> Clean(k)
    requires Visits(entries, order, visits)
    requires forall k :: k in entries ==> k in order
    ensures Enumerates(visits, PairsOf(entries))
  {
    forall i | 0 <= i < |order|
      ensures Key(visits[i].worker, visits[i].problem) == order[i]
      ensures (visits[i].worker, visits[i].problem) in PairsOf(entries)
      ensures PairsOf(entries)[(visits[i].worker, visits[i].problem)] == visits[i].count
    {
      JoinSplit(order[i]);
      InPairs(entries, visits[i].worker, visits[i].problem);
    }
    forall wp | wp in PairsOf(entries)
      ensures Entry(wp.0, wp.1, PairsOf(entries)[wp]) in visits
    {
      InPairs(entries, wp.0, wp.1);
      RoundTrip(wp.0, wp.1);
      var i :| 0 <= i < |order| && order[i] == Key(wp.0, wp.1);
      assert visits[i] in visits;
    }
  }

  class Schedule {
    var entries: map<string, int32>

    /** Every key was written by `Set`. */
    ghost predicate Keyed()
      reads this
    {
      forall k :: k in entries ==> '@' in k
    }

    /** Every key was written by `Set` on separator-free IDs. */
    ghost predicate Valid()
      reads this
    {
      forall k :: k in entries ==> Clean(k)
    }

    ghost function Pairs(): map<(string, string), int32>
      requires Valid()
      reads this
    {
      PairsOf(entries)
    }

    constructor ()
      ensures Valid() && Pairs() == map[]
    {
      entries := map[];
    }

    function Get(worker: string, problem: string): (v: int32)
      reads this
      ensures Valid() && AtFree(worker) && AtFree(problem) ==>
                v == if (worker, problem) in Pairs() then Pairs()[(worker, problem)] else 0
    {
      assert Valid() ==>
          ((worker, problem) in Pairs() <==> AtFree(worker) && AtFree(problem) && Key(worker, problem) in entries) by {
        if Valid() {
          InPairs(entries, worker, problem);
        }
      }
      EntryAt(entries, worker, problem)
    }

    method Set(worker: string, problem: string, val: int32)
      modifies this
      ensures entries == old(entries)[Key(worker, problem) := val]
      ensures old(Keyed()) ==> Keyed()
      ensures old(Valid()) && AtFree(worker) && AtFree(problem) ==>
                Valid() && Pairs() == old(Pairs())[(worker, problem) := val]
    {
      if Valid() && AtFree(worker) && AtFree(problem) {
        PairsOfSet(entries, worker, problem, val);
      }
      KeyHasSeparator(worker, problem);
      entries := entries[Key(worker, problem) := val];
    }

    method Reset()
      modifies this
      ensures entries == map[]
      ensures Valid() && Pairs() == map[]
    {
      var todo := entries.Keys;
      while todo != {}
        invariant todo <= entries.Keys
        invariant forall k :: k in entries ==> k in todo
      {
        var k :| k in todo;
        todo := todo - {k};
        entries := entries - {k};
      }
    }

    /** The calls that `Apply` makes, in the order in which it happens to visit the keys. */
    method Apply() returns (visits: seq<Entry>)
      requires Keyed()
      ensures |visits| == |entries|
      ensures forall k :: k in entries ==> EntryOf(entries, k) in visits
      ensures Valid() ==> Enumerates(visits, Pairs())
    {
      hide Visits, EntryOf, Split, Decode, Enumerates, PairsOf;
      visits := [];
      ghost var order: seq<string> := [];
      NoVisits(entries);
      var todo := entries.Keys;
      while todo != {}
        invariant todo <= entries.Keys
        invariant |visits| + |todo| == |entries.Keys|
        invariant Visits(entries, order, visits)
        invariant forall k :: k in order ==> k !in todo
        invariant forall k :: k in entries ==> k in todo || k in order
      {
        var k :| k in todo;
        todo := todo - {k};
        NextVisit(entries, order, visits, k);
        var problem := Split(k)[0];
        var worker := Split(k)[1];
        visits := visits + [Entry(worker, problem, entries[k])];
        order := order + [k];
      }
      AllVisited(entries, order, visits);
      if Valid() {
        VisitsEnumerate(entries, visits, order);
      }
    }

    method ToDictOfDicts() returns (dict: map<string, map<string, int>>)
      requires Keyed()
      ensures Valid() ==> forall w, p :: w in dict && p in dict[w] <==> (w, p) in Pairs()
      ensures Valid() ==> forall w, p :: w in dict && p in dict[w] ==> dict[w][p] == Pairs()[(w, p)]
      ensures Valid() ==> forall w :: w in dict ==> dict[w] != map[]
    {
      var visits := Apply();
      dict := map[];
      ghost var seen: map<(string, string), int32> := map[];
      for i := 0 to |visits|
        invariant DictOf(dict, seen)
        invariant Covers(seen, visits, i)
      {
        var e := visits[i];
        DictStep(dict, seen, e);
        CoversStep(seen, visits, i);
        var row := if e.worker in dict then dict[e.worker] else map[];
        dict := dict[e.worker := row[e.problem := e.count]];
        seen := seen[(e.worker, e.problem) := e.count];
      }
      if Valid() {
        CoversAll(seen, visits, Pairs());
      }
    }
  }

  /** `seen` holds the pairs of the first `n` visits, each with the value of some visit. */
  ghost predicate Covers(seen: map<(string, string), int32>, visits: seq<Entry>, n: nat)
    requires n <= |visits|
  {
    && (forall j :: 0 <= j < n ==> (visits[j].worker, visits[j].problem) in seen)
    && (forall wp :: wp in seen ==> Entry(wp.0, wp.1, seen[wp]) in visits)
  }

  lemma {:induction false} CoversStep(seen: map<(string, string), int32>, visits: seq<Entry>, n: nat)
    requires n < |visits| && Covers(seen, visits, n)
    ensures Covers(seen[(visits[n].worker, visits[n].problem) := visits[n].count], visits, n + 1)
  {
    assert visits[n] == Entry(visits[n].worker, visits[n].problem, visits[n].count);
  }

  lemma {:induction false} CoversAll(seen: map<(string, string), int32>, visits: seq<Entry>,
                                     m: map<(string, string), int32>)
    requires Covers(seen, visits, |visits|) && Enumerates(visits, m)
    ensures seen == m
  {
    forall wp | wp in seen
      ensures wp in m && seen[wp] == m[wp]
    {
      var j :| 0 <= j < |visits| && visits[j] == Entry(wp.0, wp.1, seen[wp]);
      assert wp == (visits[j].worker, visits[j].problem);
    }
    forall wp | wp in m
      ensures wp in seen
    {
      var j :| 0 <= j < |visits| && visits[j] == Entry(wp.0, wp.1, m[wp]);
      assert wp == (visits[j].worker, visits[j].problem);
    }
  }

  lemma {:induction false} DictStep(dict: map<string, map<string, int>>, m: map<(string, string), int32>, e: Entry)
    requires DictOf(dict, m)
    ensures var row := if e.worker in dict then dict[e.worker] else map[];
            DictOf(dict[e.worker := row[e.problem := e.count]], m[(e.worker, e.problem) := e.count])
  {
    var row := if e.worker in dict then dict[e.worker] else map[];
    assert e.problem in row[e.problem := e.count];
  }

  /** `dict` holds the pairs of `m`, and no others, as a nested map without empty rows. */
  ghost predicate DictOf(dict: map<string, map<string, int>>, m: map<(string, string), int32>) {
    && (forall w, p :: w in dict && p in dict[w] ==> (w, p) in m && dict[w][p] == m[(w, p)])
    && (forall w, p :: (w, p) in m ==> w in dict && p in dict[w])
    && (forall w :: w in dict ==> dict[w] != map[])
  }
}
