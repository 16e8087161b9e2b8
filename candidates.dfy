// The candidate maps of scripts/discover-bills.js. Each discovery channel
// builds an insertion-ordered `Map` from normalised bill id to a candidate
// record, and `main` merges the channels' maps into one. Two update rules
// occur: the committee channel and the merge append the sources of a repeated
// id to the record already stored (`Absorb`), and the title scan keeps the
// first record it stored (`AbsorbFirst`). The folds below state the result of
// a whole sequence of updates, and the lemmas give its keys and entries.

module Candidates {
  import opened Text
  import opened Seqs
  import opened Ordered

  /** A discovery candidate `{ billType, number, title, source }`. */
  datatype Candidate = Candidate(billType: string, number: string, title: string, source: seq<string>)

  /** One update of a candidate map: a normalised id and the record that a
      new id receives. */
  datatype Hit = Hit(id: string, cand: Candidate)

  /** A known id gets the hit's sources appended to its record; a new id is
      set to the hit's record, at the end of the key order. */
  function Absorb(m: OMap<Candidate>, h: Hit): OMap<Candidate>
  {
    if h.id in m.entries then
      var c := m.entries[h.id];
      Put(m, h.id, c.(source := c.source + h.cand.source))
    else Put(m, h.id, h.cand)
  }

  /** A known id is left alone; a new id is set to the hit's record. */
  function AbsorbFirst(m: OMap<Candidate>, h: Hit): OMap<Candidate>
  {
    if h.id in m.entries then m else Put(m, h.id, h.cand)
  }

  /** `Absorb` each hit in turn. */
  function AbsorbAll(m: OMap<Candidate>, hs: seq<Hit>): OMap<Candidate>
  {
    if |hs| == 0 then m else Absorb(AbsorbAll(m, hs[..|hs| - 1]), hs[|hs| - 1])
  }

  /** `AbsorbFirst` each hit in turn. */
  function AbsorbAllFirst(m: OMap<Candidate>, hs: seq<Hit>): OMap<Candidate>
  {
    if |hs| == 0 then m else AbsorbFirst(AbsorbAllFirst(m, hs[..|hs| - 1]), hs[|hs| - 1])
  }

  /** The ids of `hs` that are not in `known`, each once, in the order of
      their first occurrence. */
  function NewKeys(known: seq<string>, hs: seq<Hit>): (r: seq<string>)
  {
    if |hs| == 0 then []
    else
      var p := NewKeys(known, hs[..|hs| - 1]);
      var k := hs[|hs| - 1].id;
      if k in known || k in p then p else p + [k]
  }

  /** The record of the first hit with id `k`. */
  function FirstWith(hs: seq<Hit>, k: string): (r: Option<Candidate>)
  {
    if |hs| == 0 then None
    else
      var f := FirstWith(hs[..|hs| - 1], k);
      if f.Some? then f
      else if hs[|hs| - 1].id == k then Some(hs[|hs| - 1].cand)
      else None
  }

  /** The sources of all hits with id `k`, in order. */
  function SourcesOf(hs: seq<Hit>, k: string): (r: seq<string>)
  {
    if |hs| == 0 then []
    else SourcesOf(hs[..|hs| - 1], k) + (if hs[|hs| - 1].id == k then hs[|hs| - 1].cand.source else [])
  }

  /** Without a hit for `k` there are no sources for `k`. */
  lemma {:induction false} SourcesOfAbsent(hs: seq<Hit>, k: string)
    requires FirstWith(hs, k).None?
    ensures SourcesOf(hs, k) == []
  {
    if |hs| > 0 {
      SourcesOfAbsent(hs[..|hs| - 1], k);
    }
  }

  /** Absorbing `xs` and then `ys` is absorbing `xs + ys`. */
  lemma {:induction false} AbsorbAllAppend(m: OMap<Candidate>, xs: seq<Hit>, ys: seq<Hit>)
    ensures AbsorbAll(AbsorbAll(m, xs), ys) == AbsorbAll(m, xs + ys)
  {
    if |ys| > 0 {
      AbsorbAllAppend(m, xs, ys[..|ys| - 1]);
      assert (xs + ys)[..|xs + ys| - 1] == xs + ys[..|ys| - 1];
    } else {
      assert xs + ys == xs;
    }
  }

  /** Absorbing `xs` and then `ys` first-hit-wins is absorbing `xs + ys`. */
  lemma {:induction false} AbsorbAllFirstAppend(m: OMap<Candidate>, xs: seq<Hit>, ys: seq<Hit>)
    ensures AbsorbAllFirst(AbsorbAllFirst(m, xs), ys) == AbsorbAllFirst(m, xs + ys)
  {
    if |ys| > 0 {
      AbsorbAllFirstAppend(m, xs, ys[..|ys| - 1]);
      assert (xs + ys)[..|xs + ys| - 1] == xs + ys[..|ys| - 1];
    } else {
      assert xs + ys == xs;
    }
  }

  /** The key order after a run of `Absorb`: the old keys, then the new ids
      in the order they first occur. */
  lemma {:induction false} AbsorbAllKeys(m: OMap<Candidate>, hs: seq<Hit>)
    requires Valid(m)
    ensures AbsorbAll(m, hs).keys == m.keys + NewKeys(m.keys, hs)
  {
    if |hs| > 0 {
      AbsorbAllKeys(m, hs[..|hs| - 1]);
      AbsorbAllValid(m, hs[..|hs| - 1]);
    }
  }

  /** A run of `Absorb` keeps a map well formed. */
  lemma {:induction false} AbsorbAllValid(m: OMap<Candidate>, hs: seq<Hit>)
    requires Valid(m)
    ensures Valid(AbsorbAll(m, hs))
  {
    if |hs| > 0 {
      var a := AbsorbAll(m, hs[..|hs| - 1]);
      AbsorbAllValid(m, hs[..|hs| - 1]);
      var h := hs[|hs| - 1];
      if h.id in a.entries {
        var c := a.entries[h.id];
        PutValid(a, h.id, c.(source := c.source + h.cand.source));
      } else {
        PutValid(a, h.id, h.cand);
      }
    }
  }

  /** A run of `AbsorbFirst` keeps a map well formed. */
  lemma {:induction false} AbsorbAllFirstValid(m: OMap<Candidate>, hs: seq<Hit>)
    requires Valid(m)
    ensures Valid(AbsorbAllFirst(m, hs))
  {
    if |hs| > 0 {
      var a := AbsorbAllFirst(m, hs[..|hs| - 1]);
      AbsorbAllFirstValid(m, hs[..|hs| - 1]);
      PutValid(a, hs[|hs| - 1].id, hs[|hs| - 1].cand);
    }
  }

  /** The entries after a run of `Absorb`: an old id keeps its record with
      the sources of its hits appended; a new id holds its first hit's record
      with the sources of all its hits. */
  lemma AbsorbAllEntry(m: OMap<Candidate>, hs: seq<Hit>, k: string)
    ensures k in AbsorbAll(m, hs).entries <==> k in m.entries || FirstWith(hs, k).Some?
    ensures k in m.entries ==>
              AbsorbAll(m, hs).entries[k] == m.entries[k].(source := m.entries[k].source + SourcesOf(hs, k))
    ensures k !in m.entries && FirstWith(hs, k).Some? ==>
              AbsorbAll(m, hs).entries[k] == FirstWith(hs, k).value.(source := SourcesOf(hs, k))
  {
    AbsorbAllHas(m, hs, k);
    if k in m.entries {
      AbsorbAllOld(m, hs, k);
    } else if FirstWith(hs, k).Some? {
      AbsorbAllNew(m, hs, k);
    }
  }

  lemma {:induction false} AbsorbAllHas(m: OMap<Candidate>, hs: seq<Hit>, k: string)
    ensures k in AbsorbAll(m, hs).entries <==> k in m.entries || FirstWith(hs, k).Some?
  {
    if |hs| > 0 {
      var init := hs[..|hs| - 1];
      AbsorbAllHas(m, init, k);
      AbsorbEntry(AbsorbAll(m, init), hs[|hs| - 1], k);
    }
  }

  lemma {:induction false} AbsorbAllOld(m: OMap<Candidate>, hs: seq<Hit>, k: string)
    requires k in m.entries
    ensures k in AbsorbAll(m, hs).entries
    ensures AbsorbAll(m, hs).entries[k] == m.entries[k].(source := m.entries[k].source + SourcesOf(hs, k))
  {
    if |hs| > 0 {
      var init := hs[..|hs| - 1];
      var h := hs[|hs| - 1];
      AbsorbAllOld(m, init, k);
      var a := AbsorbAll(m, init);
      AbsorbEntry(a, h, k);
      var c := m.entries[k];
      assert SourcesOf(hs, k) == SourcesOf(init, k) + (if h.id == k then h.cand.source else []);
      if h.id == k {
        assert c.source + SourcesOf(init, k) + h.cand.source == c.source + SourcesOf(hs, k);
      }
    }
  }

  lemma {:induction false} AbsorbAllNew(m: OMap<Candidate>, hs: seq<Hit>, k: string)
    requires k !in m.entries && FirstWith(hs, k).Some?
    ensures k in AbsorbAll(m, hs).entries
    ensures AbsorbAll(m, hs).entries[k] == FirstWith(hs, k).value.(source := SourcesOf(hs, k))
  {
    var init := hs[..|hs| - 1];
    var h := hs[|hs| - 1];
    var a := AbsorbAll(m, init);
    AbsorbAllHas(m, init, k);
    AbsorbEntry(a, h, k);
    assert SourcesOf(hs, k) == SourcesOf(init, k) + (if h.id == k then h.cand.source else []);
    if FirstWith(init, k).Some? {
      AbsorbAllNew(m, init, k);
    } else {
      SourcesOfAbsent(init, k);
    }
  }

  /** One `Absorb` step, seen from one id. */
  lemma AbsorbEntry(a: OMap<Candidate>, h: Hit, k: string)
    ensures k in Absorb(a, h).entries <==> k in a.entries || h.id == k
    ensures k != h.id && k in a.entries ==> Absorb(a, h).entries[k] == a.entries[k]
    ensures h.id == k && k in a.entries ==>
              Absorb(a, h).entries[k] == a.entries[k].(source := a.entries[k].source + h.cand.source)
    ensures h.id == k && k !in a.entries ==> Absorb(a, h).entries[k] == h.cand
  {
  }

  /** The key order after a run of `AbsorbFirst` is the same as after a run
      of `Absorb`. */
  lemma {:induction false} AbsorbAllFirstKeys(m: OMap<Candidate>, hs: seq<Hit>)
    requires Valid(m)
    ensures AbsorbAllFirst(m, hs).keys == m.keys + NewKeys(m.keys, hs)
  {
    if |hs| > 0 {
      AbsorbAllFirstKeys(m, hs[..|hs| - 1]);
      AbsorbAllFirstValid(m, hs[..|hs| - 1]);
    }
  }

  /** The entries after a run of `AbsorbFirst`: an old id keeps its record,
      a new id holds its first hit's record. */
  lemma {:induction false} AbsorbAllFirstEntry(m: OMap<Candidate>, hs: seq<Hit>, k: string)
    ensures k in AbsorbAllFirst(m, hs).entries <==> k in m.entries || FirstWith(hs, k).Some?
    ensures k in m.entries ==> AbsorbAllFirst(m, hs).entries[k] == m.entries[k]
    ensures k !in m.entries && FirstWith(hs, k).Some? ==>
              AbsorbAllFirst(m, hs).entries[k] == FirstWith(hs, k).value
  {
    if |hs| > 0 {
      AbsorbAllFirstEntry(m, hs[..|hs| - 1], k);
    }
  }

  /** The entries of a map as hits, in key order: what `for (const [id,
      candidate] of map)` visits. */
  function EntriesOf(keys: seq<string>, entries: map<string, Candidate>): (r: seq<Hit>)
    requires forall k :: k in keys ==> k in entries
    ensures |r| == |keys|
  {
    if |keys| == 0 then []
    else
      var k := keys[|keys| - 1];
      EntriesOf(keys[..|keys| - 1], entries) + [Hit(k, entries[k])]
  }

  lemma EntriesOfStep(keys: seq<string>, entries: map<string, Candidate>, i: nat)
    requires forall k :: k in keys ==> k in entries
    requires i < |keys|
    ensures EntriesOf(keys[..i + 1], entries) == EntriesOf(keys[..i], entries) + [Hit(keys[i], entries[keys[i]])]
  {
    assert keys[..i + 1][..i] == keys[..i];
  }

  /** Every hit for `k` in a map's entries carries the map's record for `k`. */
  lemma {:induction false} FirstWithEntries(keys: seq<string>, entries: map<string, Candidate>, k: string)
    requires forall x :: x in keys ==> x in entries
    ensures FirstWith(EntriesOf(keys, entries), k) == if k in keys then Some(entries[k]) else None
  {
    if |keys| > 0 {
      var init := keys[..|keys| - 1];
      assert forall x :: x in init ==> x in keys;
      FirstWithEntries(init, entries, k);
      assert keys == init + [keys[|keys| - 1]];
    }
  }

  /** A map lists each key once, so the sources for `k` among its entries are
      those of its record for `k`. */
  lemma {:induction false} SourcesOfEntries(keys: seq<string>, entries: map<string, Candidate>, k: string)
    requires forall x :: x in keys ==> x in entries
    requires forall i, j :: 0 <= i < j < |keys| ==> keys[i] != keys[j]
    ensures SourcesOf(EntriesOf(keys, entries), k) == if k in keys then entries[k].source else []
  {
    if |keys| > 0 {
      var init := keys[..|keys| - 1];
      var last := keys[|keys| - 1];
      assert keys == init + [last];
      assert forall x :: x in init ==> x in keys;
      var es, es0 := EntriesOf(keys, entries), EntriesOf(init, entries);
      assert es[..|es| - 1] == es0;
      assert SourcesOf(es, k) == SourcesOf(es0, k) + (if last == k then entries[last].source else []);
      SourcesOfEntries(init, entries, k);
      if last == k {
        assert k !in init by {
          forall i | 0 <= i < |init| ensures init[i] != k {
            assert keys[i] != keys[|keys| - 1];
          }
        }
      } else {
        assert k in keys <==> k in init;
      }
    }
  }

  /** The test `!known.includes(x)`, as a value. */
  function Outside(known: seq<string>): string -> bool {
    x => x !in known
  }

  /** A map lists each key once, so its new keys relative to `known` are its
      keys outside `known`, in order. */
  lemma {:induction false} NewKeysOfEntries(known: seq<string>, keys: seq<string>, entries: map<string, Candidate>)
    requires forall x :: x in keys ==> x in entries
    requires forall i, j :: 0 <= i < j < |keys| ==> keys[i] != keys[j]
    ensures NewKeys(known, EntriesOf(keys, entries)) == Filter(keys, Outside(known))
  {
    if |keys| > 0 {
      var n := |keys| - 1;
      var init := keys[..n];
      var last := keys[n];
      assert forall x :: x in init ==> x in keys;
      NewKeysOfEntries(known, init, entries);
      var hs := EntriesOf(keys, entries);
      assert hs[..n] == EntriesOf(init, entries);
      assert hs[n].id == last;
      var p := NewKeys(known, hs[..n]);
      assert last !in p by {
        forall i | 0 <= i < n ensures init[i] != last {
          assert keys[i] != keys[n];
        }
      }
      assert keys[..n + 1] == keys;
      FilterStep(keys, n, Outside(known));
    }
  }

  /** The map `main` builds from the committee map `cm` and the title-scan
      map `tm`: start empty, absorb `cm`'s entries, then `tm`'s. */
  function Merged(cm: OMap<Candidate>, tm: OMap<Candidate>): OMap<Candidate>
    requires forall k :: k in cm.keys ==> k in cm.entries
    requires forall k :: k in tm.keys ==> k in tm.entries
  {
    AbsorbAll(AbsorbAll(Empty(), EntriesOf(cm.keys, cm.entries)), EntriesOf(tm.keys, tm.entries))
  }

  /** The merge: every id of either channel once, the committee ids first in
      their order and then the title-scan ids the committee channel lacks; on
      a collision the committee record is kept and its sources are followed
      by the title-scan sources. */
  lemma MergedSpec(cm: OMap<Candidate>, tm: OMap<Candidate>)
    requires Valid(cm) && Valid(tm)
    ensures Valid(Merged(cm, tm))
    ensures Merged(cm, tm).keys == cm.keys + Filter(tm.keys, Outside(cm.keys))
    ensures forall k :: k in Merged(cm, tm).entries <==> k in cm.entries || k in tm.entries
    ensures forall k :: k in cm.entries ==>
              Merged(cm, tm).entries[k]
              == cm.entries[k].(source := cm.entries[k].source + (if k in tm.entries then tm.entries[k].source else []))
    ensures forall k :: k !in cm.entries && k in tm.entries ==> Merged(cm, tm).entries[k] == tm.entries[k]
  {
    var et := EntriesOf(tm.keys, tm.entries);
    Rebuild(cm);
    AbsorbAllValid(cm, et);
    AbsorbAllKeys(cm, et);
    NewKeysOfEntries(cm.keys, tm.keys, tm.entries);
    forall k ensures k in Merged(cm, tm).entries <==> k in cm.entries || k in tm.entries
      ensures k in cm.entries ==>
              Merged(cm, tm).entries[k]
              == cm.entries[k].(source := cm.entries[k].source + (if k in tm.entries then tm.entries[k].source else []))
      ensures k !in cm.entries && k in tm.entries ==> Merged(cm, tm).entries[k] == tm.entries[k]
    {
      AbsorbAllEntry(cm, et, k);
      FirstWithEntries(tm.keys, tm.entries, k);
      SourcesOfEntries(tm.keys, tm.entries, k);
    }
  }

  /** Absorbing a well-formed map's entries into an empty map rebuilds it. */
  lemma Rebuild(m: OMap<Candidate>)
    requires Valid(m)
    ensures AbsorbAll(Empty(), EntriesOf(m.keys, m.entries)) == m
  {
    RebuildKeys(m);
    RebuildEntries(m);
  }

  lemma RebuildKeys(m: OMap<Candidate>)
    requires Valid(m)
    ensures AbsorbAll(Empty(), EntriesOf(m.keys, m.entries)).keys == m.keys
  {
    AbsorbAllKeys(Empty(), EntriesOf(m.keys, m.entries));
    NewKeysOfEntries([], m.keys, m.entries);
    FilterAll(m.keys, Outside([]));
  }

  lemma RebuildEntries(m: OMap<Candidate>)
    requires Valid(m)
    ensures AbsorbAll(Empty(), EntriesOf(m.keys, m.entries)).entries == m.entries
  {
    var es := EntriesOf(m.keys, m.entries);
    var r := AbsorbAll(Empty(), es);
    forall k ensures k in r.entries <==> k in m.entries
      ensures k in m.entries ==> r.entries[k] == m.entries[k]
    {
      AbsorbAllEntry(Empty(), es, k);
      FirstWithEntries(m.keys, m.entries, k);
      SourcesOfEntries(m.keys, m.entries, k);
    }
  }
}
