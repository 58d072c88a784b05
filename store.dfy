/**
 * The contents of one preset file of the current version: a JSON object,
 * loaded as an insertion-ordered dict from preset key to preset record.
 * `Store` is its value; `PresetTable` is the dict object that the read cache
 * hands out and that the operations change in place.
 */
module Stores {
  import opened Common
  import opened Ramps

  /** A preset key, derived from a display name by the host. */
  type Key = string

  /** An insertion-ordered dict: the keys in insertion order, and what each maps to. */
  datatype Store = Store(order: seq<Key>, entries: map<Key, PresetDict>)

  ghost predicate Distinct(xs: seq<Key>) {
    forall i, j :: 0 <= i < j < |xs| ==> xs[i] != xs[j]
  }

  /** Each key of the dict appears exactly once in the insertion order. */
  ghost predicate WellFormed(s: Store) {
    && Distinct(s.order)
    && forall k :: k in s.entries <==> k in s.order
  }

  /** The position of `k` in `xs`: its first occurrence. */
  function IndexOf(xs: seq<Key>, k: Key): (i: nat)
    requires k in xs
    ensures i < |xs| && xs[i] == k
    ensures forall j :: 0 <= j < i ==> xs[j] != k
  {
    if xs[0] == k then 0 else 1 + IndexOf(xs[1..], k)
  }

  /** A sequence without repetitions has as many distinct elements as it is long. */
  lemma {:induction false} DistinctCardinality(xs: seq<Key>)
    requires Distinct(xs)
    ensures |set k | k in xs| == |xs|
  {
    if xs != [] {
      var rest := xs[1..];
      assert Distinct(rest) by {
        forall i, j | 0 <= i < j < |rest| ensures rest[i] != rest[j] {
          assert rest[i] == xs[i + 1] && rest[j] == xs[j + 1];
        }
      }
      DistinctCardinality(rest);
      assert xs[0] !in rest by {
        forall i | 0 <= i < |rest| ensures rest[i] != xs[0] {
          assert rest[i] == xs[i + 1];
        }
      }
      assert (set k | k in xs) == (set k | k in rest) + {xs[0]} by {
        assert xs == [xs[0]] + rest;
      }
    }
  }

  /** `len(d)`: the number of presets equals the length of the insertion order. */
  lemma SizeIsOrderLength(s: Store)
    requires WellFormed(s)
    ensures |s.entries| == |s.order|
  {
    DistinctCardinality(s.order);
    assert s.entries.Keys == set k | k in s.order;
  }

  /**
   * `d[k] = v`: the key maps to `v` afterwards and nothing else changes; an
   * existing key keeps its place in the order, a new key goes last.
   */
  function Put(s: Store, k: Key, v: PresetDict): (r: Store)
    requires WellFormed(s)
    ensures WellFormed(r)
    ensures r.entries.Keys == s.entries.Keys + {k} && r.entries[k] == v
    ensures forall j :: j in s.entries && j != k ==> r.entries[j] == s.entries[j]
    ensures k in s.entries ==> r.order == s.order
    ensures k !in s.entries ==> r.order == s.order + [k]
  {
    if k in s.entries then Store(s.order, s.entries[k := v])
    else Store(s.order + [k], s.entries[k := v])
  }

  /** Deleting position `i` of a sequence without repetitions removes exactly the element there. */
  lemma DeleteAtFacts(xs: seq<Key>, i: nat)
    requires Distinct(xs) && i < |xs|
    ensures Distinct(xs[..i] + xs[i + 1..])
    ensures forall j :: j in xs[..i] + xs[i + 1..] <==> j in xs && j != xs[i]
  {
    var ys := xs[..i] + xs[i + 1..];
    forall a, b | 0 <= a < b < |ys| ensures ys[a] != ys[b] {
      var a' := if a < i then a else a + 1;
      var b' := if b < i then b else b + 1;
      assert ys[a] == xs[a'] && ys[b] == xs[b'];
    }
    forall j ensures j in ys <==> j in xs && j != xs[i] {
      if j in ys {
        var a :| 0 <= a < |ys| && ys[a] == j;
        assert ys[a] == xs[if a < i then a else a + 1];
      }
      if j in xs && j != xs[i] {
        var a :| 0 <= a < |xs| && xs[a] == j;
        assert j == ys[if a < i then a else a - 1];
      }
    }
  }

  /**
   * `del d[k]` and `d.pop(k)`: the key is gone, every other key keeps its
   * value, and the remaining keys keep their relative order.
   */
  function Remove(s: Store, k: Key): (r: Store)
    requires WellFormed(s) && k in s.entries
    ensures WellFormed(r)
    ensures r.entries.Keys == s.entries.Keys - {k}
    ensures forall j :: j in r.entries ==> r.entries[j] == s.entries[j]
    ensures |r.order| == |s.order| - 1
    ensures exists i :: 0 <= i < |s.order| && s.order[i] == k && r.order == s.order[..i] + s.order[i + 1..]
  {
    var i := IndexOf(s.order, k);
    DeleteAtFacts(s.order, i);
    Store(s.order[..i] + s.order[i + 1..], s.entries - {k})
  }

  /** Adding a key that is absent grows the dict by one; a present key leaves the size alone. */
  lemma PutSize(s: Store, k: Key, v: PresetDict)
    requires WellFormed(s)
    ensures |Put(s, k, v).entries| == |s.entries| + (if k in s.entries then 0 else 1)
  {
    SizeIsOrderLength(s);
    SizeIsOrderLength(Put(s, k, v));
  }

  /** Removing a present key shrinks the dict by one. */
  lemma RemoveSize(s: Store, k: Key)
    requires WellFormed(s) && k in s.entries
    ensures |Remove(s, k).entries| == |s.entries| - 1
  {
    SizeIsOrderLength(s);
    SizeIsOrderLength(Remove(s, k));
  }

  // ---------------------------------------------------------------------------
  // rename_ramp_preset
  // ---------------------------------------------------------------------------

  /**
   * `rename_ramp_preset` on a dict that holds `oldKey`, as written: pop the
   * record, set its "name" to `newName`, store it under `newKey`.  Whatever was
   * stored under `newKey` before is overwritten.
   */
  function RenameStore(s: Store, oldKey: Key, newName: string, newKey: Key): (r: Store)
    requires WellFormed(s) && oldKey in s.entries
    ensures WellFormed(r)
    ensures r.entries.Keys == (s.entries.Keys - {oldKey}) + {newKey}
    ensures r.entries[newKey] == s.entries[oldKey].(name := newName)
    ensures forall j :: j in r.entries && j != newKey ==> j != oldKey && r.entries[j] == s.entries[j]
  {
    Put(Remove(s, oldKey), newKey, s.entries[oldKey].(name := newName))
  }

  /**
   * The size after a rename: unchanged, unless the new key already held a
   * different preset, which is then lost.
   */
  lemma RenameSize(s: Store, oldKey: Key, newName: string, newKey: Key)
    requires WellFormed(s) && oldKey in s.entries
    ensures |RenameStore(s, oldKey, newName, newKey).entries|
         == |s.entries| - (if newKey != oldKey && newKey in s.entries then 1 else 0)
  {
    RemoveSize(s, oldKey);
    PutSize(Remove(s, oldKey), newKey, s.entries[oldKey].(name := newName));
  }

  /**
   * The defect of `rename_ramp_preset`: renaming onto the key of another
   * preset drops that preset without any error.
   */
  lemma RenameOverwritesExisting(s: Store, oldKey: Key, newName: string, newKey: Key)
    requires WellFormed(s) && oldKey in s.entries
    requires newKey in s.entries && newKey != oldKey
    ensures var r := RenameStore(s, oldKey, newName, newKey);
      && r.entries.Keys == s.entries.Keys - {oldKey}
      && |r.entries| == |s.entries| - 1
      && r.entries[newKey] == s.entries[oldKey].(name := newName)
  {
    RenameSize(s, oldKey, newName, newKey);
  }

  /**
   * The rename the docstring describes ("same data will be saved but with a
   * different name"): an absent old key is reported as None, a new key that
   * already belongs to another preset is refused with DuplicateName, and
   * otherwise the preset moves.
   */
  function RenameChecked(s: Store, oldKey: Key, newName: string, newKey: Key): (r: Result<Option<Store>>)
    requires WellFormed(s)
    ensures r == Ok(None) <==> oldKey !in s.entries
    ensures r.Err? <==> oldKey in s.entries && newKey in s.entries && newKey != oldKey
    ensures r.Err? ==> r.error == DuplicateName
  {
    if oldKey !in s.entries then Ok(None)
    else if newKey != oldKey && newKey in s.entries then Err(DuplicateName)
    else Ok(Some(RenameStore(s, oldKey, newName, newKey)))
  }

  /**
   * The checked rename never loses a preset: when the old key is present and
   * the new key is free (or the same key), it succeeds, every other preset is
   * kept, and the size is unchanged.
   */
  lemma RenameCheckedKeepsEveryPreset(s: Store, oldKey: Key, newName: string, newKey: Key)
    requires WellFormed(s) && oldKey in s.entries
    requires newKey == oldKey || newKey !in s.entries
    ensures var c := RenameChecked(s, oldKey, newName, newKey);
      && c.Ok? && c.value.Some?
      && |c.value.value.entries| == |s.entries|
      && (forall j :: j in s.entries && j != oldKey ==> j in c.value.value.entries && c.value.value.entries[j] == s.entries[j])
      && c.value.value.entries[newKey] == s.entries[oldKey].(name := newName)
  {
    RenameSize(s, oldKey, newName, newKey);
  }

  // ---------------------------------------------------------------------------
  // The dict object
  // ---------------------------------------------------------------------------

  /** The dict object that `json.load` builds and the read cache shares with its callers. */
  class PresetTable {
    var order: seq<Key>
    var entries: map<Key, PresetDict>

    /** The value the dict holds now. */
    function Snapshot(): Store
      reads this
    {
      Store(order, entries)
    }

    ghost predicate Valid()
      reads this
    {
      WellFormed(Snapshot())
    }

    /** The dict `json.load` builds from a file holding `s`. */
    constructor Load(s: Store)
      requires WellFormed(s)
      ensures Valid() && Snapshot() == s
    {
      order := s.order;
      entries := s.entries;
    }

    /** `self[k] = v`. */
    method Set(k: Key, v: PresetDict)
      requires Valid()
      modifies this
      ensures Valid() && Snapshot() == Put(old(Snapshot()), k, v)
    {
      if k !in entries {
        order := order + [k];
      }
      entries := entries[k := v];
    }

    /** `del self[k]` (KeyError on a missing key, which no caller passes). */
    method Delete(k: Key)
      requires Valid() && k in entries
      modifies this
      ensures Valid() && Snapshot() == Remove(old(Snapshot()), k)
    {
      var i := IndexOf(order, k);
      order := order[..i] + order[i + 1..];
      entries := entries - {k};
    }

    /** `self.pop(k)` (KeyError on a missing key, which no caller passes). */
    method Pop(k: Key) returns (v: PresetDict)
      requires Valid() && k in entries
      modifies this
      ensures v == old(entries[k])
      ensures Valid() && Snapshot() == Remove(old(Snapshot()), k)
    {
      v := entries[k];
      Delete(k);
    }
  }
}
