/**
 * The preset store of the current version: one JSON object per ramp type on
 * disk, read through an lru_cache that hands every caller the same dict
 * object, and changed by add, replace, remove and rename, each followed by a
 * safe save (temporary file, replace, cache clear).
 */
module PresetFiles {
  import opened Common
  import opened Ramps
  import opened Stores
  import opened Paths

  // ---------------------------------------------------------------------------
  // Pure parts: what each operation does to the contents of one preset file
  // ---------------------------------------------------------------------------

  /**
   * The dict update of `_add_ramp_preset_to_presets_file`: a key that is
   * already present raises ValueError and changes nothing; otherwise exactly
   * one entry, `key -> d`, is added at the end and every other entry is kept.
   */
  function AddEntry(s: Store, key: Key, d: PresetDict): (r: Result<Store>)
    requires WellFormed(s)
    ensures r.Err? <==> key in s.entries
    ensures r.Err? ==> r.error == DuplicateName
    ensures r.Ok? ==> && WellFormed(r.value)
                      && r.value.entries.Keys == s.entries.Keys + {key}
                      && r.value.entries[key] == d
                      && (forall j :: j in s.entries ==> r.value.entries[j] == s.entries[j])
                      && r.value.order == s.order + [key]
  {
    if key in s.entries then Err(DuplicateName) else Ok(Put(s, key, d))
  }

  /** A successful add grows the file by exactly one preset. */
  lemma AddGrowsByOne(s: Store, key: Key, d: PresetDict)
    requires WellFormed(s) && AddEntry(s, key, d).Ok?
    ensures |AddEntry(s, key, d).value.entries| == |s.entries| + 1
  {
    PutSize(s, key, d);
  }

  /**
   * The dict update of `replace_preset` for the chosen key: the preset is
   * re-captured from the parameter under its stored name (an empty stored name
   * falls back to the parameter's name), so the keys and their order stay as
   * they are, the chosen entry takes the parameter's ramp, and every other entry
   * is untouched.  A parameter that is not a ramp raises TypeError.
   */
  function ReplaceEntry(s: Store, key: Key, parm: Parm): (r: Result<Store>)
    requires WellFormed(s) && key in s.entries
    ensures r.Ok? <==> IsRampParm(parm)
    ensures r.Err? ==> r.error == NotRampParameter
    ensures r.Ok? ==> && WellFormed(r.value)
                      && r.value.order == s.order
                      && r.value.entries.Keys == s.entries.Keys
                      && r.value.entries[key].name == PresetName(parm, s.entries[key].name)
                      && r.value.entries[key].rampType == (if parm.ramp.isColor then "color" else "float")
                      && r.value.entries[key].keys == parm.ramp.keys
                      && r.value.entries[key].values == parm.ramp.values
                      && r.value.entries[key].basis == parm.ramp.basisNames
                      && (forall j :: j in s.entries && j != key ==> r.value.entries[j] == s.entries[j])
  {
    match FromParm(IsRampParm(parm), parm, s.entries[key].name)
    case Err(e) => Err(e)
    case Ok(p) => Ok(Put(s, key, ToDict(p)))
  }

  /**
   * The lookup of `set_ramp_parm_from_chosen_ramp_preset`: a token that is not
   * a key is a no-op (None); a key yields the preset built by `from_dict`,
   * which is exactly the stored record, or the ValueError of an unknown ramp
   * type tag.
   */
  function LookupPreset(s: Store, token: Key): (r: Result<Option<RampPreset>>)
    ensures token !in s.entries ==> r == Ok(None)
    ensures token in s.entries ==> (r.Ok? <==> s.entries[token].rampType in {"float", "color"})
    ensures r.Ok? ==> (r.value.Some? <==> token in s.entries)
    ensures r.Err? ==> r.error == UnknownRampType
    ensures r.Ok? && r.value.Some? ==> token in s.entries && ToDict(r.value.value) == s.entries[token]
  {
    if token !in s.entries then Ok(None)
    else match FromDict(s.entries[token])
      case Err(e) => Err(e)
      case Ok(p) => Ok(Some(p))
  }

  /**
   * Add, then apply the new key from the menu: the preset that comes back is
   * the one captured when it was added.
   */
  lemma AddThenLookup(s: Store, key: Key, p: RampPreset)
    requires WellFormed(s) && key !in s.entries
    ensures LookupPreset(AddEntry(s, key, ToDict(p)).value, key) == Ok(Some(p))
  {
    FromDictToDict(p);
  }

  /** Two names with the same key: the second add fails, and the first one's entry stays. */
  lemma SecondAddWithSameKeyFails(s: Store, key: Key, d1: PresetDict, d2: PresetDict)
    requires WellFormed(s) && key !in s.entries
    ensures var s1 := AddEntry(s, key, d1).value;
      AddEntry(s1, key, d2) == Err(DuplicateName) && s1.entries[key] == d1
  {
  }

  /** After a remove, applying the removed key is a no-op. */
  lemma RemoveThenLookup(s: Store, key: Key)
    requires WellFormed(s) && key in s.entries
    ensures LookupPreset(Stores.Remove(s, key), key) == Ok(None)
  {
  }

  /** The display names the selection dialog lists: each preset's "name", in dict order. */
  function ShownNames(s: Store): (names: seq<string>)
    requires WellFormed(s)
    ensures |names| == |s.order|
    ensures forall i :: 0 <= i < |s.order| ==> names[i] == s.entries[s.order[i]].name
  {
    seq(|s.order|, i requires 0 <= i < |s.order| => s.entries[s.order[i]].name)
  }

  /**
   * `_user_choice_selection_from_preset_list`: no choice gives None; choice `i`
   * gives the key whose name was shown at position `i`, and no other row of
   * the list has that key.
   */
  function SelectKey(s: Store, choice: Option<nat>): (r: Option<Key>)
    requires WellFormed(s)
    requires choice.Some? ==> choice.value < |s.order|
    ensures r.None? <==> choice.None?
    ensures r.Some? ==> && r.value in s.entries
                        && s.entries[r.value].name == ShownNames(s)[choice.value]
                        && (forall j :: 0 <= j < |s.order| && s.order[j] == r.value ==> j == choice.value)
  {
    match choice
    case None => None
    case Some(i) => Some(s.order[i])
  }

  /** `if not key: return`: no selection, or the empty key, counts as cancelled. */
  predicate Cancelled(key: Option<Key>) {
    key.None? || key.value == ""
  }

  /**
   * Replace and remove give up exactly when nothing was chosen or the chosen
   * row holds the empty key; so a preset stored under the empty key can be
   * neither replaced nor removed, while every other row can be.
   */
  lemma CancelledSelection(s: Store, choice: Option<nat>)
    requires WellFormed(s)
    requires choice.Some? ==> choice.value < |s.order|
    ensures Cancelled(SelectKey(s, choice)) <==> choice.None? || s.order[choice.value] == ""
    ensures "" in s.entries ==> Cancelled(SelectKey(s, Some(IndexOf(s.order, ""))))
  {
  }

  /**
   * The loop of `create_menu_strip`: for each key in dict order, the key
   * (the token) and then its display name.  Every token is a key of the
   * file, so applying a token from the strip is never a no-op.
   */
  method MenuItems(s: Store) returns (items: seq<string>)
    requires WellFormed(s)
    ensures |items| == 2 * |s.order|
    ensures forall i :: 0 <= i < |s.order| ==>
      && items[2 * i] == s.order[i] && items[2 * i] in s.entries
      && items[2 * i + 1] == s.entries[s.order[i]].name
  {
    items := [];
    for i := 0 to |s.order|
      invariant |items| == 2 * i
      invariant forall j :: 0 <= j < i ==>
        items[2 * j] == s.order[j] && items[2 * j + 1] == s.entries[s.order[j]].name
    {
      var key := s.order[i];
      var name := s.entries[key].name;
      items := items + [key, name];
    }
  }

  // ---------------------------------------------------------------------------
  // The stateful part: the files on disk and the read cache
  // ---------------------------------------------------------------------------

  /**
   * The preset files (path to contents) and the lru_cache of
   * `_read_preset_file` (path to the dict object it returned).  `keyOf` is
   * the host's `hou.text.alphaNumeric(name.lower())`, left uninterpreted.
   */
  class PresetStore {
    var disk: map<Path, Store>
    var cache: map<Path, PresetTable>
    const keyOf: string -> Key

    ghost predicate DiskValid()
      reads this
    {
      forall p :: p in disk ==> WellFormed(disk[p])
    }

    /** Every cached dict holds exactly what its file holds, and no two paths share a dict. */
    ghost predicate Valid()
      reads this, cache.Values
    {
      && DiskValid()
      && (forall p :: p in cache ==> p in disk && cache[p].Valid() && cache[p].Snapshot() == disk[p])
      && (forall p, q :: p in cache && q in cache && p != q ==> cache[p] != cache[q])
    }

    /**
     * The cache after `_read_preset_file(path)` starting from `before`: a file
     * that exists is cached (keeping the dict already cached for it), every
     * other entry stays; a missing file leaves the cache as it was.
     */
    ghost predicate CachedAfterRead(before: map<Path, PresetTable>, path: Path)
      reads this
    {
      && (path in disk ==> && path in cache && cache == before[path := cache[path]]
                           && (path in before ==> cache[path] == before[path]))
      && (path !in disk ==> cache == before)
    }

    constructor (files: map<Path, Store>, keyOf: string -> Key)
      requires forall p :: p in files ==> WellFormed(files[p])
      ensures Valid() && disk == files && cache == map[] && this.keyOf == keyOf
    {
      disk := files;
      cache := map[];
      this.keyOf := keyOf;
    }

    /**
     * `_read_preset_file` (lru_cache): a hit returns the very dict object an
     * earlier call returned; a miss loads the file and caches a fresh dict; a
     * missing file raises FileNotFoundError (null here).
     */
    method Read(path: Path) returns (t: PresetTable?)
      requires Valid()
      modifies this
      ensures Valid() && disk == old(disk)
      ensures t == null <==> path !in disk
      ensures t == null ==> cache == old(cache)
      ensures t != null ==> path in cache && cache[path] == t && t.Snapshot() == disk[path]
      ensures path in old(cache) ==> t == old(cache[path]) && cache == old(cache)
      ensures t != null && path !in old(cache) ==> fresh(t) && cache == old(cache)[path := t]
      ensures CachedAfterRead(old(cache), path)
    {
      if path in cache {
        t := cache[path];
        return;
      }
      if path !in disk {
        t := null;
        return;
      }
      t := new PresetTable.Load(disk[path]);
      cache := cache[path := t];
    }

    /**
     * `_safe_save_preset_file`: write the data to `path + "." + suffix`
     * (seven random characters), replace `path` with that file, clear the
     * read cache.  Afterwards `path` holds exactly `data`, the temporary file
     * is gone, and the next read of `path` loads `data`.
     */
    method SafeSave(path: Path, data: Store) returns (ghost temp: Path)
      requires DiskValid() && WellFormed(data)
      modifies this
      ensures Valid() && cache == map[]
      ensures IsTempFor(temp, path)
      ensures disk == (old(disk) - {temp})[path := data]
    {
      var suffix := RandomSuffix(7);
      var tempPath := path + "." + suffix;
      TempNameShape(path, suffix);
      disk := disk[tempPath := data];             // json.dump into the temporary file
      disk := (disk - {tempPath})[path := data];  // os.replace(temp, path)
      cache := map[];                             // _read_preset_file.cache_clear()
      temp := tempPath;
    }

    /**
     * `_add_ramp_preset_to_presets_file(parm, name)` with presets directory
     * `dir`.  TypeError on a non-ramp parameter, FileNotFoundError on a
     * missing file, ValueError on a key already present; each leaves every
     * file unchanged.  Otherwise the file gains the entry `keyOf(name)` as
     * `AddEntry` describes and the cache is cleared.
     */
    method Add(parm: Parm, name: string, dir: string) returns (r: Outcome, ghost temp: Path)
      requires Valid()
      modifies this, cache.Values
      ensures Valid()
      ensures forall p :: p in old(cache) && p != PresetFilePath(dir, parm.parmType) ==> unchanged(old(cache)[p])
      ensures var path := PresetFilePath(dir, parm.parmType);
        && (r.Fail? && path in old(cache) ==> unchanged(old(cache)[path]))
        && (!IsRampParm(parm) ==> r == Fail(NotRampParameter) && disk == old(disk) && cache == old(cache))
        && (IsRampParm(parm) && path !in old(disk) ==> r == Fail(FileNotFound) && disk == old(disk) && cache == old(cache))
        && (IsRampParm(parm) && path in old(disk) ==>
              var added := AddEntry(old(disk)[path], keyOf(name), ToDict(FromParm(true, parm, name).value));
              && (added.Err? ==> r == Fail(added.error) && disk == old(disk) && CachedAfterRead(old(cache), path))
              && (added.Ok? ==>
                    && r == Pass && cache == map[] && IsTempFor(temp, path)
                    && disk == (old(disk) - {temp})[path := added.value]
                    && (path in old(cache) ==> old(cache)[path].Snapshot() == added.value)))
    {
      temp := "";
      var preset := FromParm(IsRampParm(parm), parm, name);
      if preset.Err? {
        r := Fail(preset.error);
        return;
      }
      var key := keyOf(name);
      var path := PresetFilePath(dir, parm.parmType);
      var t := Read(path);
      if t == null {
        r := Fail(FileNotFound);
        return;
      }
      if key in t.entries {
        r := Fail(DuplicateName);
        return;
      }
      t.Set(key, ToDict(preset.value));
      temp := SafeSave(path, t.Snapshot());
      r := Pass;
    }

    /**
     * `replace_preset`: read the file, let the user choose (`choice` is the
     * index `hou.ui.selectFromList` returns, None when cancelled).  A
     * cancelled choice or the empty key writes nothing; otherwise the chosen
     * entry is re-captured as `ReplaceEntry` describes and the file saved.
     */
    method Replace(parm: Parm, dir: string, choice: Option<nat>) returns (r: Outcome, ghost temp: Path)
      requires Valid()
      requires var path := PresetFilePath(dir, parm.parmType);
        path in disk && choice.Some? ==> choice.value < |disk[path].order|
      modifies this, cache.Values
      ensures Valid()
      ensures forall p :: p in old(cache) && p != PresetFilePath(dir, parm.parmType) ==> unchanged(old(cache)[p])
      ensures var path := PresetFilePath(dir, parm.parmType);
        && (path !in old(disk) ==> r == Fail(FileNotFound) && disk == old(disk) && cache == old(cache))
        && (path in old(disk) ==>
              var key := SelectKey(old(disk)[path], choice);
              var written := !Cancelled(key) && ReplaceEntry(old(disk)[path], key.value, parm).Ok?;
              && (!written ==> CachedAfterRead(old(cache), path) && (path in old(cache) ==> unchanged(old(cache)[path])))
              && (Cancelled(key) ==> r == Pass && disk == old(disk))
              && (!Cancelled(key) ==>
                    var replaced := ReplaceEntry(old(disk)[path], key.value, parm);
                    && (replaced.Err? ==> r == Fail(replaced.error) && disk == old(disk))
                    && (replaced.Ok? ==>
                          && r == Pass && cache == map[] && IsTempFor(temp, path)
                          && disk == (old(disk) - {temp})[path := replaced.value]
                          && (path in old(cache) ==> old(cache)[path].Snapshot() == replaced.value))))
    {
      temp := "";
      var path := PresetFilePath(dir, parm.parmType);
      var t := Read(path);
      if t == null {
        r := Fail(FileNotFound);
        return;
      }
      var key := SelectKey(t.Snapshot(), choice);
      if Cancelled(key) {
        r := Pass;
        return;
      }
      var preset := FromParm(IsRampParm(parm), parm, t.entries[key.value].name);
      if preset.Err? {
        r := Fail(preset.error);
        return;
      }
      t.Set(key.value, ToDict(preset.value));
      temp := SafeSave(path, t.Snapshot());
      r := Pass;
    }

    /**
     * `remove_preset`: read the file and let the user choose.  A cancelled
     * choice or the empty key writes nothing; otherwise the chosen key is
     * deleted and the file saved.
     */
    method Remove(parm: Parm, dir: string, choice: Option<nat>) returns (r: Outcome, ghost temp: Path)
      requires Valid()
      requires var path := PresetFilePath(dir, parm.parmType);
        path in disk && choice.Some? ==> choice.value < |disk[path].order|
      modifies this, cache.Values
      ensures Valid()
      ensures forall p :: p in old(cache) && p != PresetFilePath(dir, parm.parmType) ==> unchanged(old(cache)[p])
      ensures var path := PresetFilePath(dir, parm.parmType);
        && (path !in old(disk) ==> r == Fail(FileNotFound) && disk == old(disk) && cache == old(cache))
        && (path in old(disk) ==>
              var key := SelectKey(old(disk)[path], choice);
              && r == Pass
              && (Cancelled(key) ==>
                    && disk == old(disk) && CachedAfterRead(old(cache), path)
                    && (path in old(cache) ==> unchanged(old(cache)[path])))
              && (!Cancelled(key) ==>
                    var removed := Stores.Remove(old(disk)[path], key.value);
                    && cache == map[] && IsTempFor(temp, path)
                    && disk == (old(disk) - {temp})[path := removed]
                    && (path in old(cache) ==> old(cache)[path].Snapshot() == removed)))
    {
      temp := "";
      var path := PresetFilePath(dir, parm.parmType);
      var t := Read(path);
      if t == null {
        r := Fail(FileNotFound);
        return;
      }
      var key := SelectKey(t.Snapshot(), choice);
      r := Pass;
      if Cancelled(key) {
        return;
      }
      t.Delete(key.value);
      temp := SafeSave(path, t.Snapshot());
    }

    /**
     * `create_menu_strip`: no items unless exactly one parameter is
     * selected; otherwise the menu items of that parameter's preset file.
     */
    method CreateMenuStrip(parms: seq<Parm>, dir: string) returns (r: Result<seq<string>>)
      requires Valid()
      modifies this
      ensures Valid() && disk == old(disk)
      ensures |parms| != 1 ==> r == Ok([]) && cache == old(cache)
      ensures |parms| == 1 ==>
        var path := PresetFilePath(dir, parms[0].parmType);
        && CachedAfterRead(old(cache), path)
        && (path !in disk ==> r == Err(FileNotFound))
        && (path in disk ==> && r.Ok?
                             && |r.value| == 2 * |disk[path].order|
                             && forall i :: 0 <= i < |disk[path].order| ==>
                                  && r.value[2 * i] == disk[path].order[i]
                                  && r.value[2 * i + 1] == disk[path].entries[disk[path].order[i]].name)
    {
      if |parms| == 0 {
        return Ok([]);
      }
      if |parms| > 1 {
        return Ok([]);
      }
      var path := PresetFilePath(dir, parms[0].parmType);
      var t := Read(path);
      if t == null {
        return Err(FileNotFound);
      }
      var items := MenuItems(t.Snapshot());
      r := Ok(items);
    }

    /**
     * The lookup part of `set_ramp_parm_from_chosen_ramp_preset`: the preset
     * the menu token selects in the parameter's preset file, as
     * `LookupPreset` describes (setting the parameter is the host's).
     */
    method ChosenPreset(parm: Parm, dir: string, token: string) returns (r: Result<Option<RampPreset>>)
      requires Valid()
      modifies this
      ensures Valid() && disk == old(disk)
      ensures var path := PresetFilePath(dir, parm.parmType);
        && CachedAfterRead(old(cache), path)
        && (path !in disk ==> r == Err(FileNotFound))
        && (path in disk ==> r == LookupPreset(disk[path], token))
    {
      var path := PresetFilePath(dir, parm.parmType);
      var t := Read(path);
      if t == null {
        return Err(FileNotFound);
      }
      r := LookupPreset(t.Snapshot(), token);
    }
  }

  /**
   * `rename_ramp_preset(old_name, new_name, preset_dict)`, which changes the
   * dict in place: an absent old key returns None and leaves the dict alone;
   * otherwise the dict becomes `RenameStore` of what it was (overwriting any
   * preset already at the new key) and is returned.
   */
  method RenameRampPreset(oldName: Key, newName: string, keyOf: string -> Key, t: PresetTable)
    returns (r: PresetTable?)
    requires t.Valid()
    modifies t
    ensures t.Valid()
    ensures r == null <==> oldName !in old(t.entries)
    ensures r == null ==> t.Snapshot() == old(t.Snapshot())
    ensures r != null ==> r == t && t.Snapshot() == RenameStore(old(t.Snapshot()), oldName, newName, keyOf(newName))
  {
    if oldName !in t.entries {
      return null;
    }
    var preset := t.Pop(oldName);
    preset := preset.(name := newName);
    var keyName := keyOf(newName);
    t.Set(keyName, preset);
    r := t;
  }
}
