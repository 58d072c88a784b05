/**
 * The older preset store (scripts/python/rampage.py): each preset file holds
 * a JSON list of preset records, appended to in place through the same kind
 * of read cache, with duplicates detected by exact display name.
 */
module LegacyPresets {
  import opened Common
  import opened Ramps
  import opened Paths

  /**
   * What a file of the older store holds once parsed: a list of preset
   * records, or the empty object `{}`.  `load_preset_data` seeds `{}` at the
   * presets path itself; at a preset file it comes only from a hand-written
   * file.
   */
  datatype Doc = PresetList(items: seq<PresetDict>) | EmptyObject

  /**
   * `tuple(preset["name"] for preset in preset_list)`: the names in list
   * order; iterating the empty object yields nothing.
   */
  function DocNames(doc: Doc): (names: seq<string>)
    ensures doc.PresetList? ==> |names| == |doc.items|
    ensures doc.PresetList? ==> forall i :: 0 <= i < |doc.items| ==> names[i] == doc.items[i].name
    ensures doc.EmptyObject? ==> names == []
  {
    match doc
    case EmptyObject => []
    case PresetList(items) => seq(|items|, i requires 0 <= i < |items| => items[i].name)
  }

  /**
   * The list update of the older `_add_ramp_preset_to_presets_file`: a name
   * equal, exactly and case-sensitively, to a stored "name" raises
   * ValueError; appending to the empty object fails (a dict has no append);
   * otherwise `d` is appended after the unchanged existing records.
   */
  function AppendPreset(doc: Doc, name: string, d: PresetDict): (r: Result<Doc>)
    ensures r == Err(DuplicateName) <==>
      doc.PresetList? && exists i :: 0 <= i < |doc.items| && doc.items[i].name == name
    ensures r == Err(NotAList) <==> doc.EmptyObject?
    ensures r.Ok? <==> doc.PresetList? && name !in DocNames(doc)
    ensures r.Ok? ==> && doc.PresetList? && r.value.PresetList?
                      && |r.value.items| == |doc.items| + 1
                      && r.value.items[..|doc.items|] == doc.items
                      && r.value.items[|doc.items|] == d
  {
    if name in DocNames(doc) then Err(DuplicateName)
    else if doc.EmptyObject? then Err(NotAList)
    else Ok(PresetList(doc.items + [d]))
  }

  /**
   * The duplicate test compares display names exactly: two names that differ
   * (even only by case) never block each other, whatever key the host would
   * derive from them.
   */
  lemma DistinctNamesBothAppend(items: seq<PresetDict>, n1: string, d1: PresetDict, n2: string, d2: PresetDict)
    requires forall i :: 0 <= i < |items| ==> items[i].name != n1 && items[i].name != n2
    requires d1.name == n1 && n1 != n2
    ensures var once := AppendPreset(PresetList(items), n1, d1);
      && once == Ok(PresetList(items + [d1]))
      && AppendPreset(once.value, n2, d2) == Ok(PresetList(items + [d1] + [d2]))
  {
    var after := items + [d1];
    assert forall i :: 0 <= i < |after| ==> after[i].name != n2;
    assert n2 !in DocNames(PresetList(after));
  }

  /**
   * The loop of the older `create_menu_strip`: for each record in list order,
   * the host-encoded name (`hou.text.encodeParm`) as the token and then the
   * name itself; the empty object yields no items.
   */
  method MenuItems(doc: Doc, encodeParm: string -> string) returns (items: seq<string>)
    ensures doc.EmptyObject? ==> items == []
    ensures doc.PresetList? ==>
      && |items| == 2 * |doc.items|
      && forall i :: 0 <= i < |doc.items| ==>
           items[2 * i] == encodeParm(doc.items[i].name) && items[2 * i + 1] == doc.items[i].name
  {
    items := [];
    if doc.EmptyObject? {
      return;
    }
    var presets := doc.items;
    for i := 0 to |presets|
      invariant |items| == 2 * i
      invariant forall j :: 0 <= j < i ==>
        items[2 * j] == encodeParm(presets[j].name) && items[2 * j + 1] == presets[j].name
    {
      var name := presets[i].name;
      var parmName := encodeParm(name);
      items := items + [parmName, name];
    }
  }

  /** The parsed document object that the older read cache shares with its callers. */
  class CachedDoc {
    var doc: Doc

    constructor Load(d: Doc)
      ensures doc == d
    {
      doc := d;
    }

    /** `preset_list.append(d)` on a list. */
    method Append(d: PresetDict)
      requires doc.PresetList?
      modifies this
      ensures doc == PresetList(old(doc).items + [d])
    {
      doc := PresetList(doc.items + [d]);
    }
  }

  /**
   * The files of the older store and its `_read_preset_file` lru_cache.
   * `encodeParm` is the host's `hou.text.encodeParm`, left uninterpreted.
   */
  class LegacyStore {
    var disk: map<Path, Doc>
    var cache: map<Path, CachedDoc>
    const encodeParm: string -> string

    /** Every cached document holds exactly what its file holds, and no two paths share one. */
    ghost predicate Valid()
      reads this, cache.Values
    {
      && (forall p :: p in cache ==> p in disk && cache[p].doc == disk[p])
      && (forall p, q :: p in cache && q in cache && p != q ==> cache[p] != cache[q])
    }

    /**
     * The cache after the older `_read_preset_file(path)` starting from
     * `before`: a file that exists is cached (keeping the document already
     * cached for it), every other entry stays; a missing file changes nothing.
     */
    ghost predicate CachedAfterRead(before: map<Path, CachedDoc>, path: Path)
      reads this
    {
      && (path in disk ==> && path in cache && cache == before[path := cache[path]]
                           && (path in before ==> cache[path] == before[path]))
      && (path !in disk ==> cache == before)
    }

    constructor (files: map<Path, Doc>, encodeParm: string -> string)
      ensures Valid() && disk == files && cache == map[] && this.encodeParm == encodeParm
    {
      disk := files;
      cache := map[];
      this.encodeParm := encodeParm;
    }

    /** The older `_read_preset_file` (lru_cache): shared object on a hit, fresh on a miss, null for a missing file. */
    method Read(path: Path) returns (c: CachedDoc?)
      requires Valid()
      modifies this
      ensures Valid() && disk == old(disk)
      ensures c == null <==> path !in disk
      ensures c == null ==> cache == old(cache)
      ensures c != null ==> path in cache && cache[path] == c && c.doc == disk[path]
      ensures path in old(cache) ==> c == old(cache[path]) && cache == old(cache)
      ensures c != null && path !in old(cache) ==> fresh(c) && cache == old(cache)[path := c]
      ensures CachedAfterRead(old(cache), path)
    {
      if path in cache {
        c := cache[path];
        return;
      }
      if path !in disk {
        c := null;
        return;
      }
      c := new CachedDoc.Load(disk[path]);
      cache := cache[path := c];
    }

    /**
     * `load_preset_data`: the file named by RAMPAGE_PRESETS_PATH is seeded
     * with `{}` when it does not exist, and then read (bypassing the cache).
     */
    method LoadPresetData(envPath: Path) returns (doc: Doc)
      requires Valid()
      modifies this
      ensures Valid() && cache == old(cache)
      ensures envPath !in old(disk) ==> disk == old(disk)[envPath := EmptyObject] && doc == EmptyObject
      ensures envPath in old(disk) ==> disk == old(disk) && doc == disk[envPath]
    {
      if envPath !in disk {
        disk := disk[envPath := EmptyObject];   // path.write_text("{}")
      }
      doc := disk[envPath];
    }

    /**
     * The older `_add_ramp_preset_to_presets_file(parm, name)` with presets
     * directory `dir`: TypeError on a non-ramp parameter (by template name),
     * FileNotFoundError on a missing file, and the failures of
     * `AppendPreset`, each leaving every file unchanged; otherwise the list
     * gains the new record at its end, is written to a temporary file that
     * replaces the target, and the cache is cleared.
     */
    method Add(parm: Parm, name: string, dir: string) returns (r: Outcome, ghost temp: Path)
      requires Valid()
      modifies this, cache.Values
      ensures Valid()
      ensures forall p :: p in old(cache) && p != PresetFilePath(dir, parm.parmType) ==> unchanged(old(cache)[p])
      ensures var path := PresetFilePath(dir, parm.parmType);
        && (r.Fail? && path in old(cache) ==> unchanged(old(cache)[path]))
        && (!LegacyIsRampParm(parm) ==> r == Fail(NotRampParameter) && disk == old(disk) && cache == old(cache))
        && (LegacyIsRampParm(parm) && path !in old(disk) ==> r == Fail(FileNotFound) && disk == old(disk) && cache == old(cache))
        && (LegacyIsRampParm(parm) && path in old(disk) ==>
              var appended := AppendPreset(old(disk)[path], name, ToDict(FromParm(true, parm, name).value));
              && (appended.Err? ==> r == Fail(appended.error) && disk == old(disk) && CachedAfterRead(old(cache), path))
              && (appended.Ok? ==>
                    && r == Pass && cache == map[] && IsTempFor(temp, path)
                    && disk == (old(disk) - {temp})[path := appended.value]
                    && (path in old(cache) ==> old(cache)[path].doc == appended.value)))
    {
      temp := "";
      var preset := FromParm(LegacyIsRampParm(parm), parm, name);
      if preset.Err? {
        r := Fail(preset.error);
        return;
      }
      var path := PresetFilePath(dir, parm.parmType);
      var c := Read(path);
      if c == null {
        r := Fail(FileNotFound);
        return;
      }
      if name in DocNames(c.doc) {
        r := Fail(DuplicateName);
        return;
      }
      if c.doc.EmptyObject? {
        r := Fail(NotAList);
        return;
      }
      c.Append(ToDict(preset.value));
      var suffix := RandomSuffix(7);
      var tempPath := path + "." + suffix;
      TempNameShape(path, suffix);
      disk := disk[tempPath := c.doc];             // json.dump into the temporary file
      disk := (disk - {tempPath})[path := c.doc];  // os.replace(temp, path)
      cache := map[];                              // _read_preset_file.cache_clear()
      temp := tempPath;
      r := Pass;
    }

    /**
     * The older `create_menu_strip`: no items unless exactly one parameter is
     * selected; otherwise the menu items of that parameter's preset file.
     */
    method CreateMenuStrip(parms: seq<Parm>, dir: string) returns (r: Result<seq<string>>)
      requires Valid()
      modifies this
      ensures Valid() && disk == old(disk)
      ensures |parms| != 1 ==> r == Ok([]) && cache == old(cache)
      ensures |parms| == 1 ==>
        var path := PresetFilePath(dir, parms[0].parmType);
        && CachedAfterRead(old(cache), path)
        && (path !in disk ==> r == Err(FileNotFound))
        && (path in disk && disk[path].EmptyObject? ==> r == Ok([]))
        && (path in disk && disk[path].PresetList? ==>
              var items := disk[path].items;
              && r.Ok? && |r.value| == 2 * |items|
              && forall i :: 0 <= i < |items| ==>
                   r.value[2 * i] == encodeParm(items[i].name) && r.value[2 * i + 1] == items[i].name)
    {
      if |parms| == 0 {
        return Ok([]);
      }
      if |parms| > 1 {
        return Ok([]);
      }
      var path := PresetFilePath(dir, parms[0].parmType);
      var c := Read(path);
      if c == null {
        return Err(FileNotFound);
      }
      var items := MenuItems(c.doc, encodeParm);
      r := Ok(items);
    }
  }
}
