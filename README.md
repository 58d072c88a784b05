# Rampage preset store, modelled in Dafny

Rampage is a Houdini plugin that saves the state of a float or colour ramp
parameter as a named preset. It lists the presets in a menu and applies a chosen
one back to a ramp. It can also replace, remove or rename a stored preset. This
project models the plugin's preset store in two versions.

**Current version** (`scripts/python/rampage/rampage.py`):

- There is one JSON object per ramp type, at `<dir>/float.json` or `<dir>/color.json`.
- Each object maps a preset key to a preset record.
- The key is the host's `hou.text.alphaNumeric(name.lower())`.
- Files are read through an `lru_cache`. On a cache hit, every caller gets the
  same dict object, and add, replace and remove change that object in place.
- Every write is a safe save: write a temporary file named `path + "." +` seven
  random characters, replace the target with it, and clear the read cache.

**Older version** (`scripts/python/rampage.py`):

- Each file holds a JSON list of preset records.
- Add appends to the cached list.
- Duplicates are found by comparing display names exactly.

Modules:

- `Common` (common.dfy): `Option`, `Result`, `Outcome` and the error conditions.
  The errors are TypeError on a non-ramp parameter, ValueError on an unknown
  ramp type tag, ValueError on a duplicate name, FileNotFoundError, and the
  failed `append` of the older store.
- `Ramps` (ramp_preset.dfy): `RampPreset` and the record stored for it
  (`to_dict`/`from_dict`). Also the host parameter reduced to what the store
  consults (template type and name, ramp parameter type, current ramp), plus
  `from_parm` and the menu visibility test.
- `Stores` (store.dfy): the contents of a file of the current version as an
  insertion-ordered dict.
  - `Store` has the keys in insertion order and the map from key to record.
  - `Put` models `d[k] = v` and `Remove` models `del`/`pop`.
  - `PresetTable` is the dict object itself. The cache shares it, and the
    operations change it in place.
  - `RenameStore` and `RenameChecked` are the rename logic.
- `Paths` (paths.dfy): the preset file path for a ramp type, the random suffix
  (each character a free choice from `[a-z0-9]`) and the shape of a temporary
  file name.
- `PresetFiles` (preset_files.dfy): the current version.
  - The pure update of each operation: `AddEntry`, `ReplaceEntry`,
    `LookupPreset`, `SelectKey` and `MenuItems`.
  - The class `PresetStore`, which holds `disk` (path to file contents) and
    `cache` (path to the shared dict object). Its methods `Read`, `SafeSave`,
    `Add`, `Replace`, `Remove`, `CreateMenuStrip` and `ChosenPreset` are proved
    against those updates. `Valid()` says that every cached dict holds what its
    file holds. Every method keeps `Valid()`. A path that writes nothing leaves
    the cache as the read left it, and leaves every cached dict untouched.
    A successful write ends with an empty cache. The dict that was cached
    before the write, and that other callers may still hold, now holds the
    new contents.
  - The method `RenameRampPreset`, the in-place rename.
- `LegacyPresets` (legacy.dfy): the older version. It has the list update
  `AppendPreset`, the menu loop, and the class `LegacyStore` with `Read`,
  `LoadPresetData`, `Add` and `CreateMenuStrip`.

The host is modelled as inputs:

- The key function (`hou.text.alphaNumeric` after `lower()`) and
  `hou.text.encodeParm` are function-valued constants of the store classes.
  Nothing is assumed about them.
- The presets directory is a parameter, standing in for `RAMPAGE_PRESETS_PATH`.
- The list selection is an optional index.
- The captured ramp is a field of the parameter.

Edge cases the model keeps as the code has them:

- The length check in `RampPreset.__init__` builds a ValueError but never
  raises it, so every preset is accepted (`ConstructorAcceptsAnyLengths`).
  Python also reads the chained test `a != b != c` as `a != b and b != c`, so
  even a raised error would miss lengths such as (1, 1, 0).
- `from_parm` falls back to the parameter's name when the given name is empty.
  The key is still derived from the empty name. Replace re-captures under the
  stored name, so a preset stored with an empty name takes the parameter's name.
- Replace and remove treat the empty key like a cancelled selection. A preset
  stored under the empty key can be neither replaced nor removed.
- `rename_ramp_preset` overwrites an existing entry at the new key. See Findings.

Missing files and seeding:

- The current version's `_read_preset_file` raises FileNotFoundError on a
  missing file and seeds nothing.
- Only the older `load_preset_data` seeds `{}`, and it does so at the path named
  by `RAMPAGE_PRESETS_PATH` itself, never at a preset file under it.

## Model

| member | source | states |
|---|---|---|
| Ramps.TypeTag | scripts/python/rampage/rampage.py:15-18 | a ramp type's tag is "float" or "color", and "color" exactly for COLOR |
| Ramps.ParseType | scripts/python/rampage/rampage.py:66 | `RampType(tag)` succeeds exactly on "float"/"color", and gives back the type with that tag; otherwise fails with UnknownRampType (ValueError) |
| Ramps.ConstructorAcceptsAnyLengths | scripts/python/rampage/rampage.py:48-54 | the constructor keeps the five fields exactly as given and never rejects mismatched lengths; the chained guard fires only on lengths that disagree, and misses exactly the lengths where one of the two compared pairs is equal and the other is not |
| Ramps.ToDict | scripts/python/rampage/rampage.py:76-88 | `to_dict` always writes a valid ramp type tag |
| Ramps.FromDict | scripts/python/rampage/rampage.py:56-74 | `from_dict` succeeds exactly when the tag is "float"/"color" (otherwise UnknownRampType), and then `to_dict` of its result is the input record |
| Ramps.FromDictToDict | scripts/python/rampage.py:37-56 | `from_dict(to_dict(p)) == p`: name, ramp type, basis, keys and values all survive, in both versions |
| Ramps.PresetName | scripts/python/rampage/rampage.py:109-110 | a non-empty name is kept as the preset's name; an empty name is replaced by the parameter's name |
| Ramps.FromRamp | scripts/python/rampage/rampage.py:113-126 | `from_ramp` gives a COLOR preset exactly for a colour ramp, under the given name, with the ramp's basis names, keys and values |
| Ramps.IsRampParm | scripts/python/rampage/rampage.py:164-173 | the current `is_ramp_parm` accepts a parameter exactly when `should_display_rampage_menu` shows the menu for it alone |
| Ramps.LegacyMenuAndRampTestDisagree | scripts/python/rampage.py:94-95 | the older `is_ramp_parm` (template name "ramp") and the menu test (template type Ramp, lines 111-124) disagree both ways: a shown menu can end in TypeError on add, and a hidden one can hide an acceptable parameter |
| Ramps.FromParm | scripts/python/rampage/rampage.py:90-126 | `from_parm` fails with NotRampParameter exactly on a non-ramp parameter; otherwise the preset has the fallback name, COLOR exactly for a colour ramp, and the ramp's basis names, keys and values |
| Ramps.ShouldDisplayMenu | scripts/python/rampage/rampage.py:181-202 | the menu is shown only when exactly one parameter is selected |
| Ramps.MenuShownIffSingleRampParm | scripts/python/rampage/rampage.py:164-173 | the menu is shown iff there is one parameter and it passes `is_ramp_parm`; then `from_parm` on it cannot raise TypeError |
| Stores.Put | scripts/python/rampage/rampage.py:239 | `d[k] = v`: k maps to v, every other entry is unchanged, an existing key keeps its position, a new key is appended; keys stay unique |
| Stores.Remove | scripts/python/rampage/rampage.py:284 | `del d[k]`: k is gone, every other entry is unchanged, the order loses exactly position of k and keeps the rest in order |
| Stores.PutSize | scripts/python/rampage/rampage.py:239 | setting an absent key grows the dict by one; a present key leaves its size |
| Stores.RemoveSize | scripts/python/rampage/rampage.py:284 | deleting a present key shrinks the dict by one |
| Stores.RenameStore | scripts/python/rampage/rampage.py:410-413 | after the rename the keys are the old ones minus the old key plus the new key; the new key holds the old record with "name" set to the new name; every other surviving entry is unchanged |
| Stores.RenameSize | scripts/python/rampage/rampage.py:407-415 | the size drops by one exactly when the new key already held another preset, and is unchanged otherwise |
| Stores.RenameOverwritesExisting | scripts/python/rampage/rampage.py:410-413 | renaming onto another preset's key silently drops that preset: one entry fewer, the new key holds the renamed record |
| Stores.RenameChecked | scripts/python/rampage/rampage.py:395-415 | the intended rename: None iff the old key is absent; DuplicateName iff the new key belongs to another preset |
| Stores.RenameCheckedKeepsEveryPreset | scripts/python/rampage/rampage.py:396-397 | with the old key present and the new key free or unchanged, the checked rename succeeds, keeps every other preset and the size, and the new key holds the renamed record |
| Stores.PresetTable.Load | scripts/python/rampage/rampage.py:496-497 | the dict loaded from a file holds exactly the file's contents |
| Stores.PresetTable.Set | scripts/python/rampage/rampage.py:239 | the in-place `self[k] = v` leaves the dict equal to `Put` of its old contents |
| Stores.PresetTable.Delete | scripts/python/rampage/rampage.py:284 | the in-place `del self[k]` leaves the dict equal to `Remove` of its old contents |
| Stores.PresetTable.Pop | scripts/python/rampage/rampage.py:410 | `pop(k)` returns the old record under k and removes k |
| Paths.PresetFilePath | scripts/python/rampage/rampage.py:468-483 | the path is the directory followed by "/color.json" for a colour ramp parameter and "/float.json" for any other |
| Paths.PresetFilePathInjective | scripts/python/rampage.py:192-199 | two (directory, ramp type) pairs share a preset file only if they are equal |
| Paths.RandomSuffix | scripts/python/rampage/rampage.py:440-450 | the suffix has exactly n characters, each from `ascii_lowercase + digits` |
| Paths.TempNameShape | scripts/python/rampage/rampage.py:431 | `path + "." + suffix` with a 7-character suffix from that alphabet is a temporary name for path |
| Paths.TempIsNeverPresetFile | scripts/python/rampage/rampage.py:431-435 | a temporary file is never a preset file of any directory or ramp type, so a safe save cannot clobber another store |
| PresetFiles.AddEntry | scripts/python/rampage/rampage.py:231-239 | DuplicateName iff the key is present; otherwise the same keys plus the new one, the new record under it, every old entry unchanged, the key appended to the order |
| PresetFiles.AddGrowsByOne | scripts/python/rampage/rampage.py:236-239 | a successful add grows the file by exactly one preset |
| PresetFiles.AddThenLookup | scripts/python/rampage/rampage.py:360-364 | applying the key of a just-added preset gives back exactly the preset captured |
| PresetFiles.SecondAddWithSameKeyFails | scripts/python/rampage/rampage.py:236-237 | a second add under the same key fails with DuplicateName and the first record stays |
| PresetFiles.RemoveThenLookup | scripts/python/rampage/rampage.py:284 | after removing a key, applying it is a no-op |
| PresetFiles.ReplaceEntry | scripts/python/rampage/rampage.py:261-262 | replace keeps keys and order; the chosen entry keeps its stored name (parameter name if that is empty), takes the parameter's ramp and a "ramp_type" of "color" exactly for a colour ramp; every other entry untouched; NotRampParameter iff not a ramp |
| PresetFiles.LookupPreset | scripts/python/rampage/rampage.py:358-364 | a token that is not a key is a no-op; a key always yields a preset unless its stored tag is unknown (UnknownRampType), and that preset's `to_dict` is the stored record |
| PresetFiles.ShownNames | scripts/python/rampage/rampage.py:301 | the selection dialog lists one name per preset: position i holds the "name" of the i-th preset in dict order |
| PresetFiles.SelectKey | scripts/python/rampage/rampage.py:288-314 | no choice gives None; choice i gives a key of the file whose name was shown at position i, and at no other row |
| PresetFiles.CancelledSelection | scripts/python/rampage/rampage.py:258-259 | `if not key` gives up exactly when nothing was chosen or the chosen row holds the empty key, so a preset under the empty key can be neither replaced nor removed |
| PresetFiles.MenuItems | scripts/python/rampage/rampage.py:338-344 | the strip has 2n items: position 2i is the i-th key (a key of the file), position 2i+1 its name |
| PresetFiles.PresetStore.Read | scripts/python/rampage/rampage.py:486-498 | a hit returns the same object as before; a miss caches a fresh dict holding the file and keeps every other entry; a missing file gives null and leaves the cache; the disk is unchanged and the cache stays coherent |
| PresetFiles.PresetStore.SafeSave | scripts/python/rampage/rampage.py:418-437 | afterwards the path holds exactly the data, the temporary file (path + "." + 7 chars) is gone, nothing else changed, and the cache is empty, so the next read loads the data |
| PresetFiles.PresetStore.Add | scripts/python/rampage/rampage.py:220-241 | NotRampParameter and FileNotFound leave files and cache as they were; DuplicateName leaves the files and keeps the dict just read cached; no failure changes a cached dict; on success the file becomes `AddEntry` of its old contents via a safe save, the cache is empty, and the dict cached before now holds the new contents |
| PresetFiles.PresetStore.Replace | scripts/python/rampage/rampage.py:244-264 | FileNotFound leaves files and cache; a cancelled or empty-key choice, or TypeError, writes nothing, keeps the dict just read cached and changes no cached dict; otherwise the file becomes `ReplaceEntry` of the chosen key via a safe save, the cache is empty, and the dict cached before holds the new contents |
| PresetFiles.PresetStore.Remove | scripts/python/rampage/rampage.py:267-285 | FileNotFound leaves files and cache; a cancelled or empty-key choice writes nothing, keeps the dict just read cached and changes no cached dict; otherwise the chosen key is removed via a safe save, the cache is empty, and the dict cached before holds the new contents |
| PresetFiles.PresetStore.CreateMenuStrip | scripts/python/rampage/rampage.py:317-344 | [] unless exactly one parameter, with the cache left alone; otherwise key/name pairs of that parameter's file in insertion order, or FileNotFound, with that file's dict now cached, every other entry kept and no cached dict changed |
| PresetFiles.PresetStore.ChosenPreset | scripts/python/rampage/rampage.py:347-364 | the preset to apply is `LookupPreset` of the parameter's file for the token, or FileNotFound; the file's dict is now cached, every other entry is kept and no cached dict changes |
| PresetFiles.RenameRampPreset | scripts/python/rampage/rampage.py:395-415 | an absent old key returns None and leaves the dict; otherwise the same dict is returned, changed in place to `RenameStore` of its old contents |
| LegacyPresets.DocNames | scripts/python/rampage.py:143 | the names of a list document, in list order; none for `{}` |
| LegacyPresets.AppendPreset | scripts/python/rampage.py:143-147 | DuplicateName iff some stored "name" equals the name exactly; NotAList iff the document is `{}`; success iff it is a list without that name, and then one record is appended after the unchanged old ones |
| LegacyPresets.DistinctNamesBothAppend | scripts/python/rampage.py:143-145 | two different names (even differing only by case) are both appended; the check is not normalised |
| LegacyPresets.MenuItems | scripts/python/rampage.py:182-189 | 2n items: the encoded name at 2i and the name at 2i+1, in list order; none for `{}` |
| LegacyPresets.CachedDoc.Append | scripts/python/rampage.py:147 | `append` adds the record at the end of the cached list |
| LegacyPresets.LegacyStore.Read | scripts/python/rampage.py:202-206 | the older cached read: same object on a hit, a fresh copy of the file cached on a miss with every other entry kept, null for a missing file |
| LegacyPresets.LegacyStore.LoadPresetData | scripts/python/rampage.py:98-108 | a missing file is seeded with `{}` and `{}` is returned; an existing file is returned unchanged |
| LegacyPresets.LegacyStore.Add | scripts/python/rampage.py:137-154 | NotRampParameter and FileNotFound leave files and cache; DuplicateName and NotAList leave the files and keep the list just read cached; no failure changes a cached document; otherwise the file holds the list with the new record appended, via a temporary file, the cache is empty, and the document cached before holds the new list |
| LegacyPresets.LegacyStore.CreateMenuStrip | scripts/python/rampage.py:169-189 | [] unless exactly one parameter, with the cache left alone; otherwise the encoded-name/name pairs of that parameter's list, or FileNotFound, with that file's document now cached, every other entry kept and no cached document changed |

## Left out

- `rename_preset_menu_callback` and `dialog.py` are not modelled.
  `show_rename_dialog` returns nothing, so the callback always returns at
  scripts/python/rampage/rampage.py:387-388. `rename_ramp_preset` is modelled
  directly instead. If the callback did proceed, a None from
  `rename_ramp_preset` would be saved as JSON `null`.
- `add_ramp_preset_menu_callback` is not modelled. It is a host input dialog
  that returns on cancel and otherwise calls the add with the typed name, and the
  add is modelled.
- The keys are not normalised. `hou.text.alphaNumeric` (after `lower()`) and
  `hou.text.encodeParm` are uninterpreted function constants, so no idempotence
  and no character set are claimed.
- `RampPreset.to_ramp` and `_convert_str_to_ramp_basis` are not modelled. The
  basis lookup runs over `dir(hou.rampBasis)`, and `hou.Ramp` and `parm.set`
  belong to the host. The older `to_ramp` passes the whole basis tuple where
  one name is expected.
- The host's parameter templates are not modelled. The template's type, its
  name and its ramp parameter type (what `_get_ramp_type` returns) are fields
  of `Parm`. Both versions' `is_ramp_parm` are tests of those fields
  (`IsRampParm`, `LegacyIsRampParm`). The ramp parameter type's consistency
  with the captured ramp's `isColor()` is not assumed.
- `os.environ["RAMPAGE_PRESETS_PATH"]` is not read. The directory is a
  parameter, so the KeyError when the variable is unset is not modelled.
- JSON is not modelled. Files hold parsed values, so encoding, parsing, and a
  record missing a field (KeyError) are outside the model. A JSON object keeps
  its key order through `json.dump`/`json.load`, which is why `Store` carries
  an order.
- I/O failures, the atomicity of `os.replace`, directory creation and races
  between processes are not modelled. A failed write or replace is therefore
  not modelled. In the older `load_preset_data`, `mkdir(parents=True)` raises
  when the parent directory already exists, and this is not modelled either.
- LegacyPresets.Doc: a non-empty JSON object in an older preset file is not
  modelled. `load_preset_data` writes `{}` only at `RAMPAGE_PRESETS_PATH`
  itself, while preset files are read at that path plus "/float.json" or
  "/color.json", and nothing in that file calls it. So `EmptyObject`, and with
  it `NotAList`, at a preset path comes only from a file someone wrote by hand.

## Findings

| source | as written | input that shows it | evidently intended | confidence | as-written member | corrected member |
|---|---|---|---|---|---|---|
| scripts/python/rampage/rampage.py:410-413 | the renamed record is stored under the new key without checking whether that key already holds another preset | dict `{"a": A, "b": B}`, `rename_ramp_preset("a", n, d)` with `alphaNumeric(n.lower()) == "b"`: B is lost and one entry remains | refuse the rename with the duplicate-name error, as the add does, unless the new key is the old one | medium, not executed | Stores.RenameOverwritesExisting | Stores.RenameCheckedKeepsEveryPreset |

The corrected rename (`Stores.RenameChecked`) has no other caller in the
model. Its only caller in the source is the rename callback, which never
reaches it.
