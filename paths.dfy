/**
 * Where the preset files live and how a safe save names its temporary file.
 * Both versions of the plugin use this code unchanged.
 */
module Paths {
  import opened Ramps

  type Path = string

  /** `string.ascii_lowercase + string.digits`. */
  const Alphabet: string := "abcdefghijklmnopqrstuvwxyz0123456789"

  /** The two file names under the presets directory. */
  const ColorFile: string := "/color.json"
  const FloatFile: string := "/float.json"

  /**
   * `_get_preset_file_path_from_ramp_type`: a colour ramp parameter uses
   * `<dir>/color.json`; every other ramp type falls to `<dir>/float.json`.
   */
  function PresetFilePath(dir: string, t: RampParmType): (p: Path)
    ensures |p| == |dir| + 11 && p[..|dir|] == dir
    ensures p[|dir|..] == (if t == ColorParm then ColorFile else FloatFile)
  {
    dir + (if t == ColorParm then ColorFile else FloatFile)
  }

  /** Distinct directories or distinct ramp types never share a preset file. */
  lemma {:induction false} PresetFilePathInjective(d1: string, t1: RampParmType, d2: string, t2: RampParmType)
    requires PresetFilePath(d1, t1) == PresetFilePath(d2, t2)
    ensures d1 == d2 && t1 == t2
  {
    var p := PresetFilePath(d1, t1);
    assert |d1| == |d2|;
    assert d1 == p[..|d1|] == d2;
    assert ColorFile[1] == 'c' && FloatFile[1] == 'f';
    assert (if t1 == ColorParm then ColorFile else FloatFile) == p[|d1|..]
        == (if t2 == ColorParm then ColorFile else FloatFile);
  }

  /** `temp` is a name `_safe_save_preset_file` may pick for `path`: `path + "." + s`, `s` seven characters of Alphabet. */
  ghost predicate IsTempFor(temp: Path, path: Path) {
    && |temp| == |path| + 8
    && temp[..|path| + 1] == path + "."
    && forall i :: |path| + 1 <= i < |temp| ==> temp[i] in Alphabet
  }

  /**
   * `_create_random_end_str(n)`: `n` characters, each one a free choice
   * (`secrets.choice`) from Alphabet.
   */
  method RandomSuffix(n: nat) returns (s: string)
    ensures |s| == n
    ensures forall i :: 0 <= i < |s| ==> s[i] in Alphabet
  {
    s := "";
    var i := 0;
    while i < n
      invariant 0 <= i <= n && |s| == i
      invariant forall j :: 0 <= j < |s| ==> s[j] in Alphabet
    {
      assert 'a' in Alphabet by { assert Alphabet[0] == 'a'; }
      var c :| c in Alphabet;
      s := s + [c];
      i := i + 1;
    }
  }

  /** The temporary name built from a path and a suffix of seven characters of Alphabet is a temp name for it. */
  lemma TempNameShape(path: Path, suffix: string)
    requires |suffix| == 7 && forall i :: 0 <= i < |suffix| ==> suffix[i] in Alphabet
    ensures IsTempFor(path + "." + suffix, path)
  {
    var temp := path + "." + suffix;
    assert temp[..|path| + 1] == path + ".";
    forall i | |path| + 1 <= i < |temp| ensures temp[i] in Alphabet {
      assert temp[i] == suffix[i - |path| - 1];
    }
  }

  /**
   * A temporary file of a safe save is never itself a preset file, of either
   * ramp type under any directory: it ends in seven random characters, where a
   * preset file ends in "/color.json" or "/float.json".
   */
  lemma {:induction false} TempIsNeverPresetFile(temp: Path, path: Path, dir: string, t: RampParmType)
    requires IsTempFor(temp, path)
    ensures temp != PresetFilePath(dir, t)
  {
    var p := PresetFilePath(dir, t);
    if |temp| == |p| {
      var name := if t == ColorParm then ColorFile else FloatFile;
      var head := temp[..|path| + 1];
      assert head == path + ".";
      assert temp[|path|] == head[|path|] == '.';
      assert |path| == |dir| + 3;
      assert p[|dir|..] == name;
      assert p[|path|] == p[|dir|..][3] == name[3];
      assert ColorFile[3] == 'l' && FloatFile[3] == 'o';
    }
  }
}
