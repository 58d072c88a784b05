/**
 * RampPreset, the record a preset file stores for it, and the host's
 * ramp parameter as far as the preset store sees it.  Both versions of the
 * plugin share this code unchanged.
 */
module Ramps {
  import opened Common

  /** The two kinds of ramp, with the tags they carry in a preset file. */
  datatype RampType = Float | Color

  /** `RampType.value`: the tag written into a preset file. */
  function TypeTag(t: RampType): (tag: string)
    ensures tag == "float" || tag == "color"
    ensures t.Color? <==> tag == "color"
  {
    match t
    case Float => "float"
    case Color => "color"
  }

  /** `RampType(tag)`: lookup by value; any other tag raises ValueError. */
  function ParseType(tag: string): (r: Result<RampType>)
    ensures r.Ok? <==> tag == "float" || tag == "color"
    ensures r.Ok? ==> TypeTag(r.value) == tag
    ensures r.Err? ==> r.error == UnknownRampType
  {
    if tag == "float" then Ok(Float)
    else if tag == "color" then Ok(Color)
    else Err(UnknownRampType)
  }

  /** A ramp value: a scalar on a float ramp, a tuple of channels on a colour ramp (opaque payload). */
  datatype RampValue = Scalar(x: real) | Channels(c: seq<real>)

  /** The RampPreset object: a name and a ramp, with no validation of its own. */
  datatype RampPreset = RampPreset(
    name: string,
    rampType: RampType,
    basis: seq<string>,
    keys: seq<real>,
    values: seq<RampValue>)
  {
    /** The intended shape of a ramp: one basis name and one value per key. */
    predicate LengthsAgree() {
      |basis| == |keys| == |values|
    }
  }

  /** A preset as it is stored in a preset file: `{"name", "ramp_type", "keys", "values", "basis"}`. */
  datatype PresetDict = PresetDict(
    name: string,
    rampType: string,
    keys: seq<real>,
    values: seq<RampValue>,
    basis: seq<string>)

  /**
   * The value of the guard in `RampPreset.__init__`: Python reads the chained
   * comparison `a != b != c` as `a != b and b != c`.
   */
  function LengthGuard(basis: nat, keys: nat, values: nat): bool {
    basis != keys && keys != values
  }

  /**
   * `RampPreset.__init__`: the guard's ValueError is constructed but never
   * raised, so every combination of lengths yields a preset.
   */
  function NewPreset(name: string, t: RampType, basis: seq<string>, keys: seq<real>,
                     values: seq<RampValue>): RampPreset
  {
    RampPreset(name, t, basis, keys, values)
  }

  /**
   * The constructor keeps exactly what it is given and never rejects a preset,
   * even one whose lengths disagree; and the guard it evaluates would not have
   * caught every disagreement even if its error were raised.
   */
  lemma ConstructorAcceptsAnyLengths(name: string, t: RampType, basis: seq<string>,
                                     keys: seq<real>, values: seq<RampValue>)
    ensures var p := NewPreset(name, t, basis, keys, values);
      p.name == name && p.rampType == t && p.basis == basis && p.keys == keys && p.values == values
    ensures NewPreset(name, t, basis, keys, values).LengthsAgree() <==> |basis| == |keys| == |values|
    ensures LengthGuard(|basis|, |keys|, |values|) ==> !NewPreset(name, t, basis, keys, values).LengthsAgree()
    ensures !NewPreset(name, t, basis, keys, values).LengthsAgree() && !LengthGuard(|basis|, |keys|, |values|)
        <==> (|basis| == |keys|) != (|keys| == |values|)
  {
  }

  /** `RampPreset.to_dict`. */
  function ToDict(p: RampPreset): (d: PresetDict)
    ensures d.rampType == "float" || d.rampType == "color"
  {
    PresetDict(p.name, TypeTag(p.rampType), p.keys, p.values, p.basis)
  }

  /** `RampPreset.from_dict`: fails only on an unknown ramp type tag. */
  function FromDict(d: PresetDict): (r: Result<RampPreset>)
    ensures r.Ok? <==> d.rampType == "float" || d.rampType == "color"
    ensures r.Err? ==> r.error == UnknownRampType
    ensures r.Ok? ==> ToDict(r.value) == d
  {
    match ParseType(d.rampType)
    case Err(e) => Err(e)
    case Ok(t) => Ok(NewPreset(d.name, t, d.basis, d.keys, d.values))
  }

  /** `from_dict(to_dict(p))` gives back `p`: all five fields survive the round trip. */
  lemma {:induction false} FromDictToDict(p: RampPreset)
    ensures FromDict(ToDict(p)) == Ok(p)
  {
    assert ParseType(TypeTag(p.rampType)) == Ok(p.rampType);
  }

  // ---------------------------------------------------------------------------
  // The host's ramp parameter, reduced to what the preset store consults.
  // ---------------------------------------------------------------------------

  /** `parmTemplate().type()`: only the ramp template type matters here. */
  datatype TemplateType = RampTemplate | OtherTemplate

  /** `parmTemplate().parmType()` of a ramp parameter (`hou.rampParmType`). */
  datatype RampParmType = ColorParm | FloatParm

  /** The value `parm.evalAsRamp()` returns. */
  datatype HostRamp = HostRamp(
    isColor: bool,
    basisNames: seq<string>,
    keys: seq<real>,
    values: seq<RampValue>)

  /** A parameter: its name, its template's type, name and ramp type, and its current ramp. */
  datatype Parm = Parm(
    name: string,
    templateType: TemplateType,
    templateName: string,
    parmType: RampParmType,
    ramp: HostRamp)

  /**
   * `is_ramp_parm` of the current version: the template type is Ramp, the
   * same test `should_display_rampage_menu` applies to a single selected
   * parameter.
   */
  predicate IsRampParm(parm: Parm): (b: bool)
    ensures b <==> ShouldDisplayMenu([parm])
  {
    parm.templateType == RampTemplate
  }

  /** `is_ramp_parm` of the older version: the template is named "ramp". */
  predicate LegacyIsRampParm(parm: Parm) {
    parm.templateName == "ramp"
  }

  /** The display name `from_parm` gives a preset: an empty name falls back to the parameter's name. */
  function PresetName(parm: Parm, name: string): (n: string)
    ensures name != "" ==> n == name
    ensures name == "" ==> n == parm.name
  {
    if name == "" then parm.name else name
  }

  /**
   * `RampPreset.from_ramp`: the preset is COLOR exactly for a colour ramp and
   * carries the ramp's basis names, keys and values under the given name.
   */
  function FromRamp(ramp: HostRamp, name: string): (p: RampPreset)
    ensures p.name == name && (p.rampType == Color <==> ramp.isColor)
    ensures p.basis == ramp.basisNames && p.keys == ramp.keys && p.values == ramp.values
  {
    NewPreset(name, if ramp.isColor then Color else Float, ramp.basisNames, ramp.keys, ramp.values)
  }

  /**
   * `RampPreset.from_parm`; `isRamp` is the version's own `is_ramp_parm`
   * verdict on `parm`.  Raises TypeError on a parameter that is not a ramp;
   * otherwise captures the parameter's current ramp under the given name.
   */
  function FromParm(isRamp: bool, parm: Parm, name: string): (r: Result<RampPreset>)
    ensures r.Ok? <==> isRamp
    ensures r.Err? ==> r.error == NotRampParameter
    ensures r.Ok? ==> && r.value.name == PresetName(parm, name)
                      && (r.value.rampType == Color <==> parm.ramp.isColor)
                      && r.value.basis == parm.ramp.basisNames
                      && r.value.keys == parm.ramp.keys
                      && r.value.values == parm.ramp.values
  {
    if !isRamp then Err(NotRampParameter)
    else Ok(FromRamp(parm.ramp, PresetName(parm, name)))
  }

  /**
   * `should_display_rampage_menu`: exactly one parameter is selected and its
   * template type is Ramp.
   */
  function ShouldDisplayMenu(parms: seq<Parm>): (show: bool)
    ensures show ==> |parms| == 1
  {
    if |parms| == 0 then false
    else if |parms| > 1 then false
    else parms[0].templateType == RampTemplate
  }

  /**
   * Whenever the menu is shown, its parameter passes the ramp test that
   * `from_parm` applies, so adding or replacing from that menu never raises
   * TypeError; and the menu is hidden exactly when that test fails.
   */
  lemma MenuShownIffSingleRampParm(parms: seq<Parm>, name: string)
    ensures ShouldDisplayMenu(parms) <==> |parms| == 1 && IsRampParm(parms[0])
    ensures ShouldDisplayMenu(parms) ==> FromParm(IsRampParm(parms[0]), parms[0], name).Ok?
  {
  }

  /**
   * In the older version the menu test and `is_ramp_parm` look at different
   * things (the template's type, the template's name), so neither implies the
   * other: a ramp parameter whose template is not named "ramp" gets the menu,
   * yet adding from it raises TypeError; a non-ramp template named "ramp" gets
   * no menu, yet `from_parm` accepts it.
   */
  lemma LegacyMenuAndRampTestDisagree(parm: Parm, name: string)
    ensures parm.templateType == RampTemplate && parm.templateName != "ramp" ==>
      ShouldDisplayMenu([parm]) && FromParm(LegacyIsRampParm(parm), parm, name) == Err(NotRampParameter)
    ensures parm.templateType == OtherTemplate && parm.templateName == "ramp" ==>
      !ShouldDisplayMenu([parm]) && FromParm(LegacyIsRampParm(parm), parm, name).Ok?
  {
  }
}
