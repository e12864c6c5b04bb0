/** The constant control and preset tables of EffectEditor.h.

    `UI_CONTROLS` fixes the parameter count and the meaning of every
    parameter index; `UI_PRESETS` holds the factory presets.  The on-screen
    bounds of each control are layout only and are not modelled. */
module Controls {

  datatype ControlType = Rotary | Button | Toggle | Slider | Menu | Meter

  datatype Control = Control(
    name: string,
    parameter: int,
    kind: ControlType,
    min: real,
    max: real,
    initial: real,
    options: seq<string>)

  // Parameter indices with a fixed role in the signal path (the `kParamN`
  // enumerators have the value N).
  const ThresholdHighParam: int := 0
  const RatioHighParam: int := 1
  const MakeupHighParam: int := 2
  const DetectModeParam: int := 3
  const PeakMeterParam: int := 4
  const RmsMeterParam: int := 5
  const CompMeterParam: int := 6
  const ThresholdLowParam: int := 7
  const RatioLowParam: int := 8
  const MakeupLowParam: int := 9
  const AttackParam: int := 10
  const ReleaseParam: int := 11
  const CentreFrequencyParam: int := 12
  const MonoParam: int := 13
  const KneeParam: int := 14
  const LookaheadParam: int := 15

  const UiControls: seq<Control> := [
    Control("Threshold (dB)", 0, Rotary, 0.0, 1.0, 1.0, []),
    Control("Ratio (x:1)", 1, Rotary, 1.0, 16.0, 1.0, []),
    Control("Makeup Gain", 2, Rotary, 1.0, 5.0, 1.0, []),
    Control("Detect Mode", 3, Menu, 0.0, 1.0, 0.0, ["Peak", "RMS"]),
    Control("Peak", 4, Meter, 0.0, 1.0, 0.0, []),
    Control("RMS", 5, Meter, 0.0, 1.0, 0.0, []),
    Control("Comp", 6, Meter, 0.0, 1.0, 0.0, []),
    Control("Threshold (dB)", 7, Rotary, 0.0, 1.0, 1.0, []),
    Control("Ratio (x:1)", 8, Rotary, 1.0, 16.0, 1.0, []),
    Control("Makeup Gain", 9, Rotary, 1.0, 5.0, 1.0, []),
    Control("Attack", 10, Rotary, 0.0, 0.09999, 0.0, []),
    Control("Release", 11, Rotary, 0.099, 0.09999, 0.099, []),
    Control("Centre Frequency", 12, Rotary, 20.0, 5000.0, 1000.0, []),
    Control("Mono", 13, Toggle, 0.0, 1.0, 0.0, []),
    Control("Knee", 14, Rotary, 1.0, 3.0, 1.0, []),
    Control("Lookahead (0-200ms)", 15, Rotary, 0.0, 0.2, 0.0, [])
  ]

  /** `sizeof(UI_CONTROLS) / sizeof(Control)`, the length of the table
      (`ControlTableShape`). */
  const NumberOfControls: int := 16
  const NumberOfParameters: int := NumberOfControls

  datatype Preset = Preset(name: string, value: seq<real>)

  /** A preset initialiser as C++ aggregate initialisation reads it: the
      listed values fill the first slots, every slot not listed is zero. */
  function PresetOf(name: string, listed: seq<real>): (p: Preset)
    requires |listed| <= NumberOfParameters
    ensures p.name == name && |p.value| == NumberOfParameters
    ensures forall i :: 0 <= i < |listed| ==> p.value[i] == listed[i]
    ensures forall i :: |listed| <= i < NumberOfParameters ==> p.value[i] == 0.0
  {
    Preset(name, listed + seq(NumberOfParameters - |listed|, _ => 0.0))
  }

  const UiPresets: seq<Preset> := [
    PresetOf("Bright Guitar", [0.45650, 3.81250, 1.62853, 0.0, 0.0, 0.0, 0.0, 0.59224, 1.65502,
      1.12500, 0.03670, 0.09975, 3956.61792, 0.0, 2.08256, 0.0]),
    PresetOf("Drums Sparkle", [0.39912, 16.00000, 2.02754, 0.0, 0.0, 0.0, 0.0, 0.11612, 16.00000,
      1.90708, 0.04648, 0.09996, 2411.25439, 1.00000, 0.00000]),
    PresetOf("Add Body", [0.41250, 9.40386, 1.12500, 0.0, 0.0, 0.0, 0.0, 0.41945, 10.54632,
      2.87853, 0.01321, 0.09992, 1022.75934, 3.00000, 0.00320])
  ]

  /** The rule the preset table's comment gives for one slot: 0 or 1 for a
      toggle, a menu item number for a menu, 0 for a read-only meter, and a
      value inside the control's range for a rotary knob or slider. */
  predicate SlotFollowsControl(c: Control, v: real)
  {
    match c.kind
    case Toggle => v == 0.0 || v == 1.0
    case Menu => v == v.Floor as real && 0 <= v.Floor < |c.options|
    case Meter => v == 0.0
    case Rotary => c.min <= v <= c.max
    case Slider => c.min <= v <= c.max
    case Button => true
  }

  predicate SlotOk(p: Preset, i: int)
    requires 0 <= i < NumberOfParameters && |p.value| == NumberOfParameters
  {
    SlotFollowsControl(UiControls[i], p.value[i])
  }

  /** There are 16 controls, one per parameter. */
  lemma ControlTableShape()
    ensures NumberOfControls == NumberOfParameters == |UiControls| == 16
    ensures forall c :: 0 <= c < NumberOfControls ==> UiControls[c].parameter == c
  {
  }

  /** Every control's initial value lies inside its own range. */
  lemma InitialValuesInRange()
    ensures forall c :: 0 <= c < NumberOfControls ==>
      UiControls[c].min <= UiControls[c].initial <= UiControls[c].max
  {
  }

  /** Exactly three presets, each with one value per parameter; the two that
      list only 15 values get a Lookahead of 0. */
  lemma PresetTableShape()
    ensures |UiPresets| == 3
    ensures forall i :: 0 <= i < |UiPresets| ==> |UiPresets[i].value| == NumberOfParameters
    ensures UiPresets[1].value[LookaheadParam] == 0.0 && UiPresets[2].value[LookaheadParam] == 0.0
  {
  }

  /** Every preset selects an existing detect-mode item and leaves the three
      meters at 0. */
  lemma PresetMenusAndMeters()
    ensures forall i :: 0 <= i < |UiPresets| ==>
      SlotOk(UiPresets[i], DetectModeParam) && SlotOk(UiPresets[i], PeakMeterParam) &&
      SlotOk(UiPresets[i], RmsMeterParam) && SlotOk(UiPresets[i], CompMeterParam)
  {
    forall i | 0 <= i < |UiPresets|
      ensures SlotOk(UiPresets[i], DetectModeParam) && SlotOk(UiPresets[i], PeakMeterParam) &&
              SlotOk(UiPresets[i], RmsMeterParam) && SlotOk(UiPresets[i], CompMeterParam)
    {
      assert UiPresets[i].value[DetectModeParam] == 0.0;
    }
  }

  /** "Bright Guitar" keeps to the control table in every slot. */
  lemma BrightGuitarFollowsTable()
    ensures forall s :: 0 <= s < NumberOfParameters ==> SlotOk(UiPresets[0], s)
  {
    assert UiPresets[0].value[3] == 0.0;
  }

  /** "Drums Sparkle" breaks the table only in the Knee slot: 0, below the
      knob's minimum of 1. */
  lemma DrumsSparkleBreaksKnee()
    ensures forall s :: 0 <= s < NumberOfParameters ==> (SlotOk(UiPresets[1], s) <==> s != KneeParam)
  {
    assert UiPresets[1].value[3] == 0.0;
  }

  /** "Add Body" breaks the table in the Knee slot (0.0032) and in the Mono
      toggle, which holds 3. */
  lemma AddBodyBreaksKneeAndMono()
    ensures forall s :: 0 <= s < NumberOfParameters ==>
      (SlotOk(UiPresets[2], s) <==> s != KneeParam && s != MonoParam)
    ensures UiPresets[2].value[MonoParam] == 3.0
  {
    assert UiPresets[2].value[3] == 0.0;
  }
}
