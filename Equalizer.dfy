/** The cut-filter stage of the three-band equalizer
    (3BandEqualizer/PluginProcessor.h): a low cut or high cut is a chain of
    four second-order filter stages; the slope decides how many of them run. */
module CutFilter {

  /** The `Slope` enum: each step adds one second-order stage, 12 dB/Oct. */
  const Slope12: int := 0
  const Slope24: int := 1
  const Slope36: int := 2
  const Slope48: int := 3

  /** The number of stages in a cut filter chain. */
  const Stages: int := 4

  /** The coefficients of one second-order stage; the model does not look inside. */
  type Coefficients = seq<real>

  /** The user's settings as the processor reads them each block. */
  datatype ChainSettings = ChainSettings(
    peakFreq: real, peakGainInDecibels: real, peakQuality: real,
    lowCutFreq: real, lowCutSlope: int, highCutFreq: real, highCutSlope: int)

  /** The settings a default-constructed `ChainSettings` holds. */
  const DefaultSettings: ChainSettings := ChainSettings(0.0, 0.0, 1.0, 0.0, Slope12, 0.0, Slope12)

  /** The stages a slope switches on: stages 0..slope for the four enum
      values, none for any other value (the switch has no case for it). */
  function EnabledStages(slope: int): (n: int)
    ensures 0 <= n <= Stages
    ensures Slope12 <= slope <= Slope48 ==> n == slope + 1
    ensures !(Slope12 <= slope <= Slope48) ==> n == 0
  {
    if Slope12 <= slope <= Slope48 then slope + 1 else 0
  }

  /** A `ProcessorChain<Filter, Filter, Filter, Filter>`: per stage its
      bypass flag and its coefficients. */
  class CutChain {
    var bypassed: seq<bool>
    var coefficients: seq<Coefficients>

    ghost predicate Valid()
      reads this
    {
      |bypassed| == Stages && |coefficients| == Stages
    }

    /** A fresh chain: no stage bypassed, every stage on the given coefficients. */
    constructor (initial: Coefficients)
      ensures Valid()
      ensures bypassed == [false, false, false, false]
      ensures coefficients == [initial, initial, initial, initial]
    {
      bypassed := [false, false, false, false];
      coefficients := [initial, initial, initial, initial];
    }

    /** The number of stages that run. */
    function Active(): (n: int)
      reads this
      requires Valid()
      ensures 0 <= n <= Stages
    {
      Count(bypassed)
    }
  }

  /** The number of stages not bypassed. */
  function Count(flags: seq<bool>): (n: int)
    ensures 0 <= n <= |flags|
    decreases |flags|
  {
    if flags == [] then 0 else Count(flags[..|flags| - 1]) + (if flags[|flags| - 1] then 0 else 1)
  }

  /** The bypass pattern slope leaves: stage i runs iff i is below EnabledStages. */
  function BypassPattern(slope: int): (flags: seq<bool>)
    ensures |flags| == Stages
  {
    seq(Stages, i => i >= EnabledStages(slope))
  }

  /** A pattern that runs the first m of its stages runs m stages. */
  lemma {:induction false} CountPrefixRunning(flags: seq<bool>, m: int)
    requires 0 <= m <= |flags|
    requires forall i | 0 <= i < |flags| :: flags[i] == (i >= m)
    ensures Count(flags) == m
    decreases |flags|
  {
    if flags != [] {
      var front := flags[..|flags| - 1];
      if m == |flags| {
        CountPrefixRunning(front, m - 1);
      } else {
        CountPrefixRunning(front, m);
      }
    }
  }

  /** The slope's bypass pattern runs exactly EnabledStages stages. */
  lemma PatternRuns(slope: int)
    ensures Count(BypassPattern(slope)) == EnabledStages(slope)
  {
    CountPrefixRunning(BypassPattern(slope), EnabledStages(slope));
  }

  /** updateCutFilter: bypass all four stages, then for the slope give stages
      0..slope the designed coefficients and switch them back on. Stages above
      the slope keep their old coefficients. */
  method UpdateCutFilter(chain: CutChain, cutCoefficients: seq<Coefficients>, slope: int)
    requires chain.Valid()
    requires |cutCoefficients| >= EnabledStages(slope)
    modifies chain
    ensures chain.Valid()
    ensures chain.bypassed == BypassPattern(slope)
    ensures forall i | 0 <= i < Stages ::
              chain.coefficients[i] == if i < EnabledStages(slope) then cutCoefficients[i] else old(chain.coefficients[i])
  {
    chain.bypassed := chain.bypassed[0 := true];
    chain.bypassed := chain.bypassed[1 := true];
    chain.bypassed := chain.bypassed[2 := true];
    chain.bypassed := chain.bypassed[3 := true];
    if slope == Slope12 {
      chain.coefficients := chain.coefficients[0 := cutCoefficients[0]];
      chain.bypassed := chain.bypassed[0 := false];
    } else if slope == Slope24 {
      chain.coefficients := chain.coefficients[0 := cutCoefficients[0]];
      chain.bypassed := chain.bypassed[0 := false];
      chain.coefficients := chain.coefficients[1 := cutCoefficients[1]];
      chain.bypassed := chain.bypassed[1 := false];
    } else if slope == Slope36 {
      chain.coefficients := chain.coefficients[0 := cutCoefficients[0]];
      chain.bypassed := chain.bypassed[0 := false];
      chain.coefficients := chain.coefficients[1 := cutCoefficients[1]];
      chain.bypassed := chain.bypassed[1 := false];
      chain.coefficients := chain.coefficients[2 := cutCoefficients[2]];
      chain.bypassed := chain.bypassed[2 := false];
    } else if slope == Slope48 {
      chain.coefficients := chain.coefficients[0 := cutCoefficients[0]];
      chain.bypassed := chain.bypassed[0 := false];
      chain.coefficients := chain.coefficients[1 := cutCoefficients[1]];
      chain.bypassed := chain.bypassed[1 := false];
      chain.coefficients := chain.coefficients[2 := cutCoefficients[2]];
      chain.bypassed := chain.bypassed[2 := false];
      chain.coefficients := chain.coefficients[3 := cutCoefficients[3]];
      chain.bypassed := chain.bypassed[3 := false];
    }
  }

  /** Default settings run only the first stage of each cut filter. */
  lemma DefaultsRunOneStage()
    ensures EnabledStages(DefaultSettings.lowCutSlope) == 1 && EnabledStages(DefaultSettings.highCutSlope) == 1
    ensures BypassPattern(DefaultSettings.lowCutSlope) == [false, true, true, true]
  {
  }
}

/** The three-band equalizer processor (ThreeBandEqualizer/PluginProcessor.cpp):
    its parameter layout, the settings it reads, the Butterworth order it asks
    for and the left/right chains it keeps in step. */
module ThreeBandEqualizer {
  import opened CutFilter
  import DelayLine

  /** A decimal digit character. */
  function Digit(d: int): (c: char)
    requires 0 <= d < 10
    ensures '0' <= c <= '9' && DigitValue(c) == d
  {
    ('0' as int + d) as char
  }

  /** The value of a decimal digit character. */
  function DigitValue(c: char): int
  {
    c as int - '0' as int
  }

  /** `juce::String << int` for a non-negative number: its decimal digits. */
  function Decimal(n: nat): (s: string)
    ensures |s| >= 1 && forall i | 0 <= i < |s| :: '0' <= s[i] <= '9'
    decreases n
  {
    if n < 10 then [Digit(n)] else Decimal(n / 10) + [Digit(n % 10)]
  }

  /** Reading a string of decimal digits back as a number. */
  function ParseDecimal(s: string): nat
    requires forall i | 0 <= i < |s| :: '0' <= s[i] <= '9'
    decreases |s|
  {
    if s == [] then 0 else ParseDecimal(s[..|s| - 1]) * 10 + DigitValue(s[|s| - 1])
  }

  /** Decimal rendering loses nothing: parsing it gives the number back. */
  lemma {:induction false} DecimalRoundTrip(n: nat)
    ensures ParseDecimal(Decimal(n)) == n
    decreases n
  {
    if n >= 10 {
      DecimalRoundTrip(n / 10);
      var s := Decimal(n);
      assert s[..|s| - 1] == Decimal(n / 10);
    }
  }

  const Unit: string := " db/Oct"

  /** The label of slope choice i: `12 + i * 12` followed by " db/Oct". */
  function SlopeLabel(i: nat): string
  {
    Decimal(12 + i * 12) + Unit
  }

  /** A two-digit number is its tens digit followed by its units digit. */
  lemma TwoDigits(n: nat)
    requires 10 <= n < 100
    ensures Decimal(n) == [Digit(n / 10), Digit(n % 10)]
  {
  }

  /** Choice i (of the four) reads as the digits of 12 * (i + 1) followed by
      " db/Oct": 12, 24, 36 and 48 db/Oct. */
  lemma SlopeLabelSpelled(i: nat)
    requires i < 4
    ensures SlopeLabel(i) == [Digit(i + 1), Digit(2 * i + 2)] + " db/Oct"
    ensures ParseDecimal(Decimal(12 + i * 12)) == 12 * (i + 1)
  {
    TwoDigits(12 + i * 12);
    assert (12 + i * 12) / 10 == i + 1 && (12 + i * 12) % 10 == 2 * i + 2 by {
      if i == 0 { } else if i == 1 { } else if i == 2 { } else { }
    }
    DecimalRoundTrip(12 + i * 12);
  }

  /** Strings with the same suffix appended are equal only if they were. */
  lemma SameSuffix(a: string, b: string, u: string)
    requires a + u == b + u
    ensures a == b
  {
    assert |a| == |b|;
    assert a == (a + u)[..|a|];
    assert b == (b + u)[..|b|];
  }

  /** No two slope choices share a label. */
  lemma SlopeLabelsDistinct(i: nat, j: nat)
    requires i != j
    ensures SlopeLabel(i) != SlopeLabel(j)
  {
    if SlopeLabel(i) == SlopeLabel(j) {
      SameSuffix(Decimal(12 + i * 12), Decimal(12 + j * 12), Unit);
      DecimalRoundTrip(12 + i * 12);
      DecimalRoundTrip(12 + j * 12);
    }
  }

  /** A parameter of the layout. */
  datatype Parameter =
    | FloatParameter(id: string, min: real, max: real, interval: real, skew: real, default: real)
    | ChoiceParameter(id: string, choices: seq<string>, defaultIndex: int)

  /** The loop that builds the slope choice labels. */
  method SlopeChoices() returns (labels: seq<string>)
    ensures |labels| == 4
    ensures forall i | 0 <= i < 4 :: labels[i] == SlopeLabel(i)
  {
    labels := [];
    for i := 0 to 4
      invariant |labels| == i
      invariant forall k | 0 <= k < i :: labels[k] == SlopeLabel(k)
    {
      var str := Decimal(12 + i * 12);
      str := str + Unit;
      labels := labels + [str];
    }
  }

  /** createParameterLayout: five float parameters, then the two slope choices
      sharing the same labels, both defaulting to the first. */
  method CreateParameterLayout() returns (layout: seq<Parameter>)
    ensures |layout| == 7
    ensures forall k | 0 <= k < 5 :: layout[k].FloatParameter? && layout[k].min <= layout[k].default <= layout[k].max
    ensures layout[5].ChoiceParameter? && layout[6].ChoiceParameter?
    ensures layout[5].choices == layout[6].choices && |layout[5].choices| == 4
    ensures forall i | 0 <= i < 4 :: layout[5].choices[i] == SlopeLabel(i)
    ensures layout[5].defaultIndex == Slope12 && layout[6].defaultIndex == Slope12
    ensures [layout[0].id, layout[1].id, layout[2].id, layout[3].id, layout[4].id, layout[5].id, layout[6].id] ==
            ["LowCutFreq", "HighCutFreq", "PeakFreq", "PeakGain", "PeakQuality", "LowCutSlope", "HighCutSlope"]
  {
    layout := [
      FloatParameter("LowCutFreq", 20.0, 20000.0, 1.0, 0.25, 20.0),
      FloatParameter("HighCutFreq", 20.0, 20000.0, 1.0, 0.25, 20000.0),
      FloatParameter("PeakFreq", 20.0, 20000.0, 1.0, 0.25, 750.0),
      FloatParameter("PeakGain", -24.0, 24.0, 0.5, 1.0, 0.0),
      FloatParameter("PeakQuality", 0.1, 10.0, 0.05, 1.0, 1.0)];
    var stringArray := SlopeChoices();
    layout := layout + [ChoiceParameter("LowCutSlope", stringArray, 0)];
    layout := layout + [ChoiceParameter("HighCutSlope", stringArray, 0)];
  }

  /** The ids getChainSettings reads. */
  const SettingIds: set<string> :=
    {"LowCutFreq", "HighCutFreq", "PeakFreq", "PeakGain", "PeakQuality", "LowCutSlope", "HighCutSlope"}

  /** getChainSettings: each raw parameter value into its field; the slope
      choices, stored as floats, are converted to int32 by truncation. */
  function GetChainSettings(raw: map<string, real>): (s: ChainSettings)
    requires SettingIds <= raw.Keys
    ensures s.lowCutFreq == raw["LowCutFreq"] && s.highCutFreq == raw["HighCutFreq"]
    ensures s.peakFreq == raw["PeakFreq"] && s.peakGainInDecibels == raw["PeakGain"]
    ensures s.peakQuality == raw["PeakQuality"]
    ensures 0.0 <= raw["LowCutSlope"] ==> s.lowCutSlope as real <= raw["LowCutSlope"] < s.lowCutSlope as real + 1.0
    ensures 0.0 <= raw["HighCutSlope"] ==> s.highCutSlope as real <= raw["HighCutSlope"] < s.highCutSlope as real + 1.0
  {
    ChainSettings(
      raw["PeakFreq"], raw["PeakGain"], raw["PeakQuality"],
      raw["LowCutFreq"], DelayLine.Trunc(raw["LowCutSlope"]),
      raw["HighCutFreq"], DelayLine.Trunc(raw["HighCutSlope"]))
  }

  /** A choice parameter's raw value is its index, so every choice gives a
      slope the enum names and the stage count it promises. */
  lemma ChoiceGivesSlope(raw: map<string, real>, i: int)
    requires SettingIds <= raw.Keys && 0 <= i < 4 && raw["LowCutSlope"] == i as real
    ensures GetChainSettings(raw).lowCutSlope == i && EnabledStages(i) == i + 1
  {
  }

  /** The Butterworth order requested for a cut filter: `2 * (slope + 1)`. */
  function ButterworthOrder(slope: int): int
  {
    2 * (slope + 1)
  }

  /** For every slope the order is even, one of 2, 4, 6, 8, twice the number
      of stages the slope runs (each stage is second order), and a sixth of
      the slope's label in dB/Oct. */
  lemma OrderMatchesStages(slope: int)
    requires Slope12 <= slope <= Slope48
    ensures ButterworthOrder(slope) % 2 == 0 && ButterworthOrder(slope) in {2, 4, 6, 8}
    ensures ButterworthOrder(slope) == 2 * EnabledStages(slope)
    ensures 6 * ButterworthOrder(slope) == 12 + slope * 12
  {
  }

  /** The two channel chains: low cut, peak, high cut each. */
  class EqualizerProcessor {
    var leftLowCut: CutChain
    var rightLowCut: CutChain
    var leftPeak: Coefficients
    var rightPeak: Coefficients
    var leftHighCut: CutChain
    var rightHighCut: CutChain

    ghost predicate Valid()
      reads this, leftLowCut, rightLowCut, leftHighCut, rightHighCut
    {
      leftLowCut.Valid() && rightLowCut.Valid() && leftHighCut.Valid() && rightHighCut.Valid() &&
      leftLowCut != rightLowCut && leftLowCut != leftHighCut && leftLowCut != rightHighCut &&
      rightLowCut != leftHighCut && rightLowCut != rightHighCut && leftHighCut != rightHighCut
    }

    /** The left and right chains are in the same state. */
    ghost predicate Symmetric()
      reads this, leftLowCut, rightLowCut, leftHighCut, rightHighCut
    {
      leftLowCut.bypassed == rightLowCut.bypassed && leftLowCut.coefficients == rightLowCut.coefficients &&
      leftHighCut.bypassed == rightHighCut.bypassed && leftHighCut.coefficients == rightHighCut.coefficients &&
      leftPeak == rightPeak
    }

    constructor (initial: Coefficients)
      ensures Valid() && Symmetric()
    {
      leftLowCut := new CutChain(initial);
      rightLowCut := new CutChain(initial);
      leftHighCut := new CutChain(initial);
      rightHighCut := new CutChain(initial);
      leftPeak, rightPeak := initial, initial;
    }

    /** What prepareToPlay and processBlock do to the chains, from the current
        settings: the peak coefficients into both peak filters, then the
        designed low-cut coefficients into both low cuts and the high-cut ones
        into both high cuts, each by its slope. The coefficient design itself
        is JUCE's and arrives as input; it returns one second-order section per
        two orders, so `ButterworthOrder(slope) / 2` of them. */
    method UpdateFilters(settings: ChainSettings, peak: Coefficients,
                         lowCutCoefficients: seq<Coefficients>, highCutCoefficients: seq<Coefficients>)
      requires Valid()
      requires |lowCutCoefficients| >= EnabledStages(settings.lowCutSlope)
      requires |highCutCoefficients| >= EnabledStages(settings.highCutSlope)
      modifies this`leftPeak, this`rightPeak, leftLowCut, rightLowCut, leftHighCut, rightHighCut
      ensures Valid()
      ensures old(Symmetric()) ==> Symmetric()
      ensures leftPeak == peak && rightPeak == peak
      ensures leftLowCut.bypassed == BypassPattern(settings.lowCutSlope)
      ensures rightLowCut.bypassed == BypassPattern(settings.lowCutSlope)
      ensures leftHighCut.bypassed == BypassPattern(settings.highCutSlope)
      ensures rightHighCut.bypassed == BypassPattern(settings.highCutSlope)
      ensures forall i | 0 <= i < Stages ::
                leftLowCut.coefficients[i] ==
                  if i < EnabledStages(settings.lowCutSlope) then lowCutCoefficients[i] else old(leftLowCut.coefficients[i])
      ensures forall i | 0 <= i < Stages ::
                rightLowCut.coefficients[i] ==
                  if i < EnabledStages(settings.lowCutSlope) then lowCutCoefficients[i] else old(rightLowCut.coefficients[i])
      ensures forall i | 0 <= i < Stages ::
                leftHighCut.coefficients[i] ==
                  if i < EnabledStages(settings.highCutSlope) then highCutCoefficients[i] else old(leftHighCut.coefficients[i])
      ensures forall i | 0 <= i < Stages ::
                rightHighCut.coefficients[i] ==
                  if i < EnabledStages(settings.highCutSlope) then highCutCoefficients[i] else old(rightHighCut.coefficients[i])
    {
      leftPeak := peak;
      rightPeak := peak;
      UpdateCutFilter(leftLowCut, lowCutCoefficients, settings.lowCutSlope);
      UpdateCutFilter(rightLowCut, lowCutCoefficients, settings.lowCutSlope);
      UpdateCutFilter(leftHighCut, highCutCoefficients, settings.highCutSlope);
      UpdateCutFilter(rightHighCut, highCutCoefficients, settings.highCutSlope);
    }
  }
}
