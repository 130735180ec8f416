/** The plugin description record the host passes around (JUCE's
    `PluginDescription`, as far as the host code reads or writes it), and the
    case-insensitive name comparison its lookups use. */
module PluginDescriptions {

  datatype Description = Description(
    name: string, descriptiveName: string, pluginFormatName: string, category: string,
    manufacturerName: string, version: string, fileOrIdentifier: string, isInstrument: bool,
    numInputChannels: int, numOutputChannels: int, uniqueId: int, deprecatedUid: int)

  /** The identifier of the in-process plugin format (PluginInstanceFormat.h
      is not part of this model, so its text is left open). */
  const FormatIdentifier: string

  /** A character folded to upper case; only ASCII letters are folded. */
  function Upper(c: char): (u: char)
    ensures 'a' <= c <= 'z' ==> u as int == c as int - 32
    ensures !('a' <= c <= 'z') ==> u == c
  {
    if 'a' <= c <= 'z' then (c as int - 32) as char else c
  }

  /** `String::equalsIgnoreCase`: same length and the same letters up to case. */
  predicate EqualsIgnoreCase(a: string, b: string)
  {
    |a| == |b| && forall i | 0 <= i < |a| :: Upper(a[i]) == Upper(b[i])
  }

  /** Comparing without case is an equivalence, and equal strings compare equal. */
  lemma IgnoreCaseIsEquivalence(a: string, b: string, c: string)
    ensures EqualsIgnoreCase(a, a)
    ensures EqualsIgnoreCase(a, b) ==> EqualsIgnoreCase(b, a)
    ensures EqualsIgnoreCase(a, b) && EqualsIgnoreCase(b, c) ==> EqualsIgnoreCase(a, c)
  {
  }

  /** A name compares equal to its upper-cased form, and never to itself
      with one more character. */
  lemma CaseIsIgnored(a: string, c: char)
    ensures EqualsIgnoreCase(a, seq(|a|, i requires 0 <= i < |a| => Upper(a[i])))
    ensures !EqualsIgnoreCase(a, a + [c])
  {
  }
}

/** The proxy that wraps an in-process processor as a plugin instance
    (Host/PluginInstanceProxy.h): it mirrors the inner processor's buses and
    layout, forwards everything else, and describes the inner processor as a
    plugin of the in-process format. */
module PluginProxy {
  import opened PluginDescriptions

  /** A bus layout: the channel count of every input and output bus. */
  datatype BusesLayout = BusesLayout(inputs: seq<int>, outputs: seq<int>)

  /** What the proxy reads of the wrapped processor. */
  datatype Processor = Processor(
    name: string, acceptsMidi: bool, totalInputChannels: int, totalOutputChannels: int, layout: BusesLayout)

  /** The inner processor's bus count on one side. */
  function BusCount(p: Processor, isInput: bool): (n: nat)
  {
    if isInput then |p.layout.inputs| else |p.layout.outputs|
  }

  const Manufacturer: string := "JUCE"

  /** getPluginDescription: the inner processor described as a plugin of the
      in-process format. `version` is the project's version string and
      `hash` the string hash; both are outside the model. */
  function GetPluginDescription(proc: Processor, version: string, hash: string -> int): (d: Description)
    ensures d.name == proc.name && d.descriptiveName == proc.name && d.fileOrIdentifier == proc.name
    ensures d.pluginFormatName == FormatIdentifier && d.manufacturerName == Manufacturer && d.version == version
    ensures d.category == (if proc.totalInputChannels != 0 then "Effect" else if proc.acceptsMidi then "Synth" else "Generator")
    ensures d.isInstrument <==> proc.acceptsMidi && proc.totalInputChannels == 0
    ensures d.numInputChannels == proc.totalInputChannels && d.numOutputChannels == proc.totalOutputChannels
    ensures d.uniqueId == d.deprecatedUid == hash(proc.name)
  {
    var ins := proc.totalInputChannels;
    var registerAsGenerator := ins == 0;
    var uid := hash(proc.name);
    Description(
      proc.name, proc.name, FormatIdentifier,
      if registerAsGenerator then (if proc.acceptsMidi then "Synth" else "Generator") else "Effect",
      Manufacturer, version, proc.name, proc.acceptsMidi && registerAsGenerator,
      ins, proc.totalOutputChannels, uid, uid)
  }

  /** An instrument is exactly a description whose category is "Synth". */
  lemma InstrumentIsSynth(proc: Processor, version: string, hash: string -> int)
    ensures GetPluginDescription(proc, version, hash).isInstrument <==>
            GetPluginDescription(proc, version, hash).category == "Synth"
  {
    var d := GetPluginDescription(proc, version, hash);
    if proc.totalInputChannels != 0 {
      assert d.category == "Effect" && "Effect" != "Synth";
    } else if !proc.acceptsMidi {
      assert d.category == "Generator" && "Generator" != "Synth";
    }
  }

  /** Two processors with the same name get the same identity, whatever
      else differs. */
  lemma IdentityIsTheName(p: Processor, q: Processor, version: string, hash: string -> int)
    requires p.name == q.name
    ensures GetPluginDescription(p, version, hash).uniqueId == GetPluginDescription(q, version, hash).uniqueId
    ensures GetPluginDescription(p, version, hash).fileOrIdentifier == GetPluginDescription(q, version, hash).fileOrIdentifier
  {
  }

  /** The channels of all buses on one side together. */
  function TotalChannels(buses: seq<int>): int
  {
    if buses == [] then 0 else TotalChannels(buses[..|buses| - 1]) + buses[|buses| - 1]
  }

  /** setBusesLayout on a processor that accepts the layout: the layout is
      taken and each side's total channel count becomes the sum over its buses. */
  function WithLayout(p: Processor, l: BusesLayout): (q: Processor)
    ensures q.name == p.name && q.acceptsMidi == p.acceptsMidi && q.layout == l
    ensures q.totalInputChannels == TotalChannels(l.inputs) && q.totalOutputChannels == TotalChannels(l.outputs)
  {
    p.(layout := l, totalInputChannels := TotalChannels(l.inputs), totalOutputChannels := TotalChannels(l.outputs))
  }

  class PluginInstanceProxy {
    var inner: Processor
    var inputBuses: nat
    var outputBuses: nat
    var layout: BusesLayout

    /** The proxy's bus count on one side. */
    function BusCountOf(isInput: bool): nat
      reads this
    {
      if isInput then inputBuses else outputBuses
    }

    /** canAddBus: always. */
    function CanAddBus(isInput: bool): (r: bool)
      ensures r
    {
      true
    }

    /** canRemoveBus: always. */
    function CanRemoveBus(isInput: bool): (r: bool)
      ensures r
    {
      true
    }

    /** addBus: adds a bus on the side when canAddBus allows it. */
    method AddBus(isInput: bool)
      modifies this`inputBuses, this`outputBuses
      ensures BusCountOf(isInput) == old(BusCountOf(isInput)) + 1
      ensures BusCountOf(!isInput) == old(BusCountOf(!isInput))
    {
      if CanAddBus(isInput) {
        if isInput { inputBuses := inputBuses + 1; } else { outputBuses := outputBuses + 1; }
      }
    }

    /** removeBus: removes a bus on the side when there is one and
        canRemoveBus allows it. */
    method RemoveBus(isInput: bool)
      modifies this`inputBuses, this`outputBuses
      ensures BusCountOf(isInput) == if old(BusCountOf(isInput)) > 0 then old(BusCountOf(isInput)) - 1 else 0
      ensures BusCountOf(!isInput) == old(BusCountOf(!isInput))
    {
      if CanRemoveBus(isInput) {
        if isInput {
          if inputBuses > 0 { inputBuses := inputBuses - 1; }
        } else {
          if outputBuses > 0 { outputBuses := outputBuses - 1; }
        }
      }
    }

    /** matchChannels: add buses until the proxy has as many as the inner
        processor on that side, then remove any surplus. */
    method MatchChannels(isInput: bool)
      modifies this`inputBuses, this`outputBuses
      ensures BusCountOf(isInput) == BusCount(inner, isInput)
      ensures BusCountOf(!isInput) == old(BusCountOf(!isInput))
    {
      var inBuses := BusCount(inner, isInput);
      while BusCountOf(isInput) < inBuses
        invariant BusCountOf(!isInput) == old(BusCountOf(!isInput))
        decreases inBuses - BusCountOf(isInput)
      {
        AddBus(isInput);
      }
      while inBuses < BusCountOf(isInput)
        invariant inBuses <= BusCountOf(isInput)
        invariant BusCountOf(!isInput) == old(BusCountOf(!isInput))
        decreases BusCountOf(isInput)
      {
        RemoveBus(isInput);
      }
    }

    /** The constructor: whatever buses the base instance starts with, both
        sides are matched to the inner processor and its layout is adopted. */
    constructor (innerIn: Processor, initialInputs: nat, initialOutputs: nat)
      ensures inner == innerIn
      ensures inputBuses == BusCount(innerIn, true) && outputBuses == BusCount(innerIn, false)
      ensures layout == innerIn.layout
    {
      inner := innerIn;
      inputBuses := initialInputs;
      outputBuses := initialOutputs;
      layout := BusesLayout([], []);
      new;
      MatchChannels(true);
      MatchChannels(false);
      layout := inner.layout;
    }

    /** fillInPluginDescription: the description of the inner processor. */
    function FillInPluginDescription(version: string, hash: string -> int): (d: Description)
      reads this
      ensures d.name == inner.name && d.pluginFormatName == FormatIdentifier
      ensures d.numInputChannels == inner.totalInputChannels && d.numOutputChannels == inner.totalOutputChannels
    {
      GetPluginDescription(inner, version, hash)
    }

    /** applyBusLayouts: the inner processor is asked first and, when it
        accepts, takes the layout at once; only then is the base asked, and
        the proxy's own layout changes only when both accept. */
    method ApplyBusLayouts(layouts: BusesLayout, innerAccepts: bool, baseAccepts: bool) returns (ok: bool)
      modifies this`layout, this`inner
      ensures ok <==> innerAccepts && baseAccepts
      ensures layout == if ok then layouts else old(layout)
      ensures inner == if innerAccepts then WithLayout(old(inner), layouts) else old(inner)
      ensures ok ==> layout == inner.layout
    {
      ok := innerAccepts;
      if ok {
        inner := WithLayout(inner, layouts);
        ok := baseAccepts;
        if ok {
          layout := layouts;
        }
      }
    }
  }
}
