/** The in-process plugin format and its factory (Host/PluginInstanceFormat.cpp,
    and the same code in PluginTestHost/InternalPluginFormat.cpp): a fixed list
    of constructors, the descriptions of what they build, and a lookup by
    name that ignores case and takes the first match. */
module PluginFactory {
  import opened Wrappers
  import opened PluginDescriptions
  import PluginProxy

  /** What a constructor builds: one of the graph's four I/O processors, or
      a proxy around a named in-process processor. */
  datatype Kind = AudioInputNode | MidiInputNode | AudioOutputNode | MidiOutputNode | ProxyOf(processor: string)

  /** A constructor, with the description that the instance it builds
      reports from `getPluginDescription`. */
  datatype Constructor = Constructor(kind: Kind, description: Description)

  /** A plugin instance, as far as the format sees it. */
  datatype Instance = Instance(kind: Kind, description: Description)

  /** Calling a constructor. */
  function Construct(c: Constructor): (p: Instance)
    ensures p.kind == c.kind && p.description == c.description
  {
    Instance(c.kind, c.description)
  }

  /** `std::find_if` with `equalsIgnoreCase`: the index of the first
      description whose name matches, if any. */
  function FindFirst(descriptions: seq<Description>, name: string): (r: Option<nat>)
    ensures r.None? <==> forall i | 0 <= i < |descriptions| :: !EqualsIgnoreCase(name, descriptions[i].name)
    ensures r.Some? ==> r.value < |descriptions| && EqualsIgnoreCase(name, descriptions[r.value].name)
    ensures r.Some? ==> forall j | 0 <= j < r.value :: !EqualsIgnoreCase(name, descriptions[j].name)
  {
    if descriptions == [] then None
    else if EqualsIgnoreCase(name, descriptions[0].name) then Some(0)
    else
      match FindFirst(descriptions[1..], name)
      case None => None
      case Some(k) => Some(k + 1)
  }

  /** Names that differ pairwise, case ignored. */
  predicate DistinctNames(descriptions: seq<Description>)
  {
    forall i, j | 0 <= i < j < |descriptions| :: !EqualsIgnoreCase(descriptions[i].name, descriptions[j].name)
  }

  /** With distinct names every description is found by its own name, and a
      name that differs only in case finds it too. */
  lemma FindsOwnIndex(descriptions: seq<Description>, i: nat, name: string)
    requires DistinctNames(descriptions) && i < |descriptions|
    requires EqualsIgnoreCase(name, descriptions[i].name)
    ensures FindFirst(descriptions, name) == Some(i)
  {
    var r := FindFirst(descriptions, name);
    assert r.Some?;
    if r.value < i {
      IgnoreCaseIsEquivalence(name, descriptions[r.value].name, descriptions[i].name);
      IgnoreCaseIsEquivalence(descriptions[r.value].name, name, descriptions[i].name);
      assert false;
    } else if r.value > i {
      assert false;
    }
  }

  /** When two descriptions share a name up to case, the later one is never
      found by that name. */
  lemma LaterDuplicateShadowed(descriptions: seq<Description>, i: nat, j: nat)
    requires i < j < |descriptions|
    requires EqualsIgnoreCase(descriptions[i].name, descriptions[j].name)
    ensures FindFirst(descriptions, descriptions[j].name).Some?
    ensures FindFirst(descriptions, descriptions[j].name).value <= i
  {
    IgnoreCaseIsEquivalence(descriptions[j].name, descriptions[i].name, descriptions[i].name);
    IgnoreCaseIsEquivalence(descriptions[i].name, descriptions[j].name, descriptions[i].name);
  }

  /** The callback's arguments: the instance, or none and an error message. */
  datatype Created = Created(instance: Option<Instance>, error: string)

  const InvalidName: string := "Invalid internal plugin name"

  class PluginFormat {
    const constructors: seq<Constructor>
    /** One description per constructor, built once when the factory is made. */
    const descriptions: seq<Description>

    /** The descriptions are those of the instances the constructors build. */
    predicate Valid()
    {
      |descriptions| == |constructors| &&
      forall i | 0 <= i < |constructors| :: descriptions[i] == Construct(constructors[i]).description
    }

    /** The factory's constructor: every constructor is called once, in
        order, and the description of what it built is kept. */
    static method Describe(constructorsIn: seq<Constructor>) returns (result: seq<Description>)
      ensures |result| == |constructorsIn|
      ensures forall i | 0 <= i < |constructorsIn| :: result[i] == Construct(constructorsIn[i]).description
    {
      result := [];
      for k := 0 to |constructorsIn|
        invariant |result| == k
        invariant forall i | 0 <= i < k :: result[i] == Construct(constructorsIn[i]).description
      {
        result := result + [Construct(constructorsIn[k]).description];
      }
    }

    /** A format over any constructor list. */
    constructor (constructorsIn: seq<Constructor>)
      ensures Valid() && constructors == constructorsIn
      ensures forall i | 0 <= i < |constructors| :: descriptions[i] == constructors[i].description
    {
      var built := Describe(constructorsIn);
      constructors := constructorsIn;
      descriptions := built;
    }

    /** The host's format: the graph's audio and MIDI input and output
        processors, then a proxy around the reverb. `io` and `reverb` are the
        descriptions those report; their text comes from outside the model. */
    constructor Host(io: seq<Description>, reverb: PluginProxy.Processor, version: string, hash: string -> int)
      requires |io| == 4
      ensures Valid() && |descriptions| == 5
      ensures constructors == IoConstructors(io) + [Constructor(ProxyOf(reverb.name), PluginProxy.GetPluginDescription(reverb, version, hash))]
      ensures descriptions == io + [PluginProxy.GetPluginDescription(reverb, version, hash)]
    {
      var all := IoConstructors(io) + [Constructor(ProxyOf(reverb.name), PluginProxy.GetPluginDescription(reverb, version, hash))];
      var built := Describe(all);
      constructors := all;
      descriptions := built;
    }

    /** The test host's format: the four I/O processors only. */
    constructor TestHost(io: seq<Description>)
      requires |io| == 4
      ensures Valid() && constructors == IoConstructors(io) && descriptions == io
    {
      var built := Describe(IoConstructors(io));
      constructors := IoConstructors(io);
      descriptions := built;
    }

    /** createInstance: the instance built by the constructor at the index
        of the first description whose name matches, or none. */
    function CreateInstance(name: string): (r: Option<Instance>)
      requires Valid()
      ensures r.None? <==> forall i | 0 <= i < |descriptions| :: !EqualsIgnoreCase(name, descriptions[i].name)
      ensures r.Some? ==> exists i | 0 <= i < |constructors| ::
                EqualsIgnoreCase(name, descriptions[i].name) && r.value == Construct(constructors[i]) &&
                forall j | 0 <= j < i :: !EqualsIgnoreCase(name, descriptions[j].name)
    {
      match FindFirst(descriptions, name)
      case None => None
      case Some(index) => Some(Construct(constructors[index]))
    }

    /** createPluginInstance: the callback gets the instance and no error,
        or no instance and the invalid-name message. */
    function CreatePluginInstance(desc: Description): (r: Created)
      requires Valid()
      ensures r.instance.Some? <==> exists i | 0 <= i < |descriptions| :: EqualsIgnoreCase(desc.name, descriptions[i].name)
      ensures r.instance.Some? ==> r.error == ""
      ensures r.instance.None? ==> r.error == InvalidName
      ensures r.instance == CreateInstance(desc.name)
    {
      match CreateInstance(desc.name)
      case Some(p) => Created(Some(p), "")
      case None => Created(None, InvalidName)
    }

    /** requiresUnblockedMessageThreadDuringCreation: never. */
    function RequiresUnblockedMessageThreadDuringCreation(desc: Description): (r: bool)
      ensures !r
    {
      false
    }

    /** getAllTypes: one description per constructor, in order. */
    function GetAllTypes(): (types: seq<Description>)
      requires Valid()
      ensures |types| == |constructors|
      ensures forall i | 0 <= i < |types| :: types[i] == Construct(constructors[i]).description
    {
      descriptions
    }
  }

  /** The four I/O processor constructors, in the order both formats list them. */
  function IoConstructors(io: seq<Description>): (cs: seq<Constructor>)
    requires |io| == 4
    ensures |cs| == 4 && forall i | 0 <= i < 4 :: cs[i].description == io[i]
    ensures [cs[0].kind, cs[1].kind, cs[2].kind, cs[3].kind] == [AudioInputNode, MidiInputNode, AudioOutputNode, MidiOutputNode]
  {
    [Constructor(AudioInputNode, io[0]), Constructor(MidiInputNode, io[1]),
     Constructor(AudioOutputNode, io[2]), Constructor(MidiOutputNode, io[3])]
  }

  /** Every listed type can be created by its own name. */
  lemma EveryTypeIsCreatable(f: PluginFormat, i: nat)
    requires f.Valid() && i < |f.descriptions|
    ensures f.CreateInstance(f.GetAllTypes()[i].name).Some?
  {
    IgnoreCaseIsEquivalence(f.descriptions[i].name, f.descriptions[i].name, f.descriptions[i].name);
  }

  /** When the format's names are distinct, each of its own descriptions
      creates exactly the instance of its own constructor. */
  lemma EachTypeCreatesItself(f: PluginFormat, i: nat)
    requires f.Valid() && DistinctNames(f.descriptions) && i < |f.descriptions|
    ensures f.CreatePluginInstance(f.descriptions[i]) == Created(Some(Construct(f.constructors[i])), "")
  {
    IgnoreCaseIsEquivalence(f.descriptions[i].name, f.descriptions[i].name, f.descriptions[i].name);
    FindsOwnIndex(f.descriptions, i, f.descriptions[i].name);
  }
}
