/** The Arpeggiator MIDI effect (Arpeggiator/Source/PluginProcessor.cpp):
    it collects the held notes from the incoming note-on and note-off
    messages, replaces the block's MIDI with its own, and every
    `noteDuration` samples releases the last note it played and plays the
    next held note in order. */
module Arpeggiator {
  import opened Wrappers

  /** An incoming MIDI message as far as the arpeggiator distinguishes it. */
  datatype MidiIn = NoteOn(note: int) | NoteOff(note: int) | OtherMessage

  /** An event the arpeggiator emits, at a sample offset within the block. */
  datatype MidiOut =
    | NoteOffEvent(channel: int, note: int, offset: int)
    | NoteOnEvent(channel: int, note: int, velocity: int, offset: int)

  /** The MIDI channel and velocity every emitted note uses. */
  const Channel: int := 1
  const Velocity: int := 127

  /** The held notes are a sorted set of note numbers: ascending, no repeats. */
  ghost predicate Sorted(s: seq<int>)
  {
    forall i, j | 0 <= i < j < |s| :: s[i] < s[j]
  }

  /** `notes.add(n)`: the set with n in it, still sorted. */
  function Add(s: seq<int>, x: int): (r: seq<int>)
    requires Sorted(s)
    ensures Sorted(r)
    ensures forall y :: y in r <==> y in s || y == x
    decreases |s|
  {
    if s == [] then [x]
    else if x < s[0] then [x] + s
    else if x == s[0] then s
    else
      var t := Add(s[1..], x);
      SortedCons(s[0], t);
      [s[0]] + t
  }

  /** `notes.removeValue(n)`: the set without n, still sorted. */
  function Remove(s: seq<int>, x: int): (r: seq<int>)
    requires Sorted(s)
    ensures Sorted(r)
    ensures forall y :: y in r <==> y in s && y != x
    decreases |s|
  {
    if s == [] then []
    else if s[0] == x then s[1..]
    else
      var t := Remove(s[1..], x);
      SortedCons(s[0], t);
      [s[0]] + t
  }

  /** A note below every note of a sorted set can go in front of it. */
  lemma SortedCons(h: int, t: seq<int>)
    requires Sorted(t) && forall y | y in t :: h < y
    ensures Sorted([h] + t)
  {
    forall i, j | 0 <= i < j < |[h] + t| ensures ([h] + t)[i] < ([h] + t)[j] {
      if i > 0 {
        assert ([h] + t)[i] == t[i - 1] && ([h] + t)[j] == t[j - 1];
      } else {
        assert ([h] + t)[j] == t[j - 1] && t[j - 1] in t;
      }
    }
  }

  /** The held notes after the loop over the incoming messages: note-on adds
      its note, note-off removes it, other messages are ignored. */
  function Track(notes: seq<int>, midi: seq<MidiIn>): (r: seq<int>)
    requires Sorted(notes)
    ensures Sorted(r)
    decreases |midi|
  {
    if midi == [] then notes
    else
      var held := Track(notes, midi[..|midi| - 1]);
      match midi[|midi| - 1]
      case NoteOn(n) => Add(held, n)
      case NoteOff(n) => Remove(held, n)
      case OtherMessage => held
  }

  /** Whether the last note-on or note-off about note x in the messages was an
      on; None when no message speaks of x. */
  function LastAbout(midi: seq<MidiIn>, x: int): Option<bool>
    decreases |midi|
  {
    if midi == [] then None
    else
      match midi[|midi| - 1]
      case NoteOn(n) => if n == x then Some(true) else LastAbout(midi[..|midi| - 1], x)
      case NoteOff(n) => if n == x then Some(false) else LastAbout(midi[..|midi| - 1], x)
      case OtherMessage => LastAbout(midi[..|midi| - 1], x)
  }

  /** A note is held after the messages iff the last message about it was a
      note-on, or no message spoke of it and it was already held. */
  lemma {:induction false} TrackHolds(notes: seq<int>, midi: seq<MidiIn>, x: int)
    requires Sorted(notes)
    ensures x in Track(notes, midi) <==> LastAbout(midi, x) == Some(true) || (LastAbout(midi, x) == None && x in notes)
    decreases |midi|
  {
    if midi != [] {
      TrackHolds(notes, midi[..|midi| - 1], x);
    }
  }

  /** The arpeggiator's fields: the held notes, the index of the note last
      played, the note number still sounding (-1 for none) and the sample
      time since the last step. */
  datatype Arp = Arp(notes: seq<int>, currentNote: int, lastNoteValue: int, time: int)

  /** The step at the end of processBlock, once the held notes are known.
      When the next step falls within this block (`time + numSamples >=
      noteDuration`) it releases the sounding note if `lastNoteValue > 0`, and
      plays the next held note if any, at the step's offset clamped into the
      block; the time then advances modulo the note duration. */
  function Step(a: Arp, numSamples: int, noteDuration: int): (r: (Arp, seq<MidiOut>))
    requires noteDuration > 0 && a.currentNote >= 0
  {
    var time' := (a.time + numSamples) % noteDuration;
    if a.time + numSamples >= noteDuration then
      var offset := Max(0, Min(noteDuration - a.time, numSamples - 1));
      var off := if a.lastNoteValue > 0 then [NoteOffEvent(Channel, a.lastNoteValue, offset)] else [];
      var last := if a.lastNoteValue > 0 then -1 else a.lastNoteValue;
      if |a.notes| > 0 then
        var current := (a.currentNote + 1) % |a.notes|;
        (Arp(a.notes, current, a.notes[current], time'),
         off + [NoteOnEvent(Channel, a.notes[current], Velocity, offset)])
      else
        (Arp(a.notes, a.currentNote, last, time'), off)
    else
      (Arp(a.notes, a.currentNote, a.lastNoteValue, time'), [])
  }

  function Min(x: int, y: int): int { if x < y then x else y }
  function Max(x: int, y: int): int { if x < y then y else x }

  /** A whole processBlock: track the held notes, then step. */
  function Block(a: Arp, midi: seq<MidiIn>, numSamples: int, noteDuration: int): (r: (Arp, seq<MidiOut>))
    requires noteDuration > 0 && a.currentNote >= 0 && Sorted(a.notes)
  {
    Step(a.(notes := Track(a.notes, midi)), numSamples, noteDuration)
  }

  /** The time after a block is the old time plus the block length modulo the
      note duration, so it stays below the note duration; the held notes are
      what the messages left and currentNote stays a valid index once a note
      is held. */
  lemma StepKeepsTime(a: Arp, numSamples: int, noteDuration: int)
    requires noteDuration > 0 && a.currentNote >= 0 && a.time >= 0 && numSamples >= 0
    ensures var r := Step(a, numSamples, noteDuration).0;
            r.time == (a.time + numSamples) % noteDuration && 0 <= r.time < noteDuration &&
            r.notes == a.notes && r.currentNote >= 0 &&
            (a.time + numSamples >= noteDuration && |a.notes| > 0 ==> r.currentNote < |a.notes|)
  {
  }

  /** Nothing is emitted unless the step falls within the block, and every
      event sits at an offset inside a non-empty block. */
  lemma StepEventsInBlock(a: Arp, numSamples: int, noteDuration: int)
    requires noteDuration > 0 && a.currentNote >= 0 && a.time >= 0
    ensures var evs := Step(a, numSamples, noteDuration).1;
            (|evs| > 0 ==> a.time + numSamples >= noteDuration) &&
            forall e | e in evs :: 0 <= e.offset && (numSamples >= 1 ==> e.offset < numSamples)
  {
  }

  /** On a step the pending note is released iff lastNoteValue > 0, and the
      release comes first, on channel 1, for that very note. */
  lemma StepReleases(a: Arp, numSamples: int, noteDuration: int)
    requires noteDuration > 0 && a.currentNote >= 0
    requires a.time + numSamples >= noteDuration
    ensures var evs := Step(a, numSamples, noteDuration).1;
            (a.lastNoteValue > 0 <==> |evs| > 0 && evs[0].NoteOffEvent?) &&
            (a.lastNoteValue > 0 ==> evs[0].channel == Channel && evs[0].note == a.lastNoteValue)
  {
  }

  /** With notes held, a step moves to the next note cyclically, remembers it
      as sounding and ends with its note-on on channel 1 at velocity 127. */
  lemma StepPlaysNext(a: Arp, numSamples: int, noteDuration: int)
    requires noteDuration > 0 && a.currentNote >= 0
    requires a.time + numSamples >= noteDuration && |a.notes| > 0
    ensures var r := Step(a, numSamples, noteDuration);
            r.0.currentNote == (a.currentNote + 1) % |a.notes| &&
            r.0.lastNoteValue == a.notes[r.0.currentNote] &&
            |r.1| > 0 && r.1[|r.1| - 1] == NoteOnEvent(Channel, r.0.lastNoteValue, Velocity, r.1[|r.1| - 1].offset)
  {
  }

  /** With no note held, a step plays nothing and leaves no note sounding
      (a pending note 0 aside, see NoteZeroNeverReleased). */
  lemma StepWithoutNotes(a: Arp, numSamples: int, noteDuration: int)
    requires noteDuration > 0 && a.currentNote >= 0 && a.lastNoteValue != 0
    requires a.time + numSamples >= noteDuration && |a.notes| == 0
    ensures var r := Step(a, numSamples, noteDuration);
            r.0.lastNoteValue == -1 || (a.lastNoteValue < 0 && r.0.lastNoteValue == a.lastNoteValue)
    ensures forall e | e in Step(a, numSamples, noteDuration).1 :: e.NoteOffEvent?
  {
  }

  /** As written, a sounding note 0 is never released: the guard
      `lastNoteValue > 0` skips it, so holding only note 0 re-triggers it
      step after step without a note-off in between. */
  lemma NoteZeroNeverReleased(numSamples: int, noteDuration: int)
    requires 0 < noteDuration <= numSamples
    ensures var a := Arp([0], 0, 0, 0);
            Step(a, numSamples, noteDuration).1 == [NoteOnEvent(Channel, 0, Velocity, Min(noteDuration, numSamples - 1))] &&
            Step(a, numSamples, noteDuration).0.lastNoteValue == 0
  {
  }

  /** The step with the release guard the note numbering calls for,
      `lastNoteValue >= 0`: every MIDI note 0..127 that was played is released. */
  function IntendedStep(a: Arp, numSamples: int, noteDuration: int): (r: (Arp, seq<MidiOut>))
    requires noteDuration > 0 && a.currentNote >= 0
  {
    var time' := (a.time + numSamples) % noteDuration;
    if a.time + numSamples >= noteDuration then
      var offset := Max(0, Min(noteDuration - a.time, numSamples - 1));
      var off := if a.lastNoteValue >= 0 then [NoteOffEvent(Channel, a.lastNoteValue, offset)] else [];
      var last := if a.lastNoteValue >= 0 then -1 else a.lastNoteValue;
      if |a.notes| > 0 then
        var current := (a.currentNote + 1) % |a.notes|;
        (Arp(a.notes, current, a.notes[current], time'),
         off + [NoteOnEvent(Channel, a.notes[current], Velocity, offset)])
      else
        (Arp(a.notes, a.currentNote, last, time'), off)
    else
      (Arp(a.notes, a.currentNote, a.lastNoteValue, time'), [])
  }

  /** With the intended guard every step that fires releases whatever note
      is sounding before it plays another, and leaves at most the note it
      just played sounding. */
  lemma IntendedStepReleasesEveryNote(a: Arp, numSamples: int, noteDuration: int)
    requires noteDuration > 0 && a.currentNote >= 0 && a.lastNoteValue >= -1
    requires a.time + numSamples >= noteDuration
    ensures var r := IntendedStep(a, numSamples, noteDuration);
            (a.lastNoteValue >= 0 ==> |r.1| > 0 && r.1[0] == NoteOffEvent(Channel, a.lastNoteValue, r.1[0].offset)) &&
            (|a.notes| == 0 ==> r.0.lastNoteValue == -1) &&
            (|a.notes| > 0 ==> r.0.lastNoteValue == a.notes[r.0.currentNote] &&
                               r.1[|r.1| - 1].NoteOnEvent? && r.1[|r.1| - 1].note == r.0.lastNoteValue)
  {
  }

  class ArpeggiatorProcessor {
    var notes: seq<int>
    var currentNote: int
    var lastNoteValue: int
    var time: int
    var rate: real

    /** The invariant prepareToPlay sets up and processBlock keeps. */
    ghost predicate Valid()
      reads this
    {
      Sorted(notes) && currentNote >= 0 && time >= 0
    }

    /** The four fields processBlock works on, as one value. */
    function State(): Arp
      reads this
    {
      Arp(notes, currentNote, lastNoteValue, time)
    }

    /** prepareToPlay: no note held, none sounding, time zero. */
    method PrepareToPlay(sampleRate: real)
      modifies this
      ensures Valid()
      ensures State() == Arp([], 0, -1, 0) && rate == sampleRate
    {
      notes := [];
      currentNote := 0;
      lastNoteValue := -1;
      time := 0;
      rate := sampleRate;
    }

    /** The loop over the incoming messages: note-on adds its note to the
        held set, note-off removes it. */
    method TrackNotes(midi: seq<MidiIn>)
      requires Sorted(notes)
      modifies this`notes
      ensures Sorted(notes) && notes == Track(old(notes), midi)
    {
      ghost var held := notes;
      for k := 0 to |midi|
        invariant Sorted(notes) && notes == Track(held, midi[..k])
      {
        assert midi[..k + 1][..k] == midi[..k];
        match midi[k]
        case NoteOn(n) => notes := Add(notes, n);
        case NoteOff(n) => notes := Remove(notes, n);
        case OtherMessage =>
      }
      assert midi[..|midi|] == midi;
    }

    /** processBlock: `midi` is the block's incoming MIDI and `events` what
        the MIDI buffer holds afterwards. The note duration in samples is
        computed from the speed slider by the caller. */
    method ProcessBlock(midi: seq<MidiIn>, numSamples: nat, noteDuration: int) returns (events: seq<MidiOut>)
      requires Valid() && noteDuration > 0
      modifies this`notes, this`currentNote, this`lastNoteValue, this`time
      ensures Valid()
      ensures (State(), events) == Block(old(State()), midi, numSamples, noteDuration)
    {
      TrackNotes(midi);
      events := Advance(numSamples, noteDuration);
    }

    /** The part of processBlock after the messages are read: when the note
        duration is reached within the block the sounding note is released
        and the next held note played; the time moves on by the block. */
    method Advance(numSamples: nat, noteDuration: int) returns (events: seq<MidiOut>)
      requires Valid() && noteDuration > 0
      modifies this`currentNote, this`lastNoteValue, this`time
      ensures Valid()
      ensures (State(), events) == Step(old(State()), numSamples, noteDuration)
    {
      ghost var a := State();
      events := [];
      if time + numSamples >= noteDuration {
        var offset := Max(0, Min(noteDuration - time, numSamples - 1));
        if lastNoteValue > 0 {
          events := events + [NoteOffEvent(Channel, lastNoteValue, offset)];
          lastNoteValue := -1;
        }
        if |notes| > 0 {
          currentNote := (currentNote + 1) % |notes|;
          lastNoteValue := notes[currentNote];
          events := events + [NoteOnEvent(Channel, lastNoteValue, Velocity, offset)];
        }
      }
      time := (time + numSamples) % noteDuration;
      ghost var r := Step(a, numSamples, noteDuration);
      assert State().notes == r.0.notes;
      assert State().currentNote == r.0.currentNote;
      assert State().lastNoteValue == r.0.lastNoteValue;
      assert State().time == r.0.time;
      assert events == r.1;
    }
  }
}
