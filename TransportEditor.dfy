/** The transport logic of the audio player's editor
    (AudioPlayerPlugin/Source/PluginEditor.cpp): the play and stop buttons, the
    transport's change notifications and `changeState`, which records the new
    state and sets the buttons' texts and enabled flags. Painting, layout,
    the file chooser dialog and the timer are not modelled. */
module TransportEditor {
  import opened Wrappers

  datatype TransportState = Stopped | Starting | Playing | Pausing | Paused | Stopping

  /** The state a click on Play asks for, if any. */
  function PlayTarget(s: TransportState): (t: Option<TransportState>)
    ensures t == Some(Starting) <==> s == Stopped || s == Paused
    ensures t == Some(Pausing) <==> s == Playing
    ensures t.None? <==> s == Starting || s == Pausing || s == Stopping
  {
    match s
    case Stopped | Paused => Some(Starting)
    case Playing => Some(Pausing)
    case Starting | Pausing | Stopping => None
  }

  /** The state a click on Stop asks for: Stopped from Paused, else Stopping. */
  function StopTarget(s: TransportState): (t: TransportState)
    ensures t == Stopped <==> s == Paused
    ensures t == Stopping <==> s != Paused
  {
    if s == Paused then Stopped else Stopping
  }

  /** The state the transport's change notification leads to, if any. */
  function ChangeTarget(s: TransportState, isPlaying: bool): (t: Option<TransportState>)
    ensures isPlaying ==> t == Some(Playing)
    ensures !isPlaying && (s == Stopping || s == Playing) ==> t == Some(Stopped)
    ensures !isPlaying && s == Pausing ==> t == Some(Paused)
    ensures !isPlaying && s in {Stopped, Starting, Paused} ==> t.None?
  {
    if isPlaying then Some(Playing)
    else if s == Stopping || s == Playing then Some(Stopped)
    else if s == Pausing then Some(Paused)
    else None
  }

  /** The three buttons' enabled flags and the play and stop texts. */
  datatype Buttons = Buttons(openEnabled: bool, playEnabled: bool, stopEnabled: bool, playText: string, stopText: string)

  /** What entering a state leaves on the buttons, as `changeState` sets them. */
  ghost predicate Shows(s: TransportState, b: Buttons)
  {
    match s
    case Stopped => b.playText == "Play" && b.stopText == "Stop" && !b.stopEnabled
    case Starting => !b.openEnabled
    case Playing => b.playText == "Pause" && b.stopText == "Stop" && b.stopEnabled
    case Pausing => b.openEnabled
    case Paused => b.openEnabled && b.playText == "Resume" && b.stopText == "Return to Zero"
    case Stopping => true
  }

  /** The button updates of `changeState`'s switch. */
  function Enter(s: TransportState, b: Buttons): (r: Buttons)
    ensures Shows(s, r)
    ensures r.playEnabled == b.playEnabled
    ensures s == Stopping ==> r == b
    ensures s !in {Starting, Pausing, Paused} ==> r.openEnabled == b.openEnabled
    ensures s !in {Stopped, Playing, Paused} ==> r.playText == b.playText && r.stopText == b.stopText
    ensures s !in {Stopped, Playing} ==> r.stopEnabled == b.stopEnabled
  {
    match s
    case Stopped => b.(playText := "Play", stopText := "Stop", stopEnabled := false)
    case Starting => b.(openEnabled := false)
    case Playing => b.(playText := "Pause", stopText := "Stop", stopEnabled := true)
    case Pausing => b.(openEnabled := true)
    case Paused => b.(openEnabled := true, playText := "Resume", stopText := "Return to Zero")
    case Stopping => b
  }

  /** The slider range the volume and gain values are divided by. */
  const SliderLength: real := 127.0

  /** `slider value / range length`: a slider position in [0, 127] becomes a
      level in [0, 1], 0 at the left end and 1 at the right. */
  function Level(value: real): (level: real)
    requires 0.0 <= value <= SliderLength
    ensures 0.0 <= level <= 1.0
    ensures value == 0.0 ==> level == 0.0
    ensures value == SliderLength ==> level == 1.0
    ensures level * SliderLength == value
  {
    value / SliderLength
  }

  class AudioPlayerEditor {
    /** The editor's copy of the transport state. */
    var state: TransportState
    var buttons: Buttons
    /** The states handed to the processor's `changeState`, in order. */
    var requests: seq<TransportState>
    /** The processor's volume and gain. */
    var volume: real
    var gain: real

    /** Every state shows on the buttons what entering it set. */
    ghost predicate Consistent()
      reads this
    {
      Shows(state, buttons)
    }

    /** The constructor: the state copied from the processor, Play and Stop
        disabled and labelled "play" and "stop", Open enabled. The lower-case
        "play" is not the "Play" that Stopped shows, so the buttons agree with
        the state only when it starts in Pausing or Stopping. */
    constructor (processorState: TransportState)
      ensures state == processorState && requests == []
      ensures buttons == Buttons(true, false, false, "play", "stop")
      ensures Consistent() <==> processorState == Pausing || processorState == Stopping
    {
      state := processorState;
      buttons := Buttons(true, false, false, "play", "stop");
      requests := [];
      volume, gain := 0.0, 0.0;
    }

    /** changeState: nothing happens when the state is unchanged; otherwise
        the state is recorded and the buttons updated for it. */
    method ChangeState(newState: TransportState)
      modifies this`state, this`buttons
      ensures state == newState
      ensures buttons == if old(state) == newState then old(buttons) else Enter(newState, old(buttons))
      ensures old(Consistent()) ==> Consistent()
    {
      if state != newState {
        state := newState;
        match state
        case Stopped =>
          buttons := buttons.(playText := "Play");
          buttons := buttons.(stopText := "Stop");
          buttons := buttons.(stopEnabled := false);
        case Starting =>
          buttons := buttons.(openEnabled := false);
        case Playing =>
          buttons := buttons.(playText := "Pause");
          buttons := buttons.(stopText := "Stop");
          buttons := buttons.(stopEnabled := true);
        case Pausing =>
          buttons := buttons.(openEnabled := true);
        case Paused =>
          buttons := buttons.(openEnabled := true);
          buttons := buttons.(playText := "Resume");
          buttons := buttons.(stopText := "Return to Zero");
        case Stopping =>
      }
    }

    /** Play's onClick: from Stopped or Paused start, from Playing pause, and
        tell the processor the same; in any other state do nothing. */
    method PlayClicked()
      modifies this`state, this`buttons, this`requests
      ensures PlayTarget(old(state)).None? ==> state == old(state) && buttons == old(buttons) && requests == old(requests)
      ensures PlayTarget(old(state)).Some? ==>
                var t := PlayTarget(old(state)).value;
                state == t && buttons == Enter(t, old(buttons)) && requests == old(requests) + [t]
      ensures old(Consistent()) ==> Consistent()
    {
      if state == Stopped || state == Paused {
        ChangeState(Starting);
        requests := requests + [Starting];
      } else if state == Playing {
        ChangeState(Pausing);
        requests := requests + [Pausing];
      }
    }

    /** Stop's onClick: from Paused stop at once, otherwise ask to stop; the
        processor is told the same. */
    method StopClicked()
      modifies this`state, this`buttons, this`requests
      ensures state == StopTarget(old(state)) && requests == old(requests) + [state]
      ensures buttons == if old(state) == state then old(buttons) else Enter(state, old(buttons))
      ensures old(Consistent()) ==> Consistent()
    {
      if state == Paused {
        ChangeState(Stopped);
        requests := requests + [Stopped];
      } else {
        ChangeState(Stopping);
        requests := requests + [Stopping];
      }
    }

    /** changeListenerCallback for the transport source: playing means
        Playing; a stop or end of playback means Stopped; a finished pause
        means Paused. The processor is not told. */
    method TransportChanged(isPlaying: bool)
      modifies this`state, this`buttons
      ensures ChangeTarget(old(state), isPlaying).None? ==> state == old(state) && buttons == old(buttons)
      ensures ChangeTarget(old(state), isPlaying).Some? ==>
                var t := ChangeTarget(old(state), isPlaying).value;
                state == t && buttons == if old(state) == t then old(buttons) else Enter(t, old(buttons))
      ensures old(Consistent()) ==> Consistent()
    {
      if isPlaying {
        ChangeState(Playing);
      } else if state == Stopping || state == Playing {
        ChangeState(Stopped);
      } else if state == Pausing {
        ChangeState(Paused);
      }
    }

    /** The file chooser's callback: a chosen file is loaded and Play enabled;
        cancelling changes nothing. */
    method FileChosen(chosen: bool)
      modifies this`buttons
      ensures buttons == if chosen then old(buttons).(playEnabled := true) else old(buttons)
      ensures old(Consistent()) ==> Consistent()
    {
      if chosen {
        buttons := buttons.(playEnabled := true);
      }
    }

    /** The volume slider's onValueChange. */
    method VolumeChanged(value: real)
      requires 0.0 <= value <= SliderLength
      modifies this`volume
      ensures volume == Level(value) && 0.0 <= volume <= 1.0
    {
      volume := value / SliderLength;
    }

    /** The gain slider's onValueChange. */
    method GainChanged(value: real)
      requires 0.0 <= value <= SliderLength
      modifies this`gain
      ensures gain == Level(value) && 0.0 <= gain <= 1.0
    {
      gain := value / SliderLength;
    }
  }

  /** A full play cycle as the buttons and the transport drive it: Play from
      Stopped starts, the transport's start shows Playing, Play pauses, the
      transport's stop shows Paused, and Stop from there returns to Stopped.
      Every state on the way shows on the buttons what it should. */
  lemma PlayPauseStopCycle(b: Buttons)
    requires Shows(Stopped, b)
    ensures var s1 := PlayTarget(Stopped).value;
            var s2 := ChangeTarget(s1, true).value;
            var s3 := PlayTarget(s2).value;
            var s4 := ChangeTarget(s3, false).value;
            var s5 := StopTarget(s4);
            [s1, s2, s3, s4, s5] == [Starting, Playing, Pausing, Paused, Stopped] &&
            Shows(s5, Enter(s5, Enter(s4, Enter(s3, Enter(s2, Enter(s1, b))))))
  {
  }

  /** Stop from any state but Paused only asks to stop; the transport's
      notification that it no longer plays completes it to Stopped. */
  lemma StopWaitsForTransport(s: TransportState)
    requires s != Paused
    ensures StopTarget(s) == Stopping && ChangeTarget(Stopping, false) == Some(Stopped)
  {
  }
}
