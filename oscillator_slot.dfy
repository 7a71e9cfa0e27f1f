/**
 * The single-voice part of the synthesizer: the waveform names the app
 * accepts, the module-level slot holding the one oscillator that may be
 * sounding, the handlers that start and stop it, and the handlers that copy
 * volume, frequency and waveform into the audio controller.
 *
 * Oscillators are opaque tokens (natural numbers handed out by the
 * controller); what the audio engine is asked to do is recorded as a log of
 * events instead of being performed.
 */
module OscillatorSlot {
  import opened Wrappers

  /** The waveform types an oscillator can take. */
  datatype OscillatorType = Custom | Sawtooth | Sine | Square | Triangle {
    /** The name the Web Audio API uses for this type. */
    function Name(): string {
      match this
      case Custom => "custom"
      case Sawtooth => "sawtooth"
      case Sine => "sine"
      case Square => "square"
      case Triangle => "triangle"
    }
  }

  /** The types offered by the waveform selector, in display order. */
  const OscillatorTypes: seq<OscillatorType> := [Custom, Sawtooth, Sine, Square, Triangle]

  /** The first type in `types` whose name is `value`, if there is one. */
  function FindByName(types: seq<OscillatorType>, value: string): (r: Option<OscillatorType>)
    ensures r.Some? ==> r.value in types && r.value.Name() == value
    ensures r.None? ==> forall t :: t in types ==> t.Name() != value
    decreases |types|
  {
    if types == [] then None
    else if types[0].Name() == value then Some(types[0])
    else FindByName(types[1..], value)
  }

  /** The message of the error thrown for a name that is not a waveform type. */
  function NotATypeMessage(value: string): string {
    "value: [" + value + "] is not \"OscillatorType\""
  }

  /**
   * Checks that `value` names one of the offered waveform types; on success
   * it yields that type, otherwise the error the source throws.
   */
  function AssertOscillatorTypeValue(value: string): (r: Result<OscillatorType, string>)
    ensures r.Success? <==>
              value == "custom" || value == "sawtooth" || value == "sine" || value == "square" || value == "triangle"
    ensures r.Success? ==> r.value.Name() == value
    ensures r.Failure? ==> r.error == NotATypeMessage(value)
  {
    match FindByName(OscillatorTypes, value)
    case Some(t) => Success(t)
    case None => Failure(NotATypeMessage(value))
  }

  /** Every type's own name passes the check and yields that type back. */
  lemma NameRoundTrip(t: OscillatorType)
    ensures AssertOscillatorTypeValue(t.Name()) == Success(t)
  {
  }

  /** A call made on the audio engine. */
  datatype AudioEvent =
    | Created(id: nat, kind: OscillatorType, frequency: real)
    | Started(id: nat)
    | Stopped(id: nat)

  /** The oscillators that `log` has started and not stopped since. */
  function LiveVoices(log: seq<AudioEvent>): set<nat>
    decreases |log|
  {
    if log == [] then {}
    else
      var before := LiveVoices(log[..|log| - 1]);
      match log[|log| - 1]
      case Created(_, _, _) => before
      case Started(id) => before + {id}
      case Stopped(id) => before - {id}
  }

  /** No event after position `k` of `log` stops oscillator `id`. */
  ghost predicate NotStoppedAfter(log: seq<AudioEvent>, id: nat, k: nat) {
    forall m :: k < m < |log| ==> log[m] != Stopped(id)
  }

  /** Some event of `log` starts oscillator `id` and no later event stops it. */
  ghost predicate StartedAndNotStopped(log: seq<AudioEvent>, id: nat) {
    exists k :: 0 <= k < |log| && log[k] == Started(id) && NotStoppedAfter(log, id, k)
  }

  /** An oscillator is live exactly when the log starts it and does not stop it afterwards. */
  lemma {:induction false} LiveVoicesCharacterised(log: seq<AudioEvent>, id: nat)
    ensures id in LiveVoices(log) <==> StartedAndNotStopped(log, id)
    decreases |log|
  {
    if log != [] {
      var n := |log| - 1;
      var prefix := log[..n];
      LiveVoicesCharacterised(prefix, id);
      if log[n] == Started(id) {
        assert NotStoppedAfter(log, id, n);
      } else if log[n] == Stopped(id) {
        forall k | 0 <= k < |log| && log[k] == Started(id)
          ensures !NotStoppedAfter(log, id, k)
        {
          assert k < n && log[n] == Stopped(id);
        }
      } else {
        assert id in LiveVoices(log) <==> id in LiveVoices(prefix);
        if StartedAndNotStopped(prefix, id) {
          var k :| 0 <= k < n && prefix[k] == Started(id) && NotStoppedAfter(prefix, id, k);
          assert log[k] == Started(id) && NotStoppedAfter(log, id, k);
        }
        if StartedAndNotStopped(log, id) {
          var k :| 0 <= k < |log| && log[k] == Started(id) && NotStoppedAfter(log, id, k);
          assert k < n && prefix[k] == Started(id) && NotStoppedAfter(prefix, id, k);
        }
      }
    }
  }

  /** The ids held by a nullable slot. */
  function SlotIds(slot: Option<nat>): set<nat> {
    if slot.Some? then {slot.value} else {}
  }

  /**
   * The audio controller: the settings new oscillators are built from, the
   * gain applied to every voice, and the record of engine calls.
   */
  class AudioController {
    var frequency: real
    var waveForm: OscillatorType
    var gain: real
    /** The calls made on the audio engine so far, oldest first. */
    var log: seq<AudioEvent>
    /** How many oscillators have been created; the next one gets this id. */
    var created: nat

    /** A controller at its defaults; the engine supplies the initial gain. */
    constructor (initialGain: real)
      ensures frequency == 440.0 && waveForm == Sawtooth && gain == initialGain
      ensures log == [] && created == 0
    {
      frequency := 440.0;
      waveForm := Sawtooth;
      gain := initialGain;
      log := [];
      created := 0;
    }

    /** Creates an oscillator of the current type and frequency, not yet started. */
    method CreateOscillator() returns (id: nat)
      modifies this`log, this`created
      ensures id == old(created) && created == old(created) + 1
      ensures log == old(log) + [Created(id, waveForm, frequency)]
    {
      id := created;
      created := created + 1;
      log := log + [Created(id, waveForm, frequency)];
    }

    /** The engine call `oscillator.start()`. */
    method Start(id: nat)
      modifies this`log
      ensures log == old(log) + [Started(id)]
    {
      log := log + [Started(id)];
    }

    /** The engine call `oscillator.stop()`. */
    method Stop(id: nat)
      modifies this`log
      ensures log == old(log) + [Stopped(id)]
    {
      log := log + [Stopped(id)];
    }
  }

  /**
   * The app: the module-level oscillator slot, the component's displayed
   * settings, and the controller they are copied into.
   */
  class App {
    const controller: AudioController
    /** The oscillator currently sounding, if any. */
    var oscillator: Option<nat>
    var volume: real
    var frequency: real
    var waveForm: OscillatorType

    /**
     * Every logged id was handed out by the controller, the slot holds one of
     * them, and the slot holds exactly the oscillators started and not
     * stopped, so at most one is ever sounding.
     */
    ghost predicate Valid()
      reads this, controller
    {
      && (forall k :: 0 <= k < |controller.log| ==> controller.log[k].id < controller.created)
      && (oscillator.Some? ==> oscillator.value < controller.created)
      && LiveVoices(controller.log) == SlotIds(oscillator)
    }

    /** The app as first rendered: no voice, settings read from the controller. */
    constructor (c: AudioController)
      requires forall k :: 0 <= k < |c.log| ==> c.log[k].id < c.created
      requires LiveVoices(c.log) == {}
      ensures Valid()
      ensures controller == c && oscillator == None
      ensures volume == c.gain && frequency == c.frequency && waveForm == c.waveForm
    {
      controller := c;
      oscillator := None;
      volume := c.gain;
      frequency := c.frequency;
      waveForm := c.waveForm;
    }

    /**
     * Stops the sounding oscillator, if any, then creates and starts a new
     * one, which the slot then holds.
     */
    method StartOscillator()
      requires Valid()
      modifies this`oscillator, controller`log, controller`created
      ensures Valid()
      ensures oscillator == Some(old(controller.created))
      ensures forall k :: 0 <= k < |old(controller.log)| ==> old(controller.log)[k].id != oscillator.value
      ensures LiveVoices(controller.log) == {oscillator.value}
      ensures |LiveVoices(controller.log)| <= 1
      ensures old(oscillator).Some? ==>
                controller.log == old(controller.log) + [
                  Stopped(old(oscillator).value),
                  Created(oscillator.value, controller.waveForm, controller.frequency),
                  Started(oscillator.value)]
      ensures old(oscillator).None? ==>
                controller.log == old(controller.log) + [
                  Created(oscillator.value, controller.waveForm, controller.frequency),
                  Started(oscillator.value)]
    {
      if oscillator.Some? {
        StopOscillator();
      }
      var id := controller.CreateOscillator();
      oscillator := Some(id);
      controller.Start(id);
      assert LiveVoices(controller.log) == {id};
    }

    /** Stops and clears the sounding oscillator; with none, does nothing. */
    method StopOscillator()
      requires Valid()
      modifies this`oscillator, controller`log
      ensures Valid()
      ensures oscillator == None && LiveVoices(controller.log) == {}
      ensures |LiveVoices(controller.log)| <= 1
      ensures old(oscillator).None? ==> controller.log == old(controller.log)
      ensures old(oscillator).Some? ==> controller.log == old(controller.log) + [Stopped(old(oscillator).value)]
    {
      if oscillator.None? {
        return;
      }
      controller.Stop(oscillator.value);
      oscillator := None;
      assert controller.log[..|controller.log| - 1] == old(controller.log);
    }

    /** Shows `value` as the volume and applies it as the controller's gain. */
    method HandleVolumeChange(value: real)
      requires Valid()
      modifies this`volume, controller`gain
      ensures Valid()
      ensures volume == value && controller.gain == value
    {
      volume := value;
      controller.gain := value;
    }

    /** Shows `value` as the frequency and makes it the frequency of new oscillators. */
    method HandleFrequencyChange(value: real)
      requires Valid()
      modifies this`frequency, controller`frequency
      ensures Valid()
      ensures frequency == value && controller.frequency == value
    {
      frequency := value;
      controller.frequency := value;
    }

    /**
     * Validates the selected name first; only a valid one becomes the shown
     * waveform and the type of new oscillators.
     */
    method HandleWaveFormChange(value: string) returns (r: Result<OscillatorType, string>)
      requires Valid()
      modifies this`waveForm, controller`waveForm
      ensures Valid()
      ensures r == AssertOscillatorTypeValue(value)
      ensures r.Failure? ==> waveForm == old(waveForm) && controller.waveForm == old(controller.waveForm)
      ensures r.Success? ==> waveForm == r.value && controller.waveForm == r.value
    {
      r := AssertOscillatorTypeValue(value);
      if r.Failure? {
        return;
      }
      waveForm := r.value;
      controller.waveForm := r.value;
    }
  }
}
