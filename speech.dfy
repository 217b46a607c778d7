/**
 * The speech output controller: it picks a preferred voice, keeps at most one
 * current utterance, tracks whether speech is playing and whether output is
 * muted. The platform speech engine is a sink that receives `cancel` and
 * `speak` calls; its start, end and error callbacks are events.
 */
module Speech {
  import opened Wrappers
  import opened Strings
  import opened Sequences

  datatype Voice = Voice(name: string, lang: string)

  // ---------------------------------------------------------------------------
  // Preferred voice

  /** A voice taken for a female one: its name mentions "female" or "woman" (as written), or, lowered, a known name. */
  predicate IsFemaleVoice(v: Voice) {
    || Contains(v.name, "female")
    || Contains(v.name, "woman")
    || Contains(ToLower(v.name), "samantha")
    || Contains(ToLower(v.name), "lisa")
    || Contains(ToLower(v.name), "google us english female")
  }

  /** A voice whose language tag names an English variant. */
  predicate IsEnglishVoice(v: Voice) {
    Contains(v.lang, "en-") || Contains(v.lang, "en_")
  }

  /**
   * `loadVoices`: the first female voice, else the first English voice, else
   * the first voice, else none.
   */
  function SelectVoice(voices: seq<Voice>): (r: Option<Voice>)
    ensures r.None? <==> voices == []
    ensures forall i | 0 <= i < |voices| && IsFemaleVoice(voices[i]) ::
      (forall j | 0 <= j < i :: !IsFemaleVoice(voices[j])) ==> r == Some(voices[i])
    ensures (forall v | v in voices :: !IsFemaleVoice(v)) ==>
      forall i | 0 <= i < |voices| && IsEnglishVoice(voices[i]) ::
        (forall j | 0 <= j < i :: !IsEnglishVoice(voices[j])) ==> r == Some(voices[i])
    ensures voices != [] && (forall v | v in voices :: !IsFemaleVoice(v) && !IsEnglishVoice(v)) ==>
      r == Some(voices[0])
  {
    match FindFirst(voices, IsFemaleVoice)
    case Some(i) => Some(voices[i])
    case None =>
      match FindFirst(voices, IsEnglishVoice)
      case Some(j) => Some(voices[j])
      case None => if voices == [] then None else Some(voices[0])
  }

  // ---------------------------------------------------------------------------
  // The controller

  /** An utterance as handed to the engine; rate, pitch and volume are always 1. */
  datatype Utterance = Utterance(text: string, voice: Option<Voice>, rate: real, pitch: real, volume: real)

  function NewUtterance(text: string, voice: Option<Voice>): Utterance {
    Utterance(text, voice, 1.0, 1.0, 1.0)
  }

  /** A call the controller makes on the platform engine: `cancel()`, or `speak(u)`, which queues `u`. */
  datatype EngineCall = Cancel | Queue(utterance: Utterance)

  class Controller {
    /** Whether the platform offers a speech engine at all. */
    const hasEngine: bool
    var isSpeaking: bool
    var isMuted: bool
    /** The utterance last handed to the engine, kept for cancellation. */
    var current: Option<Utterance>
    /** The preferred voice, once the voices are known. */
    var voice: Option<Voice>
    /** Every call made on the engine, oldest first. */
    var engineCalls: seq<EngineCall>

    /** Without an engine nothing is ever spoken; only a queued utterance can be playing. */
    ghost predicate Valid()
      reads this
    {
      && (!hasEngine ==> !isSpeaking && current == None && engineCalls == [])
      && (isSpeaking ==> current.Some?)
    }

    constructor (hasEngine: bool)
      ensures Valid()
      ensures this.hasEngine == hasEngine
      ensures !isSpeaking && !isMuted && current == None && voice == None && engineCalls == []
    {
      this.hasEngine := hasEngine;
      isSpeaking, isMuted := false, false;
      current, voice := None, None;
      engineCalls := [];
    }

    /** The mount effect: with an engine whose voices are already listed, the preferred voice is chosen. */
    method Mount(voices: seq<Voice>)
      requires Valid()
      modifies this
      ensures Valid()
      ensures voice == if hasEngine && voices != [] then SelectVoice(voices) else old(voice)
      ensures isSpeaking == old(isSpeaking) && isMuted == old(isMuted)
      ensures current == old(current) && engineCalls == old(engineCalls)
    {
      if hasEngine && |voices| > 0 {
        voice := SelectVoice(voices);
      }
    }

    /** The `voiceschanged` event, handled only when there is an engine: the preferred voice is chosen afresh. */
    method VoicesChanged(voices: seq<Voice>)
      requires Valid()
      modifies this
      ensures Valid()
      ensures voice == if hasEngine then SelectVoice(voices) else old(voice)
      ensures isSpeaking == old(isSpeaking) && isMuted == old(isMuted)
      ensures current == old(current) && engineCalls == old(engineCalls)
    {
      if hasEngine {
        voice := SelectVoice(voices);
      }
    }

    /** `stopSpeaking`: with an engine, cancel everything and mark speech as stopped. */
    method StopSpeaking()
      requires Valid()
      modifies this
      ensures Valid()
      ensures hasEngine ==> !isSpeaking && engineCalls == old(engineCalls) + [Cancel]
      ensures !hasEngine ==> isSpeaking == old(isSpeaking) && engineCalls == old(engineCalls)
      ensures isMuted == old(isMuted) && current == old(current) && voice == old(voice)
    {
      if hasEngine {
        engineCalls := engineCalls + [Cancel];
        isSpeaking := false;
      }
    }

    /**
     * `speak`: muted or without an engine, nothing happens. Otherwise ongoing
     * speech is cancelled, and a new utterance of `text` in the preferred voice
     * becomes the current one and is queued; it is not playing until the
     * engine reports that it started.
     */
    method Speak(text: string)
      requires Valid()
      modifies this
      ensures Valid()
      ensures !hasEngine || old(isMuted) ==>
        && isSpeaking == old(isSpeaking) && current == old(current)
        && engineCalls == old(engineCalls)
      ensures hasEngine && !old(isMuted) ==>
        && !isSpeaking
        && current == Some(NewUtterance(text, old(voice)))
        && engineCalls == old(engineCalls) + [Cancel, Queue(NewUtterance(text, old(voice)))]
      ensures isMuted == old(isMuted) && voice == old(voice)
    {
      if !hasEngine || isMuted {
        return;
      }
      StopSpeaking();
      var u := NewUtterance(text, voice);
      current := Some(u);
      engineCalls := engineCalls + [Queue(u)];
    }

    /** `toggleMute`: flips the mute flag; muting while speech plays also stops it. */
    method ToggleMute()
      requires Valid()
      modifies this
      ensures Valid()
      ensures isMuted == !old(isMuted)
      ensures old(isSpeaking) && !old(isMuted) ==> !isSpeaking && engineCalls == old(engineCalls) + [Cancel]
      ensures !(old(isSpeaking) && !old(isMuted)) ==> isSpeaking == old(isSpeaking) && engineCalls == old(engineCalls)
      ensures current == old(current) && voice == old(voice)
    {
      if isSpeaking && !isMuted {
        StopSpeaking();
      }
      isMuted := !isMuted;
    }

    /**
     * The `onstart` callback. Every utterance carries the same handlers, so the
     * event counts whichever queued utterance fires it, a superseded one too.
     */
    method OnStart()
      requires Valid() && current.Some?
      modifies this
      ensures Valid()
      ensures isSpeaking
      ensures isMuted == old(isMuted) && current == old(current) && voice == old(voice)
      ensures engineCalls == old(engineCalls)
    {
      isSpeaking := true;
    }

    /** The `onend` callback, of whichever queued utterance fires it. */
    method OnEnd()
      requires Valid() && current.Some?
      modifies this
      ensures Valid()
      ensures !isSpeaking
      ensures isMuted == old(isMuted) && current == old(current) && voice == old(voice)
      ensures engineCalls == old(engineCalls)
    {
      isSpeaking := false;
    }

    /** The `onerror` callback, of whichever queued utterance fires it. */
    method OnError()
      requires Valid() && current.Some?
      modifies this
      ensures Valid()
      ensures !isSpeaking
      ensures isMuted == old(isMuted) && current == old(current) && voice == old(voice)
      ensures engineCalls == old(engineCalls)
    {
      isSpeaking := false;
    }
  }

  /** Speaking "a" and then "b" leaves exactly one current utterance, that of "b"; stopping leaves nothing playing. */
  method SpeakThenSupersede(c: Controller, a: string, b: string)
    requires c.Valid() && c.hasEngine && !c.isMuted
    modifies c
    ensures c.Valid()
    ensures c.current == Some(NewUtterance(b, old(c.voice)))
    ensures !c.isSpeaking
    ensures c.engineCalls == old(c.engineCalls)
      + [Cancel, Queue(NewUtterance(a, old(c.voice))), Cancel, Queue(NewUtterance(b, old(c.voice))), Cancel]
  {
    c.Speak(a);
    c.OnStart();
    c.Speak(b);
    c.StopSpeaking();
  }

  /** Toggling mute twice restores the flag. */
  method ToggleMuteTwice(c: Controller)
    requires c.Valid()
    modifies c
    ensures c.Valid()
    ensures c.isMuted == old(c.isMuted)
  {
    c.ToggleMute();
    c.ToggleMute();
  }
}
