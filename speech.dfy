/** The mouth-movement simulator of the text-to-speech helper: a speech store
    holding the latest audio-analysis sample, and an interval timer that walks
    over the lowercased utterance one character per tick, publishing the mouth
    openness of each character from a fixed phoneme table.

    Timers are explicit: `timers` holds every interval that has been armed and
    not cleared, each with its own closure state (the lowercased text and the
    character cursor), and `simulationInterval` is the module-level handle.
    A tick is a method call. */
module Speech {
  import opened Common
  import opened Strings

  /** The store's `audioAnalysis` value. */
  datatype Sample = Sample(volume: real, pitch: real, phoneme: string)

  /** The sample `stopMouthSimulation` publishes. */
  const Silence: Sample := Sample(0.0, 0.0, "")

  /** The window events the helper dispatches. */
  datatype SpeechEvent = SpeechStarted | SpeechEnded | VolumeChanged(volume: real, phoneme: string)

  /** Mouth openness of a character the table does not list. */
  const DefaultOpenness: real := 0.2

  /** Mouth openness per (lowercase) Turkish phoneme. */
  const PhoneticMap: map<char, real> := map[
    'a' := 0.8, 'e' := 0.6, 'i' := 0.3, 'o' := 0.7, 'ö' := 0.7, 'u' := 0.4, 'ü' := 0.4,
    'b' := 0.2, 'p' := 0.2, 'm' := 0.2, 'f' := 0.3, 'v' := 0.3,
    's' := 0.3, 'z' := 0.3, 'ş' := 0.3, 'ç' := 0.4, 'c' := 0.4,
    't' := 0.5, 'd' := 0.5, 'n' := 0.5, 'r' := 0.4, 'l' := 0.4,
    'k' := 0.6, 'g' := 0.6, 'h' := 0.3, 'y' := 0.3, 'j' := 0.3,
    ' ' := 0.1
  ]

  /** `phoneticMap[char] || 0.2`: no table entry is 0, so `||` only supplies
      the default for characters missing from the table. */
  function Openness(c: char): (v: real)
    ensures 0.1 <= v <= 0.8
    ensures c in PhoneticMap ==> v == PhoneticMap[c]
    ensures c !in PhoneticMap ==> v == DefaultOpenness
  {
    if c in PhoneticMap then PhoneticMap[c] else DefaultOpenness
  }

  /** `Math.random() * 0.3 + 0.7` for a draw `rand` in [0, 1). */
  function Pitch(rand: real): (p: real)
    requires 0.0 <= rand < 1.0
    ensures 0.7 <= p < 1.0
  {
    rand * 0.3 + 0.7
  }

  /** The sample a tick publishes with the cursor at `cursor`. */
  function SampleAt(text: string, cursor: nat, rand: real): (s: Sample)
    requires cursor < |text| && 0.0 <= rand < 1.0
    ensures s.phoneme == [text[cursor]]
    ensures s.volume == Openness(text[cursor]) && 0.1 <= s.volume <= 0.8
    ensures 0.7 <= s.pitch < 1.0
  {
    Sample(Openness(text[cursor]), Pitch(rand), [text[cursor]])
  }

  /** The VOLUME event that goes with the sample for character `c`. */
  function VolumeEventFor(c: char): (r: SpeechEvent)
    ensures r.VolumeChanged? && r.phoneme == [c] && 0.1 <= r.volume <= 0.8
    ensures c in PhoneticMap ==> r.volume == PhoneticMap[c]
    ensures c !in PhoneticMap ==> r.volume == DefaultOpenness
  {
    VolumeChanged(Openness(c), [c])
  }

  /** The VOLUME events of a whole session over `text`, one per character. */
  function VolumeTrace(text: string): (r: seq<SpeechEvent>)
    ensures |r| == |text|
    ensures forall k :: 0 <= k < |text| ==> r[k] == VolumeEventFor(text[k])
    decreases |text|
  {
    if text == [] then []
    else VolumeTrace(text[..|text| - 1]) + [VolumeEventFor(text[|text| - 1])]
  }

  /** One more tick extends the trace by the event of the next character. */
  lemma VolumeTraceStep(text: string, k: nat)
    requires k < |text|
    ensures VolumeTrace(text[..k + 1]) == VolumeTrace(text[..k]) + [VolumeEventFor(text[k])]
  {
    assert text[..k + 1][..k] == text[..k];
  }

  /** `start("ab")` sends 'a' at 0.8 and then 'b' at 0.2. */
  lemma TraceOfAb()
    ensures VolumeTrace("ab") == [VolumeChanged(0.8, "a"), VolumeChanged(0.2, "b")]
  {
    assert "ab"[..1] == "a";
  }

  type Handle = nat

  /** The closure state of one armed interval: the lowercased text it walks
      over and its `charIndex`. */
  datatype Session = Session(text: string, cursor: nat)

  class SpeechSynth {
    var isSpeaking: bool
    var currentText: string
    var audioAnalysis: Sample
    /** Window events dispatched so far, oldest first. */
    var events: seq<SpeechEvent>
    /** Armed intervals that have not been cleared. */
    var timers: map<Handle, Session>
    var nextHandle: Handle
    /** The module-level `simulationInterval`. */
    var simulationInterval: Option<Handle>

    /** The handle, if any, names a live interval; every live interval has a
        handle already issued and a cursor within its text. */
    ghost predicate Valid()
      reads this
    {
      && (simulationInterval.Some? ==> simulationInterval.value in timers)
      && (forall h :: h in timers ==> h < nextHandle && timers[h].cursor <= |timers[h].text|)
    }

    /** The store's initial state; no interval armed. */
    constructor ()
      ensures Valid()
      ensures !isSpeaking && currentText == "" && audioAnalysis == Silence
      ensures events == [] && timers == map[] && simulationInterval == None
    {
      isSpeaking := false;
      currentText := "";
      audioAnalysis := Silence;
      events := [];
      timers := map[];
      nextHandle := 0;
      simulationInterval := None;
    }

    /** The part of `speakText` before the browser takes over: empty text is
        ignored, anything else becomes `currentText`. The utterance itself is
        handed to the browser, which later calls `UtteranceStarted` and
        `UtteranceEnded`. */
    method SpeakText(text: string)
      modifies this`currentText
      ensures text == "" ==> currentText == old(currentText)
      ensures text != "" ==> currentText == text
    {
      if text == "" {
        return;
      }
      currentText := text;
    }

    /** The utterance's `onstart` callback: mark speaking, dispatch START, and
        start the simulation. */
    method UtteranceStarted(text: string, lower: CaseMap)
      requires Valid()
      modifies this
      ensures Valid()
      ensures isSpeaking && currentText == old(currentText)
      ensures events == old(events) + [SpeechStarted]
      ensures audioAnalysis == old(audioAnalysis)
      ensures simulationInterval == Some(old(nextHandle)) && nextHandle == old(nextHandle) + 1
      ensures timers == old(timers)[old(nextHandle) := Session(lower(text), 0)]
    {
      isSpeaking := true;
      events := events + [SpeechStarted];
      StartMouthSimulation(text, lower);
    }

    /** The utterance's `onend` and `onerror` callbacks (identical): mark not
        speaking, dispatch END, and stop the simulation. */
    method UtteranceEnded()
      requires Valid()
      modifies this
      ensures Valid()
      ensures !isSpeaking && currentText == old(currentText)
      ensures events == old(events) + [SpeechEnded]
      ensures audioAnalysis == Silence && simulationInterval == None
      ensures nextHandle == old(nextHandle)
      ensures old(simulationInterval).Some? ==> timers == old(timers) - {old(simulationInterval).value}
      ensures old(simulationInterval).None? ==> timers == old(timers)
    {
      isSpeaking := false;
      events := events + [SpeechEnded];
      StopMouthSimulation();
    }

    /** `startMouthSimulation`: arms a new interval over the lowercased text
        with the cursor at 0 and overwrites the handle. An interval that was
        already armed is NOT cleared: it stays live, and its handle is lost. */
    method StartMouthSimulation(text: string, lower: CaseMap)
      requires Valid()
      modifies this`timers, this`nextHandle, this`simulationInterval
      ensures Valid()
      ensures old(nextHandle) !in old(timers)
      ensures timers == old(timers)[old(nextHandle) := Session(lower(text), 0)]
      ensures simulationInterval == Some(old(nextHandle)) && nextHandle == old(nextHandle) + 1
      ensures forall h :: h in old(timers) ==> h in timers && timers[h] == old(timers)[h]
    {
      var h := nextHandle;
      timers := timers[h := Session(lower(text), 0)];
      nextHandle := nextHandle + 1;
      simulationInterval := Some(h);
    }

    /** One firing of interval `h`. Before the end of its text it publishes
        the sample and the VOLUME event of the character at its cursor and
        advances the cursor; at the end it calls `stopMouthSimulation`, which
        clears whatever interval the module handle names at that moment. */
    method Tick(h: Handle, rand: real)
      requires Valid() && h in timers && 0.0 <= rand < 1.0
      modifies this`timers, this`simulationInterval, this`audioAnalysis, this`events
      ensures Valid()
      ensures old(timers)[h].cursor < |old(timers)[h].text| ==>
        var s := old(timers)[h];
        && audioAnalysis == SampleAt(s.text, s.cursor, rand)
        && events == old(events) + [VolumeChanged(audioAnalysis.volume, audioAnalysis.phoneme)]
        && timers == old(timers)[h := Session(s.text, s.cursor + 1)]
        && simulationInterval == old(simulationInterval)
      ensures old(timers)[h].cursor >= |old(timers)[h].text| ==>
        && audioAnalysis == Silence && simulationInterval == None
        && events == old(events)
        && (old(simulationInterval).Some? ==> timers == old(timers) - {old(simulationInterval).value})
        && (old(simulationInterval).None? ==> timers == old(timers))
    {
      var s := timers[h];
      if s.cursor >= |s.text| {
        StopMouthSimulation();
        return;
      }
      var c := s.text[s.cursor];
      var volume := Openness(c);
      audioAnalysis := Sample(volume, Pitch(rand), [c]);
      events := events + [VolumeChanged(volume, [c])];
      timers := timers[h := Session(s.text, s.cursor + 1)];
    }

    /** `stopMouthSimulation`: clears the interval the handle names, if any,
        and publishes the silent sample. With no handle armed it does nothing
        else, so calling it again changes nothing further. */
    method StopMouthSimulation()
      requires Valid()
      modifies this`timers, this`simulationInterval, this`audioAnalysis
      ensures Valid()
      ensures audioAnalysis == Silence && simulationInterval == None
      ensures old(simulationInterval).Some? ==> timers == old(timers) - {old(simulationInterval).value}
      ensures old(simulationInterval).None? ==> timers == old(timers)
    {
      if simulationInterval.Some? {
        timers := timers - {simulationInterval.value};
        simulationInterval := None;
      }
      audioAnalysis := Silence;
    }

    /** A second utterance starting before the first has ended, then one
        `onend`: the interval of the first utterance is never cleared (its
        handle was overwritten), while the second one is. */
    method OverlappingUtterances(first: string, second: string, lower: CaseMap)
      requires Valid()
      modifies this
      ensures Valid()
      ensures old(nextHandle) in timers && timers[old(nextHandle)] == Session(lower(first), 0)
      ensures old(nextHandle) + 1 !in timers
      ensures timers == old(timers)[old(nextHandle) := Session(lower(first), 0)]
      ensures simulationInterval == None && !isSpeaking && audioAnalysis == Silence
      ensures events == old(events) + [SpeechStarted, SpeechStarted, SpeechEnded]
    {
      UtteranceStarted(first, lower);
      UtteranceStarted(second, lower);
      UtteranceEnded();
    }

    /** A leaked interval `h` reaching the end of its text while the handle
        names a newer interval `g`: its `stopMouthSimulation` clears `g`,
        publishes silence, and leaves `h` itself armed, so every later
        firing of `h` does the same again. */
    method LeakedTick(h: Handle, g: Handle, rand: real)
      requires Valid() && h in timers && h != g && simulationInterval == Some(g)
      requires timers[h].cursor == |timers[h].text| && 0.0 <= rand < 1.0
      modifies this`timers, this`simulationInterval, this`audioAnalysis, this`events
      ensures Valid()
      ensures h in timers && timers[h] == old(timers)[h] && g !in timers
      ensures timers == old(timers) - {g}
      ensures simulationInterval == None && audioAnalysis == Silence && events == old(events)
    {
      Tick(h, rand);
    }

    /** The first `|text|` firings of interval `h`, freshly armed and named
        by the handle, with no other interval interleaved: one VOLUME event
        per character, in order, leaving the cursor at the end. */
    method WalkText(h: Handle, draws: seq<real>)
      requires Valid() && simulationInterval == Some(h) && timers[h].cursor == 0
      requires |draws| >= |timers[h].text|
      requires forall k :: 0 <= k < |draws| ==> 0.0 <= draws[k] < 1.0
      modifies this`timers, this`simulationInterval, this`audioAnalysis, this`events
      ensures Valid() && simulationInterval == Some(h)
      ensures timers == old(timers)[h := Session(old(timers)[h].text, |old(timers)[h].text|)]
      ensures events == old(events) + VolumeTrace(old(timers)[h].text)
    {
      var text := timers[h].text;
      var k := 0;
      while k < |text|
        invariant Valid() && k <= |text|
        invariant simulationInterval == Some(h) && timers == old(timers)[h := Session(text, k)]
        invariant events == old(events) + VolumeTrace(text[..k])
      {
        VolumeTraceStep(text, k);
        Tick(h, draws[k]);
        k := k + 1;
      }
      assert text[..k] == text;
    }

    /** Interval `h`, freshly armed and named by the handle, firing with no
        other interval interleaved, the k-th firing drawing `draws[k]`: it
        sends exactly one VOLUME event per character, in order, and the next
        firing after the last character clears it and publishes silence. */
    method RunSession(h: Handle, draws: seq<real>)
      requires Valid() && simulationInterval == Some(h) && timers[h].cursor == 0
      requires |draws| > |timers[h].text|
      requires forall k :: 0 <= k < |draws| ==> 0.0 <= draws[k] < 1.0
      modifies this`timers, this`simulationInterval, this`audioAnalysis, this`events
      ensures Valid()
      ensures events == old(events) + VolumeTrace(old(timers)[h].text)
      ensures timers == old(timers) - {h} && simulationInterval == None
      ensures audioAnalysis == Silence
    {
      var n := |timers[h].text|;
      WalkText(h, draws);
      // The firing after the last character finds the cursor at the end.
      Tick(h, draws[n]);
      assert timers == old(timers) - {h};
    }
  }
}
