/**
 * MidiBeatPulseProcessor: a sample-accurate on/off machine that emits a note-on at the start
 * of each cycle (tagged with a round-robin slot in its velocity) and a note-off when the
 * on-phase ends, optionally gated by the notes of a parent pulse.
 */
module Pulses {
  import opened Wrappers
  import opened Midi

  datatype CycleState = AwaitingNoteOn | NoteIsOn

  /** The settings of a pulse: fixed at construction, or flipped by the graph compiler. */
  datatype PulseSettings = PulseSettings(
    bpm: real,
    beatsOn: nat,
    beatsOff: nat,
    numConnections: int,
    gatingEnabled: bool,
    listening: bool,
    listeningVelocity: byte)
  {
    /** inc_connections() is IncConnections(1); inc_connections(i) is IncConnections(i). */
    function IncConnections(i: int): (s: PulseSettings)
      ensures s.numConnections == numConnections + i
      ensures s.(numConnections := numConnections) == this
    {
      this.(numConnections := numConnections + i)
    }

    /** setMidiInputGatingEnabled. */
    function WithGating(b: bool): (s: PulseSettings)
      ensures s == this.(gatingEnabled := b)
    {
      this.(gatingEnabled := b)
    }

    /** set_is_listening_velocity. */
    function WithListening(b: bool): (s: PulseSettings)
      ensures s == this.(listening := b)
    {
      this.(listening := b)
    }

    /** set_listening_velocity: the slot a gated pulse listens to, truncated to 8 bits. */
    function WithListeningVelocity(v: int): (s: PulseSettings)
      ensures (s.listeningVelocity - v) % 256 == 0
      ensures 0 <= v < 256 ==> s.listeningVelocity == v
      ensures s.(listeningVelocity := listeningVelocity) == this
    {
      this.(listeningVelocity := ToByte(v))
    }
  }

  function ClampBeats(n: int): (r: nat)
    ensures n > 0 ==> r == n
    ensures n <= 0 ==> r == 0
  {
    if n > 0 then n else 0
  }

  /** The constructor: negative beat counts become 0; nothing is connected or gated yet. */
  function NewPulseSettings(bpm: real, beatsOnIn: int, beatsOffIn: int): (s: PulseSettings)
    ensures s.bpm == bpm
    ensures s.beatsOn == ClampBeats(beatsOnIn) && s.beatsOff == ClampBeats(beatsOffIn)
    ensures s.numConnections == 0 && !s.gatingEnabled && !s.listening
    ensures s.listeningVelocity == 1
  {
    PulseSettings(bpm, ClampBeats(beatsOnIn), ClampBeats(beatsOffIn), 0, false, false, 1)
  }

  /** The timing and cycle state processBlock updates. */
  datatype PulseState = PulseState(
    onDuration: int,
    offDuration: int,
    globalSample: int,
    nextChange: int,
    cycle: CycleState,
    noteOn: bool,
    loopCount: uint64,
    initialCycle: bool,
    gateOpen: bool,
    velocity: byte)
  {
    /** Both durations 0: the pulse produces no rhythm and lets MIDI through untouched. */
    predicate Inert() {
      onDuration == 0 && offDuration == 0
    }

    /** The schedule is sound: durations are not negative and the next boundary is ahead. */
    predicate ScheduleValid() {
      onDuration >= 0 && offDuration >= 0 && (Inert() || nextChange >= globalSample)
    }
  }

  /** The member initialisers, before prepareToPlay has run. */
  const InitialPulseState := PulseState(0, 0, 0, 0, AwaitingNoteOn, false, 0, true, false, 1)

  /** samplesPerBeat: the truncated beat length in samples, 0 without a tempo or a rate. */
  function SamplesPerBeat(sampleRate: real, bpm: real): (n: nat)
    ensures !(bpm > 0.0 && sampleRate > 0.0) ==> n == 0
  {
    if bpm > 0.0 && sampleRate > 0.0 then BeatLength(sampleRate, bpm) else 0
  }

  function BeatLength(sampleRate: real, bpm: real): nat
    requires bpm > 0.0 && sampleRate > 0.0
  {
    var q := sampleRate * 60.0 / bpm;
    assert q > 0.0;
    q.Floor
  }

  /** With a tempo and a rate, samplesPerBeat is the beat length in samples rounded down. */
  lemma SamplesPerBeatTruncates(sampleRate: real, bpm: real)
    requires bpm > 0.0 && sampleRate > 0.0
    ensures SamplesPerBeat(sampleRate, bpm) as real <= sampleRate * 60.0 / bpm
    ensures sampleRate * 60.0 / bpm < (SamplesPerBeat(sampleRate, bpm) + 1) as real
  {
  }

  lemma SamplesPerBeatExample()
    ensures SamplesPerBeat(48000.0, 120.0) == 24000
    ensures SamplesPerBeat(44100.0, 0.0) == 0
  {
    assert 48000.0 * 60.0 / 120.0 == 24000.0;
  }

  /** prepareToPlay, given samplesPerBeat: durations from the tempo, counters back to their start. */
  function Prepared(s: PulseSettings, st: PulseState, perBeat: nat): PulseState {
    PulseState(s.beatsOn * perBeat, s.beatsOff * perBeat, 0, 0, AwaitingNoteOn, false, 0, true,
               false, st.velocity)
  }

  /** The round-robin slot of cycle `loop`: 1..n in turn, or 1 when nothing is connected. */
  function SlotVelocity(loop: uint64, n: int): byte {
    if n > 0 then ToByte(loop % n + 1) else 1
  }

  /** With fewer than 256 connections the slot is always in [1, max(1, n)]. */
  lemma SlotInRange(loop: uint64, n: int)
    requires n < 256
    ensures n <= 0 ==> SlotVelocity(loop, n) == 1
    ensures 0 < n ==> 1 <= SlotVelocity(loop, n) <= n && SlotVelocity(loop, n) == loop % n + 1
  {
  }

  /** The parent gate after one incoming message. */
  function GateAfter(s: PulseSettings, gate: bool, m: MidiMessage): bool {
    if !s.gatingEnabled then gate
    else
      var g1 := if IsNoteOn(m) then true
                else if IsNoteOff(m) || IsAllNotesOrSoundOff(m) then false
                else gate;
      if s.listening && s.listeningVelocity != m.velocity then false else g1
  }

  /**
   * Without gating the parent gate is left alone. With gating a note-on opens it, a
   * note-off or an all-notes/all-sound-off closes it, and while listening any message with
   * a velocity other than the awaited slot closes it.
   */
  lemma GateAfterEffect(s: PulseSettings, gate: bool, m: MidiMessage)
    ensures !s.gatingEnabled ==> GateAfter(s, gate, m) == gate
    ensures s.gatingEnabled && s.listening && s.listeningVelocity != m.velocity ==> !GateAfter(s, gate, m)
    ensures s.gatingEnabled && (IsNoteOff(m) || IsAllNotesOrSoundOff(m)) ==> !GateAfter(s, gate, m)
    ensures s.gatingEnabled && IsNoteOn(m) ==>
      (GateAfter(s, gate, m) <==> !(s.listening && s.listeningVelocity != m.velocity))
    ensures (s.gatingEnabled && !IsNoteOn(m) && !IsNoteOff(m) && !IsAllNotesOrSoundOff(m)
             && !(s.listening && s.listeningVelocity != m.velocity)) ==> GateAfter(s, gate, m) == gate
  {
  }

  /**
   * The inner loop over incoming messages at sample `i`: it reads on from index `k` while
   * the next message sits at `i`. The result is the gate and the index of the first
   * message left unread.
   */
  function Consume(s: PulseSettings, gate: bool, incoming: seq<MidiEvent>, k: nat, i: int): (r: (bool, nat))
    requires k <= |incoming|
    ensures k <= r.1 <= |incoming|
    decreases |incoming| - k
  {
    if k < |incoming| && incoming[k].position == i then
      Consume(s, GateAfter(s, gate, incoming[k].message), incoming, k + 1, i)
    else (gate, k)
  }

  /**
   * The loop reads exactly the run of messages at sample `i` that starts at `k`, and leaves
   * the gate alone when gating is off.
   */
  lemma {:induction false} ConsumeReadsRun(s: PulseSettings, gate: bool, incoming: seq<MidiEvent>, k: nat, i: int)
    requires k <= |incoming|
    ensures var r := Consume(s, gate, incoming, k, i);
      && (forall j :: k <= j < r.1 ==> incoming[j].position == i)
      && (r.1 < |incoming| ==> incoming[r.1].position != i)
      && (!s.gatingEnabled ==> r.0 == gate)
    decreases |incoming| - k
  {
    if k < |incoming| && incoming[k].position == i {
      ConsumeReadsRun(s, GateAfter(s, gate, incoming[k].message), incoming, k + 1, i);
    }
  }

  function NoteOnAt(velocity: byte, i: int): MidiEvent {
    MidiEvent(MidiMessage(NoteOnMsg, velocity), i)
  }

  function NoteOffAt(velocity: byte, i: int): MidiEvent {
    MidiEvent(MidiMessage(NoteOffMsg, velocity), i)
  }

  /** One pass of the boundary loop at sample `i` of the block. */
  function Transition(s: PulseSettings, st: PulseState, out: seq<MidiEvent>, i: int): (r: (PulseState, seq<MidiEvent>))
    ensures r.0.onDuration == st.onDuration && r.0.offDuration == st.offDuration
    ensures r.0.globalSample == st.globalSample && r.0.gateOpen == st.gateOpen
    ensures r.0.cycle != st.cycle
    ensures r.0.nextChange == st.nextChange + (if st.cycle == AwaitingNoteOn then st.onDuration else st.offDuration)
  {
    if st.cycle == AwaitingNoteOn then
      var loop: uint64 := if st.initialCycle then st.loopCount else (st.loopCount + 1) % U64;
      var vel := SlotVelocity(loop, s.numConnections);
      var permitted := !s.gatingEnabled || st.gateOpen;
      var emit := s.beatsOn > 0 && permitted && !st.noteOn;
      var st1 := st.(loopCount := loop, initialCycle := false, velocity := vel,
                     noteOn := st.noteOn || emit, cycle := NoteIsOn,
                     nextChange := st.nextChange + st.onDuration);
      (st1, if emit then AddEvent(out, NoteOnAt(vel, i)) else out)
    else
      var st1 := st.(noteOn := false, cycle := AwaitingNoteOn,
                     nextChange := st.nextChange + st.offDuration);
      (st1, if st.noteOn then AddEvent(out, NoteOffAt(st.velocity, i)) else out)
  }

  /**
   * The opening boundary of a cycle counts the cycle (except the very first), takes the
   * cycle's slot as velocity and starts a note only when beats are on, the parent gate
   * permits and no note of ours sounds; the closing boundary ends our note if one sounds.
   */
  lemma TransitionEffect(s: PulseSettings, st: PulseState, out: seq<MidiEvent>, i: int)
    ensures var r := Transition(s, st, out, i);
      st.cycle == AwaitingNoteOn ==>
        && r.0.loopCount == (if st.initialCycle then st.loopCount else (st.loopCount + 1) % U64)
        && !r.0.initialCycle
        && r.0.velocity == SlotVelocity(r.0.loopCount, s.numConnections)
        && var emit := s.beatsOn > 0 && (!s.gatingEnabled || st.gateOpen) && !st.noteOn;
           r.0.noteOn == (st.noteOn || emit)
           && r.1 == (if emit then AddEvent(out, NoteOnAt(r.0.velocity, i)) else out)
    ensures var r := Transition(s, st, out, i);
      st.cycle == NoteIsOn ==>
        && r.0 == st.(noteOn := false, cycle := AwaitingNoteOn, nextChange := r.0.nextChange)
        && r.1 == (if st.noteOn then AddEvent(out, NoteOffAt(st.velocity, i)) else out)
  {
  }

  /** How many more passes the boundary loop makes at sample `i` (at most two). */
  function BoundaryFuel(st: PulseState, i: int): nat {
    if st.nextChange != st.globalSample + i then 0
    else if (st.cycle == AwaitingNoteOn && st.onDuration != 0)
         || (st.cycle == NoteIsOn && st.offDuration != 0) then 1
    else 2
  }

  /** The boundary loop: passes run while the schedule says a change is due at this sample. */
  function Boundaries(s: PulseSettings, st: PulseState, out: seq<MidiEvent>, i: int): (r: (PulseState, seq<MidiEvent>))
    requires !st.Inert()
    ensures r.0.nextChange != st.globalSample + i
    ensures st.nextChange != st.globalSample + i ==> r == (st, out)
    ensures r.0.onDuration == st.onDuration && r.0.offDuration == st.offDuration
    ensures r.0.globalSample == st.globalSample && r.0.gateOpen == st.gateOpen
    decreases BoundaryFuel(st, i)
  {
    if st.nextChange != st.globalSample + i then (st, out)
    else
      var t := Transition(s, st, out, i);
      Boundaries(s, t.0, t.1, i)
  }

  /** The block's work at sample `i`: read messages, force our note off, run the schedule. */
  function AfterSample(s: PulseSettings, st: PulseState, incoming: seq<MidiEvent>, k: nat,
                       out: seq<MidiEvent>, i: int): (r: (PulseState, nat, seq<MidiEvent>))
    requires !st.Inert() && k <= |incoming|
    ensures k <= r.1 <= |incoming|
    ensures r.0.onDuration == st.onDuration && r.0.offDuration == st.offDuration
    ensures r.0.globalSample == st.globalSample
  {
    var c := Consume(s, st.gateOpen, incoming, k, i);
    var st1 := st.(gateOpen := c.0);
    var forced := s.gatingEnabled && st1.noteOn && !st1.gateOpen;
    var out1 := if forced then AddEvent(out, NoteOffAt(st1.velocity, i)) else out;
    var st2 := if forced then st1.(noteOn := false) else st1;
    var b := Boundaries(s, st2, out1, i);
    (b.0, c.1, b.1)
  }

  /** Samples `i` up to `blockSize` of the per-sample loop. */
  function SamplesFrom(s: PulseSettings, st: PulseState, incoming: seq<MidiEvent>, k: nat,
                       out: seq<MidiEvent>, i: int, blockSize: int): (r: (PulseState, nat, seq<MidiEvent>))
    requires !st.Inert() && k <= |incoming|
    ensures k <= r.1 <= |incoming|
    ensures r.0.onDuration == st.onDuration && r.0.offDuration == st.offDuration
    ensures r.0.globalSample == st.globalSample
    decreases blockSize - i
  {
    if i >= blockSize then (st, k, out)
    else
      var a := AfterSample(s, st, incoming, k, out, i);
      SamplesFrom(s, a.0, incoming, a.1, a.2, i + 1, blockSize)
  }

  /**
   * What one processBlock call leaves behind: the new state, the notes this pulse made,
   * how many incoming messages it consumed, and the buffer handed on downstream.
   */
  datatype BlockResult = BlockResult(state: PulseState, generated: seq<MidiEvent>, consumed: nat,
                                     out: seq<MidiEvent>)

  function AfterBlock(s: PulseSettings, st: PulseState, incoming: seq<MidiEvent>, blockSize: nat): (r: BlockResult)
    ensures r.state.globalSample == st.globalSample + blockSize
    ensures r.state.onDuration == st.onDuration && r.state.offDuration == st.offDuration
    ensures r.consumed <= |incoming|
    ensures st.Inert() ==>
      && r.state == st.(globalSample := st.globalSample + blockSize)
      && r.out == incoming && r.generated == [] && r.consumed == 0
    ensures !st.Inert() ==> r.out == AddEvents(r.generated, incoming[r.consumed..])
  {
    if st.Inert() then
      assert incoming[0..] == incoming;
      BlockResult(st.(globalSample := st.globalSample + blockSize), [], 0, incoming)
    else
      var a := SamplesFrom(s, st, incoming, 0, [], 0, blockSize);
      BlockResult(a.0.(globalSample := a.0.globalSample + blockSize), a.2, a.1,
                  AddEvents(a.2, incoming[a.1..]))
  }

  /** One instance, its settings and state updated in place. */
  class MidiBeatPulse {
    var bpm: real
    var beatsOn: nat
    var beatsOff: nat
    var sampleRate: real
    var samplesPerBeat: nat
    var samplesForOnDuration: int
    var samplesForOffDuration: int
    var globalSampleCount: int
    var nextStateChangeGlobalSample: int
    var currentCycleState: CycleState
    var ourGeneratedNoteIsOn: bool
    var loopCount: uint64
    var isInitialCycle: bool
    var externalGatingNoteActive: bool
    var isMidiInputGatingActive: bool
    var numConnections: int
    var velocity: byte
    var isListeningVelocity: bool
    var listeningVelocity: byte

    function Settings(): PulseSettings
      reads this
    {
      PulseSettings(bpm, beatsOn, beatsOff, numConnections, isMidiInputGatingActive,
                    isListeningVelocity, listeningVelocity)
    }

    function State(): PulseState
      reads this
    {
      PulseState(samplesForOnDuration, samplesForOffDuration, globalSampleCount,
                 nextStateChangeGlobalSample, currentCycleState, ourGeneratedNoteIsOn, loopCount,
                 isInitialCycle, externalGatingNoteActive, velocity)
    }

    constructor (bpmIn: real, beatsOnIn: int, beatsOffIn: int)
      ensures Settings() == NewPulseSettings(bpmIn, beatsOnIn, beatsOffIn)
      ensures State() == InitialPulseState
      ensures sampleRate == 44100.0 && samplesPerBeat == 0
    {
      bpm := bpmIn;
      beatsOn := if beatsOnIn > 0 then beatsOnIn else 0;
      beatsOff := if beatsOffIn > 0 then beatsOffIn else 0;
      sampleRate := 44100.0;
      samplesPerBeat := 0;
      samplesForOnDuration := 0;
      samplesForOffDuration := 0;
      globalSampleCount := 0;
      nextStateChangeGlobalSample := 0;
      currentCycleState := AwaitingNoteOn;
      ourGeneratedNoteIsOn := false;
      loopCount := 0;
      isInitialCycle := true;
      externalGatingNoteActive := false;
      isMidiInputGatingActive := false;
      numConnections := 0;
      velocity := 1;
      isListeningVelocity := false;
      listeningVelocity := 1;
    }

    method IncConnections(i: int)
      modifies this
      ensures Settings() == old(Settings()).IncConnections(i)
      ensures State() == old(State())
    {
      numConnections := numConnections + i;
    }

    method GetConnections() returns (n: int)
      ensures n == Settings().numConnections
    {
      n := numConnections;
    }

    method SetIsListeningVelocity(isListening: bool)
      modifies this
      ensures Settings() == old(Settings()).WithListening(isListening)
      ensures State() == old(State())
    {
      isListeningVelocity := isListening;
    }

    method SetListeningVelocity(velo: int)
      modifies this
      ensures Settings() == old(Settings()).WithListeningVelocity(velo)
      ensures State() == old(State())
    {
      listeningVelocity := ToByte(velo);
    }

    method GetListeningVelocity() returns (v: int)
      ensures v == Settings().listeningVelocity
    {
      v := listeningVelocity;
    }

    method SetMidiInputGatingEnabled(activate: bool)
      modifies this
      ensures Settings() == old(Settings()).WithGating(activate)
      ensures State() == old(State())
    {
      isMidiInputGatingActive := activate;
    }

    method PrepareToPlay(newSampleRate: real)
      modifies this
      ensures Settings() == old(Settings())
      ensures sampleRate == newSampleRate
      ensures samplesPerBeat == SamplesPerBeat(newSampleRate, bpm)
      ensures State() == Prepared(old(Settings()), old(State()), samplesPerBeat)
    {
      sampleRate := newSampleRate;
      var perBeat := SamplesPerBeat(newSampleRate, bpm);
      Restart(perBeat);
    }

    /** The part of prepareToPlay after samplesPerBeat is known. */
    method Restart(perBeat: nat)
      modifies this
      ensures Settings() == old(Settings())
      ensures sampleRate == old(sampleRate) && samplesPerBeat == perBeat
      ensures State() == Prepared(old(Settings()), old(State()), perBeat)
    {
      var p := Prepared(Settings(), State(), perBeat);
      SetDurations(perBeat, p.onDuration, p.offDuration);
      ResetCounters();
    }

    method SetDurations(perBeat: nat, on: int, off: int)
      modifies this
      ensures Settings() == old(Settings())
      ensures sampleRate == old(sampleRate) && samplesPerBeat == perBeat
      ensures State() == old(State()).(onDuration := on, offDuration := off)
    {
      samplesPerBeat := perBeat;
      samplesForOnDuration := on;
      samplesForOffDuration := off;
    }

    method ResetCounters()
      modifies this
      ensures Settings() == old(Settings())
      ensures sampleRate == old(sampleRate) && samplesPerBeat == old(samplesPerBeat)
      ensures State() == old(State()).(globalSample := 0, nextChange := 0, cycle := AwaitingNoteOn,
                                       noteOn := false, loopCount := 0, initialCycle := true, gateOpen := false)
    {
      ResetClock();
      ResetNote();
    }

    method ResetClock()
      modifies this
      ensures Settings() == old(Settings())
      ensures sampleRate == old(sampleRate) && samplesPerBeat == old(samplesPerBeat)
      ensures State() == old(State()).(globalSample := 0, nextChange := 0, cycle := AwaitingNoteOn)
    {
      globalSampleCount := 0;
      nextStateChangeGlobalSample := 0;
      currentCycleState := AwaitingNoteOn;
    }

    method ResetNote()
      modifies this
      ensures Settings() == old(Settings())
      ensures sampleRate == old(sampleRate) && samplesPerBeat == old(samplesPerBeat)
      ensures State() == old(State()).(noteOn := false, loopCount := 0, initialCycle := true, gateOpen := false)
    {
      ourGeneratedNoteIsOn := false;
      loopCount := 0;
      isInitialCycle := true;
      externalGatingNoteActive := false;
    }

    /** The loop over the incoming messages that sit at sample `i`. */
    method ConsumeAt(incoming: seq<MidiEvent>, k0: nat, i: int) returns (k: nat)
      requires k0 <= |incoming|
      modifies this
      ensures (externalGatingNoteActive, k) == Consume(old(Settings()), old(externalGatingNoteActive), incoming, k0, i)
      ensures Settings() == old(Settings())
      ensures State() == old(State()).(gateOpen := externalGatingNoteActive)
      ensures sampleRate == old(sampleRate) && samplesPerBeat == old(samplesPerBeat)
    {
      k := k0;
      while k < |incoming| && incoming[k].position == i
        invariant k0 <= k <= |incoming|
        invariant Consume(Settings(), externalGatingNoteActive, incoming, k, i)
                  == Consume(old(Settings()), old(externalGatingNoteActive), incoming, k0, i)
        invariant Settings() == old(Settings())
        invariant State() == old(State()).(gateOpen := externalGatingNoteActive)
        invariant sampleRate == old(sampleRate) && samplesPerBeat == old(samplesPerBeat)
        decreases |incoming| - k
      {
        var msg := incoming[k].message;
        var gate := externalGatingNoteActive;
        if isMidiInputGatingActive {
          if IsNoteOn(msg) {
            gate := true;
          } else if IsNoteOff(msg) {
            gate := false;
          } else if IsAllNotesOrSoundOff(msg) {
            gate := false;
          }
          if isListeningVelocity && listeningVelocity != msg.velocity {
            gate := false;
          }
        }
        assert gate == GateAfter(Settings(), externalGatingNoteActive, msg);
        externalGatingNoteActive := gate;
        k := k + 1;
      }
    }

    /** The AWAITING_NOTE_ON boundary: count the cycle, take its slot, start a note if allowed. */
    method OpenCycle(out0: seq<MidiEvent>, i: int) returns (out: seq<MidiEvent>)
      requires currentCycleState == AwaitingNoteOn
      modifies this
      ensures (State(), out) == Transition(old(Settings()), old(State()), out0, i)
      ensures Settings() == old(Settings())
      ensures sampleRate == old(sampleRate) && samplesPerBeat == old(samplesPerBeat)
    {
      TransitionEffect(Settings(), State(), out0, i);
      TakeSlot();
      out := BeginNote(out0, i);
    }

    /** Count the cycle unless it is the first, and take its slot as velocity. */
    method TakeSlot()
      modifies this
      ensures loopCount == if old(isInitialCycle) then old(loopCount) else (old(loopCount) + 1) % U64
      ensures velocity == SlotVelocity(loopCount, numConnections)
      ensures State() == old(State()).(loopCount := loopCount, initialCycle := false, velocity := velocity)
      ensures Settings() == old(Settings())
      ensures sampleRate == old(sampleRate) && samplesPerBeat == old(samplesPerBeat)
    {
      var loop := loopCount;
      if !isInitialCycle {
        loop := (loop + 1) % U64;
      }
      loopCount := loop;
      isInitialCycle := false;
      velocity := SlotVelocity(loop, numConnections);
    }

    /** Start a note when beats are on, the parent gate permits and none of ours sounds. */
    method BeginNote(out0: seq<MidiEvent>, i: int) returns (out: seq<MidiEvent>)
      modifies this
      ensures var emit := beatsOn > 0 && (!isMidiInputGatingActive || externalGatingNoteActive)
                          && !old(ourGeneratedNoteIsOn);
        && out == (if emit then AddEvent(out0, NoteOnAt(velocity, i)) else out0)
        && State() == old(State()).(noteOn := old(ourGeneratedNoteIsOn) || emit, cycle := NoteIsOn,
                                    nextChange := old(nextStateChangeGlobalSample) + samplesForOnDuration)
      ensures Settings() == old(Settings())
      ensures sampleRate == old(sampleRate) && samplesPerBeat == old(samplesPerBeat)
    {
      var sounding := ourGeneratedNoteIsOn;
      var permittedByParentGate := !isMidiInputGatingActive || externalGatingNoteActive;
      out := out0;
      if beatsOn > 0 && permittedByParentGate {
        if !sounding {
          out := AddEvent(out, NoteOnAt(velocity, i));
          sounding := true;
        }
      }
      ourGeneratedNoteIsOn := sounding;
      currentCycleState := NoteIsOn;
      nextStateChangeGlobalSample := nextStateChangeGlobalSample + samplesForOnDuration;
    }

    /** The NOTE_IS_ON boundary: end our note if it sounds and wait for the next cycle. */
    method CloseCycle(out0: seq<MidiEvent>, i: int) returns (out: seq<MidiEvent>)
      requires currentCycleState == NoteIsOn
      modifies this
      ensures (State(), out) == Transition(old(Settings()), old(State()), out0, i)
      ensures Settings() == old(Settings())
      ensures sampleRate == old(sampleRate) && samplesPerBeat == old(samplesPerBeat)
    {
      out := out0;
      if ourGeneratedNoteIsOn {
        out := AddEvent(out, NoteOffAt(velocity, i));
        ourGeneratedNoteIsOn := false;
      }
      currentCycleState := AwaitingNoteOn;
      nextStateChangeGlobalSample := nextStateChangeGlobalSample + samplesForOffDuration;
    }

    /** The boundary loop at sample `i`: it runs while a change is due at this sample. */
    method RunSchedule(out0: seq<MidiEvent>, i: int) returns (out: seq<MidiEvent>)
      requires !State().Inert()
      modifies this
      ensures (State(), out) == Boundaries(old(Settings()), old(State()), out0, i)
      ensures Settings() == old(Settings())
      ensures sampleRate == old(sampleRate) && samplesPerBeat == old(samplesPerBeat)
    {
      out := out0;
      while globalSampleCount + i == nextStateChangeGlobalSample
        invariant !State().Inert()
        invariant Boundaries(Settings(), State(), out, i) == Boundaries(old(Settings()), old(State()), out0, i)
        invariant Settings() == old(Settings())
        invariant sampleRate == old(sampleRate) && samplesPerBeat == old(samplesPerBeat)
        decreases BoundaryFuel(State(), i)
      {
        if currentCycleState == AwaitingNoteOn {
          out := OpenCycle(out, i);
        } else {
          out := CloseCycle(out, i);
        }
      }
    }

    /** One pass of the per-sample loop: read the messages at `i`, force off, run the schedule. */
    method ProcessSample(midiMessages: seq<MidiEvent>, k0: nat, out0: seq<MidiEvent>, i: int)
      returns (k: nat, out: seq<MidiEvent>)
      requires k0 <= |midiMessages| && !State().Inert()
      modifies this
      ensures (State(), k, out) == AfterSample(old(Settings()), old(State()), midiMessages, k0, out0, i)
      ensures Settings() == old(Settings())
      ensures sampleRate == old(sampleRate) && samplesPerBeat == old(samplesPerBeat)
    {
      k := ConsumeAt(midiMessages, k0, i);
      out := out0;
      if isMidiInputGatingActive && ourGeneratedNoteIsOn && !externalGatingNoteActive {
        out := AddEvent(out, NoteOffAt(velocity, i));
        ourGeneratedNoteIsOn := false;
      }
      out := RunSchedule(out, i);
    }

    /**
     * processBlock: one pass per sample over the block, then the messages nobody read are
     * handed on; an inert pulse only advances its sample counter.
     */
    method ProcessBlock(blockSize: nat, midiMessages: seq<MidiEvent>) returns (out: seq<MidiEvent>)
      modifies this
      ensures Settings() == old(Settings())
      ensures sampleRate == old(sampleRate) && samplesPerBeat == old(samplesPerBeat)
      ensures State() == AfterBlock(old(Settings()), old(State()), midiMessages, blockSize).state
      ensures out == AfterBlock(old(Settings()), old(State()), midiMessages, blockSize).out
    {
      if samplesForOnDuration == 0 && samplesForOffDuration == 0 {
        globalSampleCount := globalSampleCount + blockSize;
        return midiMessages;
      }
      var processedMidi: seq<MidiEvent> := [];
      var k: nat := 0;
      var i := 0;
      while i < blockSize
        invariant 0 <= i <= blockSize && k <= |midiMessages|
        invariant !State().Inert()
        invariant SamplesFrom(Settings(), State(), midiMessages, k, processedMidi, i, blockSize)
                  == SamplesFrom(old(Settings()), old(State()), midiMessages, 0, [], 0, blockSize)
        invariant Settings() == old(Settings())
        invariant State().globalSample == old(State()).globalSample
        invariant sampleRate == old(sampleRate) && samplesPerBeat == old(samplesPerBeat)
        decreases blockSize - i
      {
        k, processedMidi := ProcessSample(midiMessages, k, processedMidi, i);
        i := i + 1;
      }
      out := ForwardUnread(processedMidi, midiMessages, k);
      globalSampleCount := globalSampleCount + blockSize;
    }
  }

  /** The closing loop of processBlock: every message not read is added to the output. */
  method ForwardUnread(generated: seq<MidiEvent>, midiMessages: seq<MidiEvent>, consumed: nat)
    returns (out: seq<MidiEvent>)
    requires consumed <= |midiMessages|
    ensures out == AddEvents(generated, midiMessages[consumed..])
  {
    out := generated;
    var k := consumed;
    while k < |midiMessages|
      invariant consumed <= k <= |midiMessages|
      invariant AddEvents(out, midiMessages[k..]) == AddEvents(generated, midiMessages[consumed..])
      decreases |midiMessages| - k
    {
      assert midiMessages[k..][1..] == midiMessages[k + 1..];
      assert AddEvents(out, midiMessages[k..])
          == AddEvents(AddEvent(out, midiMessages[k]), midiMessages[k + 1..]);
      out := AddEvent(out, midiMessages[k]);
      k := k + 1;
    }
    assert midiMessages[k..] == [];
  }
}
