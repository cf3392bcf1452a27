/**
 * The MIDI gate of OscillatorBase: whether an oscillator is MIDI-triggered, which slot
 * (velocity) it answers to, whether it is playing, and how a block is cut into rendered
 * segments between the MIDI events it handles.
 */
module Oscillators {
  import opened Wrappers
  import opened Midi

  /** juce::jlimit. */
  function Clamp(lo: int, hi: int, v: int): (r: int)
    ensures lo <= hi ==> lo <= r <= hi
    ensures lo <= v <= hi ==> r == v
    ensures v < lo ==> r == lo
    ensures lo <= v && hi < v ==> r == hi
  {
    if v < lo then lo else if hi < v then hi else v
  }

  /** The gate fields of an oscillator; the setters the parser calls are defined here once. */
  datatype OscGate = OscGate(
    fixedMidiNote: int,
    midiTriggered: bool,
    isPlaying: bool,
    velocity: byte,
    openOnAllChannels: bool)
  {
    /** setMidiTriggered. */
    function WithMidiTriggered(b: bool): (g: OscGate)
      ensures g.midiTriggered == b
      ensures midiTriggered == b ==> g == this
      ensures midiTriggered != b ==> g.isPlaying == !b
      ensures g.(midiTriggered := midiTriggered, isPlaying := isPlaying) == this
    {
      if midiTriggered == b then this else this.(midiTriggered := b, isPlaying := !b)
    }

    /** setFixedMidiNote: the note is clamped into the MIDI range. */
    function WithFixedMidiNote(n: int): (g: OscGate)
      ensures 0 <= g.fixedMidiNote <= 127
      ensures 0 <= n <= 127 ==> g.fixedMidiNote == n
      ensures n < 0 ==> g.fixedMidiNote == 0
      ensures 127 < n ==> g.fixedMidiNote == 127
      ensures g.(fixedMidiNote := fixedMidiNote) == this
    {
      this.(fixedMidiNote := Clamp(0, 127, n))
    }

    /** set_velocity: the slot this oscillator answers to, truncated to 8 bits. */
    function WithVelocity(v: int): (g: OscGate)
      ensures (g.velocity - v) % 256 == 0
      ensures 0 <= v < 256 ==> g.velocity == v
      ensures g.(velocity := velocity) == this
    {
      this.(velocity := ToByte(v))
    }

    function WithOpenOnAllChannels(b: bool): (g: OscGate)
      ensures g == this.(openOnAllChannels := b)
    {
      this.(openOnAllChannels := b)
    }

    /** prepareToPlay: a free-running oscillator plays, a triggered one waits for a note. */
    function Prepared(): (g: OscGate)
      ensures g.isPlaying <==> !midiTriggered
      ensures g.(isPlaying := isPlaying) == this
    {
      this.(isPlaying := !midiTriggered)
    }

    /** The guard at the top of handleMidi. */
    predicate Accepts(m: MidiMessage) {
      midiTriggered && (velocity == m.velocity || openOnAllChannels)
    }

    /** handleMidi. */
    function AfterMessage(m: MidiMessage): (g: OscGate)
      ensures !Accepts(m) ==> g == this
      ensures Accepts(m) && IsNoteOn(m) ==> g.isPlaying
      ensures Accepts(m) && (IsNoteOff(m) || IsAllNotesOrSoundOff(m)) ==> !g.isPlaying
      ensures !IsNoteOn(m) && !IsNoteOff(m) && !IsAllNotesOrSoundOff(m) ==> g == this
      ensures g.(isPlaying := isPlaying) == this
    {
      if !Accepts(m) then this
      else if IsNoteOn(m) then this.(isPlaying := true)
      else if IsNoteOff(m) || IsAllNotesOrSoundOff(m) then this.(isPlaying := false)
      else this
    }

    /** render's choice between producing audio and clearing the segment. */
    predicate Audible(gainSmoothing: bool) {
      !midiTriggered || isPlaying || gainSmoothing
    }
  }

  /** The gate of a freshly constructed oscillator (OscillatorBase(waveform, note)). */
  function NewOscGate(initialMidiNote: int): (g: OscGate)
    ensures g.fixedMidiNote == Clamp(0, 127, initialMidiNote)
    ensures !g.midiTriggered && !g.isPlaying && !g.openOnAllChannels
    ensures g.velocity == 1
  {
    OscGate(69, false, false, 1, false).WithFixedMidiNote(initialMidiNote)
  }

  /** An untriggered oscillator is audible whatever the gain does. */
  lemma FreeRunningIsAudible(g: OscGate, smoothing: bool)
    requires !g.midiTriggered
    ensures g.Audible(smoothing)
    ensures forall m :: g.AfterMessage(m) == g
  {
  }

  /** A triggered oscillator that is silent and not ramping renders a cleared segment. */
  lemma TriggeredSilentIsCleared(g: OscGate)
    requires g.midiTriggered && !g.isPlaying
    ensures !g.Audible(false)
    ensures g.Audible(true)
  {
  }

  /**
   * A triggered oscillator playing only on slot message velocity `v` is switched by a note
   * with that velocity and by no other note.
   */
  lemma SlotSelectivity(g: OscGate, m: MidiMessage)
    requires g.midiTriggered && !g.openOnAllChannels
    ensures g.Accepts(m) <==> m.velocity == g.velocity
    ensures m.velocity != g.velocity ==> g.AfterMessage(m) == g
  {
  }

  /**
   * A well-formed all-notes-off or all-sound-off carries velocity 0, so it stops a triggered
   * oscillator on a nonzero slot only when that oscillator is open on all channels.
   */
  lemma AllOffNeedsOpenChannels(g: OscGate, m: MidiMessage)
    requires WellFormed(m) && IsAllNotesOrSoundOff(m) && g.velocity != 0 && g.midiTriggered && g.isPlaying
    ensures !g.AfterMessage(m).isPlaying <==> g.openOnAllChannels
  {
  }

  /** What processBlock does, one entry per render call that has work and per handled message. */
  datatype RenderStep =
    | Render(start: int, end: int, audible: bool)
    | Handle(message: MidiMessage, at: int)

  /**
   * The steps of processBlock from `current` onwards, with the gate `g` in force and the
   * events `events` still to visit; `smoothing(s)` is whether the gain ramp is still moving
   * when a segment starting at `s` is rendered (the ramp itself is not modelled).
   */
  function BlockTrace(g: OscGate, events: seq<MidiEvent>, numSamples: int,
                      smoothing: int -> bool, current: int): seq<RenderStep>
    decreases |events|
  {
    if events == [] then
      if current < numSamples then [Render(current, numSamples, g.Audible(smoothing(current)))]
      else []
    else
      var e := events[0];
      var at := Clamp(0, numSamples - 1, e.position);
      (if at > current then [Render(current, at, g.Audible(smoothing(current)))] else [])
      + [Handle(e.message, at)]
      + BlockTrace(g.AfterMessage(e.message), events[1..], numSamples, smoothing, at)
  }

  /** The gate after all events have been handled in order. */
  function AfterEvents(g: OscGate, events: seq<MidiEvent>): OscGate
    decreases |events|
  {
    if events == [] then g else AfterEvents(g.AfterMessage(events[0].message), events[1..])
  }

  /** The render steps of a trace, in order. */
  function Renders(trace: seq<RenderStep>): (r: seq<RenderStep>)
    ensures forall k :: 0 <= k < |r| ==> r[k].Render?
  {
    if trace == [] then []
    else (if trace[0].Render? then [trace[0]] else []) + Renders(trace[1..])
  }

  /** The messages of the handle steps of a trace, in order. */
  function Handled(trace: seq<RenderStep>): seq<MidiMessage> {
    if trace == [] then []
    else (if trace[0].Handle? then [trace[0].message] else []) + Handled(trace[1..])
  }

  /** Render segments that are non-empty, follow each other without gap and span [from, to). */
  predicate Tiles(segments: seq<RenderStep>, from: int, to: int)
    decreases |segments|
  {
    if segments == [] then from == to
    else
      segments[0].Render? && segments[0].start == from && segments[0].start < segments[0].end
      && Tiles(segments[1..], segments[0].end, to)
  }

  /** The end of the last rendered segment in `trace`, or `current` before any. */
  function RenderedUntil(trace: seq<RenderStep>, current: int): int
    decreases |trace|
  {
    if trace == [] then current
    else if trace[|trace| - 1].Render? then trace[|trace| - 1].end
    else RenderedUntil(trace[..|trace| - 1], current)
  }

  lemma {:induction false} RendersAppend(a: seq<RenderStep>, b: seq<RenderStep>)
    ensures Renders(a + b) == Renders(a) + Renders(b)
  {
    if a != [] {
      assert (a + b)[0] == a[0];
      assert (a + b)[1..] == a[1..] + b;
      RendersAppend(a[1..], b);
    } else {
      assert a + b == b;
    }
  }

  lemma {:induction false} HandledAppend(a: seq<RenderStep>, b: seq<RenderStep>)
    ensures Handled(a + b) == Handled(a) + Handled(b)
  {
    if a != [] {
      assert (a + b)[0] == a[0];
      assert (a + b)[1..] == a[1..] + b;
      HandledAppend(a[1..], b);
    } else {
      assert a + b == b;
    }
  }

  lemma {:induction false} RenderedUntilAppend(a: seq<RenderStep>, b: seq<RenderStep>, current: int)
    ensures RenderedUntil(a + b, current) == RenderedUntil(b, RenderedUntil(a, current))
    decreases |b|
  {
    if b != [] {
      var ab := a + b;
      assert ab[..|ab| - 1] == a + b[..|b| - 1];
      RenderedUntilAppend(a, b[..|b| - 1], current);
    } else {
      assert a + b == a;
    }
  }

  /** Each handle step comes exactly when rendering has reached its position. */
  predicate HandlesInPlace(trace: seq<RenderStep>, current: int) {
    forall t :: 0 <= t < |trace| && trace[t].Handle? ==> RenderedUntil(trace[..t], current) == trace[t].at
  }

  /** Every message is handled, in buffer order, whatever the positions. */
  lemma {:induction false} BlockTraceHandlesAll(g: OscGate, events: seq<MidiEvent>, n: int,
                                                 smoothing: int -> bool, current: int)
    ensures Handled(BlockTrace(g, events, n, smoothing, current)) == Messages(events)
    decreases |events|
  {
    if events != [] {
      var e := events[0];
      var at := Clamp(0, n - 1, e.position);
      var pre: seq<RenderStep> := if at > current then [Render(current, at, g.Audible(smoothing(current)))] else [];
      var rest := BlockTrace(g.AfterMessage(e.message), events[1..], n, smoothing, at);
      HandledAppend(pre + [Handle(e.message, at)], rest);
      HandledAppend(pre, [Handle(e.message, at)]);
      BlockTraceHandlesAll(g.AfterMessage(e.message), events[1..], n, smoothing, at);
      assert Handled([Handle(e.message, at)]) == [e.message];
    }
  }

  /**
   * With sorted positions in a non-empty block, the rendered segments are non-empty and
   * contiguous and together cover [current, numSamples).
   */
  lemma {:induction false} BlockTraceTiles(g: OscGate, events: seq<MidiEvent>, n: int,
                                           smoothing: int -> bool, current: int)
    requires 0 <= current < n
    requires SortedByPosition(events)
    requires events != [] ==> current <= Clamp(0, n - 1, events[0].position)
    ensures Tiles(Renders(BlockTrace(g, events, n, smoothing, current)), current, n)
    decreases |events|
  {
    var trace := BlockTrace(g, events, n, smoothing, current);
    if events == [] {
      assert Renders(trace) == [Render(current, n, g.Audible(smoothing(current)))];
    } else {
      var e := events[0];
      var at := Clamp(0, n - 1, e.position);
      var pre: seq<RenderStep> := if at > current then [Render(current, at, g.Audible(smoothing(current)))] else [];
      var rest := BlockTrace(g.AfterMessage(e.message), events[1..], n, smoothing, at);
      assert trace == pre + [Handle(e.message, at)] + rest;
      RendersAppend(pre + [Handle(e.message, at)], rest);
      RendersAppend(pre, [Handle(e.message, at)]);
      assert Renders([Handle(e.message, at)]) == [];
      if |events| > 1 {
        assert events[1..][0] == events[1];
      }
      BlockTraceTiles(g.AfterMessage(e.message), events[1..], n, smoothing, at);
      if at > current {
        assert Renders(pre) == pre;
        assert Renders(trace) == pre + Renders(rest);
        assert (pre + Renders(rest))[1..] == Renders(rest);
      } else {
        assert Renders(trace) == Renders(rest);
      }
    }
  }

  /**
   * With sorted positions, a message is handled exactly when rendering has reached its
   * clamped position: the samples before it carry the old gate, the ones after it the new.
   */
  lemma {:induction false} BlockTraceHandlesInPlace(g: OscGate, events: seq<MidiEvent>, n: int,
                                                    smoothing: int -> bool, current: int)
    requires 0 < n
    requires SortedByPosition(events)
    requires events != [] ==> current <= Clamp(0, n - 1, events[0].position)
    ensures HandlesInPlace(BlockTrace(g, events, n, smoothing, current), current)
    decreases |events|
  {
    var trace := BlockTrace(g, events, n, smoothing, current);
    if events != [] {
      var e := events[0];
      var at := Clamp(0, n - 1, e.position);
      var pre: seq<RenderStep> := if at > current then [Render(current, at, g.Audible(smoothing(current)))] else [];
      var head := pre + [Handle(e.message, at)];
      var rest := BlockTrace(g.AfterMessage(e.message), events[1..], n, smoothing, at);
      assert trace == head + rest;
      assert RenderedUntil(pre, current) == at;
      assert head[..|head| - 1] == pre;
      assert RenderedUntil(head, current) == at;
      if |events| > 1 {
        assert events[1..][0] == events[1];
      }
      BlockTraceHandlesInPlace(g.AfterMessage(e.message), events[1..], n, smoothing, at);
      assert HandlesInPlace(rest, at);
      forall t | 0 <= t < |trace| && trace[t].Handle?
        ensures RenderedUntil(trace[..t], current) == trace[t].at
      {
        if t == |pre| {
          assert trace[t] == Handle(e.message, at);
          assert trace[..t] == pre;
        } else if t > |pre| {
          var u := t - |head|;
          assert trace[t] == rest[u];
          assert rest[u].Handle?;
          assert RenderedUntil(rest[..u], at) == rest[u].at;
          assert trace[..t] == head + rest[..u];
          RenderedUntilAppend(head, rest[..u], current);
        }
      }
    }
  }

  /**
   * processBlock on a non-empty block with a sorted buffer: the rendered segments cover the
   * block without gap or overlap, every message is handled where its position cuts the
   * block, and the messages are handled in buffer order.
   */
  lemma BlockSegmentation(g: OscGate, events: seq<MidiEvent>, n: int, smoothing: int -> bool)
    requires 0 < n && SortedByPosition(events)
    ensures Tiles(Renders(BlockTrace(g, events, n, smoothing, 0)), 0, n)
    ensures HandlesInPlace(BlockTrace(g, events, n, smoothing, 0), 0)
    ensures Handled(BlockTrace(g, events, n, smoothing, 0)) == Messages(events)
  {
    BlockTraceTiles(g, events, n, smoothing, 0);
    BlockTraceHandlesInPlace(g, events, n, smoothing, 0);
    BlockTraceHandlesAll(g, events, n, smoothing, 0);
  }

  /** One oscillator's gate state, updated in place by the setters and by processBlock. */
  class Oscillator {
    var fixedMidiNote: int
    var midiTriggered: bool
    var isPlaying: bool
    var velocity: byte
    var openOnAllChannels: bool
    var sampleRate: real

    function Gate(): OscGate
      reads this
    {
      OscGate(fixedMidiNote, midiTriggered, isPlaying, velocity, openOnAllChannels)
    }

    constructor (initialMidiNote: int)
      ensures Gate() == NewOscGate(initialMidiNote)
      ensures sampleRate == 0.0
    {
      fixedMidiNote := Clamp(0, 127, initialMidiNote);
      midiTriggered := false;
      isPlaying := false;
      velocity := 1;
      openOnAllChannels := false;
      sampleRate := 0.0;
    }

    method SetMidiTriggered(shouldBeTriggered: bool)
      modifies this
      ensures Gate() == old(Gate()).WithMidiTriggered(shouldBeTriggered)
      ensures sampleRate == old(sampleRate)
    {
      if midiTriggered == shouldBeTriggered {
        return;
      }
      midiTriggered := shouldBeTriggered;
      if !midiTriggered {
        isPlaying := true;
      } else {
        isPlaying := false;
      }
    }

    method SetFixedMidiNote(newMidiNote: int)
      modifies this
      ensures Gate() == old(Gate()).WithFixedMidiNote(newMidiNote)
      ensures sampleRate == old(sampleRate)
    {
      fixedMidiNote := Clamp(0, 127, newMidiNote);
    }

    method SetVelocity(newVelocity: int)
      modifies this
      ensures Gate() == old(Gate()).WithVelocity(newVelocity)
      ensures sampleRate == old(sampleRate)
    {
      velocity := ToByte(newVelocity);
    }

    method SetOpenOnAllChannels(isOpen: bool)
      modifies this
      ensures Gate() == old(Gate()).WithOpenOnAllChannels(isOpen)
      ensures sampleRate == old(sampleRate)
    {
      openOnAllChannels := isOpen;
    }

    method PrepareToPlay(newSampleRate: real, samplesPerBlock: int)
      modifies this
      ensures Gate() == old(Gate()).Prepared()
      ensures sampleRate == newSampleRate
    {
      sampleRate := newSampleRate;
      if !midiTriggered {
        isPlaying := true;
      } else {
        isPlaying := false;
      }
    }

    method HandleMidi(m: MidiMessage)
      modifies this
      ensures Gate() == old(Gate()).AfterMessage(m)
      ensures sampleRate == old(sampleRate)
    {
      if !midiTriggered || (velocity != m.velocity && !openOnAllChannels) {
        return;
      }
      if IsNoteOn(m) {
        isPlaying := true;
      } else if IsNoteOff(m) {
        isPlaying := false;
      } else if IsAllNotesOrSoundOff(m) {
        isPlaying := false;
      }
    }

    /** render: the segment it fills, or nothing when the range is empty. */
    method RenderRange(startSample: int, endSample: int, smoothing: int -> bool) returns (steps: seq<RenderStep>)
      ensures startSample >= endSample ==> steps == []
      ensures startSample < endSample ==>
        steps == [Render(startSample, endSample, Gate().Audible(smoothing(startSample)))]
    {
      if startSample >= endSample {
        return [];
      }
      var shouldProcessAudio: bool;
      if !midiTriggered {
        shouldProcessAudio := true;
      } else {
        shouldProcessAudio := isPlaying || smoothing(startSample);
      }
      steps := [Render(startSample, endSample, shouldProcessAudio)];
    }

    /**
     * One turn of processBlock's loop: the range before the event's clamped position is
     * rendered with the gate in force, then the event is handled there.
     */
    method HandleEvent(meta: MidiEvent, numSamples: int, smoothing: int -> bool, currentSample: int)
      returns (steps: seq<RenderStep>, msgSample: int)
      modifies this
      ensures sampleRate == old(sampleRate)
      ensures msgSample == Clamp(0, numSamples - 1, meta.position)
      ensures Gate() == old(Gate()).AfterMessage(meta.message)
      ensures forall rest: seq<MidiEvent> ::
        steps + BlockTrace(Gate(), rest, numSamples, smoothing, msgSample)
        == BlockTrace(old(Gate()), [meta] + rest, numSamples, smoothing, currentSample)
    {
      msgSample := Clamp(0, numSamples - 1, meta.position);
      steps := [];
      if msgSample > currentSample {
        steps := RenderRange(currentSample, msgSample, smoothing);
      }
      steps := steps + [Handle(meta.message, msgSample)];
      ghost var g0 := Gate();
      HandleMidi(meta.message);
      forall rest: seq<MidiEvent>
        ensures steps + BlockTrace(Gate(), rest, numSamples, smoothing, msgSample)
             == BlockTrace(g0, [meta] + rest, numSamples, smoothing, currentSample)
      {
        assert ([meta] + rest)[0] == meta && ([meta] + rest)[1..] == rest;
      }
    }

    /**
     * processBlock: cuts the block at each message's clamped position, renders the range
     * before it with the gate then in force and handles the message. Nothing happens before
     * prepareToPlay has set a positive sample rate.
     */
    method ProcessBlock(numSamples: int, midiMessages: seq<MidiEvent>, smoothing: int -> bool)
      returns (trace: seq<RenderStep>)
      modifies this
      ensures sampleRate == old(sampleRate)
      ensures old(sampleRate) <= 0.0 ==> trace == [] && Gate() == old(Gate())
      ensures old(sampleRate) > 0.0 ==>
        trace == BlockTrace(old(Gate()), midiMessages, numSamples, smoothing, 0)
        && Gate() == AfterEvents(old(Gate()), midiMessages)
    {
      trace := [];
      if sampleRate <= 0.0 {
        return;
      }
      var currentSample := 0;
      var k := 0;
      while k < |midiMessages|
        invariant 0 <= k <= |midiMessages|
        invariant sampleRate == old(sampleRate)
        invariant trace + BlockTrace(Gate(), midiMessages[k..], numSamples, smoothing, currentSample)
                  == BlockTrace(old(Gate()), midiMessages, numSamples, smoothing, 0)
        invariant AfterEvents(Gate(), midiMessages[k..]) == AfterEvents(old(Gate()), midiMessages)
      {
        var meta := midiMessages[k];
        var rest := midiMessages[k + 1..];
        assert midiMessages[k..] == [meta] + rest;
        ghost var g0 := Gate();
        ghost var done := trace;
        var steps, msgSample := HandleEvent(meta, numSamples, smoothing, currentSample);
        assert steps + BlockTrace(Gate(), rest, numSamples, smoothing, msgSample)
            == BlockTrace(g0, [meta] + rest, numSamples, smoothing, currentSample);
        assert AfterEvents(g0, [meta] + rest) == AfterEvents(Gate(), rest);
        trace := trace + steps;
        assert trace + BlockTrace(Gate(), rest, numSamples, smoothing, msgSample)
            == done + (steps + BlockTrace(Gate(), rest, numSamples, smoothing, msgSample));
        currentSample := msgSample;
        k := k + 1;
      }
      assert midiMessages[k..] == [];
      if currentSample < numSamples {
        var steps := RenderRange(currentSample, numSamples, smoothing);
        trace := trace + steps;
      }
    }
  }
}
