/** What the pulse promises: its schedule, its note alternation, its gate and its MIDI thru. */
module PulseProperties {
  import opened Wrappers
  import opened Midi
  import opened Pulses

  /** Whether our note sounds after the generated messages `ms`, starting from `on`. */
  function SoundingAfter(ms: seq<MidiMessage>, on: bool): bool {
    if ms == [] then on else ms[|ms| - 1].kind == NoteOnMsg
  }

  /** Generated notes alternate: a note-on only while silent, a note-off only while sounding. */
  predicate Alternates(ms: seq<MidiMessage>, on: bool)
    decreases |ms|
  {
    ms == [] ||
    (Alternates(ms[..|ms| - 1], on) &&
     var before := SoundingAfter(ms[..|ms| - 1], on);
     (ms[|ms| - 1].kind == NoteOnMsg && !before) || (ms[|ms| - 1].kind == NoteOffMsg && before))
  }

  /** What holds of the notes generated so far at sample `i` of a block. */
  predicate Generated(out: seq<MidiEvent>, on0: bool, noteOn: bool, i: int) {
    && Alternates(Messages(out), on0)
    && SoundingAfter(Messages(out), on0) == noteOn
    && SortedByPosition(out)
    && (forall k :: 0 <= k < |out| ==> 0 <= out[k].position <= i)
  }

  lemma MessagesAppend(out: seq<MidiEvent>, e: MidiEvent)
    ensures Messages(out + [e]) == Messages(out) + [e.message]
  {
    assert Messages(out + [e]) == Messages(out) + [e.message] by {
      var l := Messages(out + [e]);
      var r := Messages(out) + [e.message];
      assert |l| == |r|;
      forall k | 0 <= k < |l|
        ensures l[k] == r[k]
      {
        if k < |out| {
          assert (out + [e])[k] == out[k];
        }
      }
    }
  }

  /** One more message that matches what sounds keeps the alternation. */
  lemma AlternatesSnoc(ms: seq<MidiMessage>, m: MidiMessage, on0: bool)
    requires Alternates(ms, on0)
    requires (m.kind == NoteOnMsg && !SoundingAfter(ms, on0)) || (m.kind == NoteOffMsg && SoundingAfter(ms, on0))
    ensures Alternates(ms + [m], on0)
    ensures SoundingAfter(ms + [m], on0) == (m.kind == NoteOnMsg)
  {
    assert (ms + [m])[..|ms|] == ms;
  }

  /** Adding a note at sample `i` that matches what sounds keeps the generated notes in order. */
  lemma AddNoteKeeps(out: seq<MidiEvent>, on0: bool, noteOn: bool, i: int, e: MidiEvent)
    requires Generated(out, on0, noteOn, i)
    requires e.position == i && 0 <= i
    requires (e.message.kind == NoteOnMsg && !noteOn) || (e.message.kind == NoteOffMsg && noteOn)
    ensures Generated(AddEvent(out, e), on0, !noteOn, i)
  {
    AddEventAtEnd(out, e);
    AddEventKeepsOrder(out, e);
    MessagesAppend(out, e);
    AlternatesSnoc(Messages(out), e.message, on0);
    PositionsSnoc(out, e, i);
  }

  lemma PositionsSnoc(out: seq<MidiEvent>, e: MidiEvent, i: int)
    requires forall k :: 0 <= k < |out| ==> 0 <= out[k].position <= i
    requires 0 <= e.position <= i
    ensures forall k :: 0 <= k < |out + [e]| ==> 0 <= (out + [e])[k].position <= i
  {
    var r := out + [e];
    forall k | 0 <= k < |r|
      ensures 0 <= r[k].position <= i
    {
      if k < |out| {
        assert r[k] == out[k];
      }
    }
  }

  lemma GeneratedLater(out: seq<MidiEvent>, on0: bool, noteOn: bool, i: int, j: int)
    requires Generated(out, on0, noteOn, i) && i <= j
    ensures Generated(out, on0, noteOn, j)
  {
  }

  lemma TransitionKeepsGenerated(s: PulseSettings, st: PulseState, out: seq<MidiEvent>, on0: bool, i: int)
    requires Generated(out, on0, st.noteOn, i) && 0 <= i
    ensures Generated(Transition(s, st, out, i).1, on0, Transition(s, st, out, i).0.noteOn, i)
  {
    TransitionEffect(s, st, out, i);
    var r := Transition(s, st, out, i);
    if st.cycle == AwaitingNoteOn {
      if s.beatsOn > 0 && (!s.gatingEnabled || st.gateOpen) && !st.noteOn {
        AddNoteKeeps(out, on0, st.noteOn, i, NoteOnAt(r.0.velocity, i));
      }
    } else if st.noteOn {
      AddNoteKeeps(out, on0, st.noteOn, i, NoteOffAt(st.velocity, i));
    }
  }

  lemma {:induction false} BoundariesKeepGenerated(s: PulseSettings, st: PulseState, out: seq<MidiEvent>, on0: bool, i: int)
    requires !st.Inert() && Generated(out, on0, st.noteOn, i) && 0 <= i
    ensures Generated(Boundaries(s, st, out, i).1, on0, Boundaries(s, st, out, i).0.noteOn, i)
    decreases BoundaryFuel(st, i)
  {
    if st.nextChange == st.globalSample + i {
      var t := Transition(s, st, out, i);
      TransitionKeepsGenerated(s, st, out, on0, i);
      BoundariesKeepGenerated(s, t.0, t.1, on0, i);
    }
  }

  lemma AfterSampleKeepsGenerated(s: PulseSettings, st: PulseState, incoming: seq<MidiEvent>, k: nat,
                                  out: seq<MidiEvent>, on0: bool, i: int)
    requires !st.Inert() && k <= |incoming| && 0 <= i
    requires Generated(out, on0, st.noteOn, i)
    ensures var r := AfterSample(s, st, incoming, k, out, i);
      Generated(r.2, on0, r.0.noteOn, i)
  {
    var c := Consume(s, st.gateOpen, incoming, k, i);
    var st1 := st.(gateOpen := c.0);
    var forced := s.gatingEnabled && st1.noteOn && !st1.gateOpen;
    var out1 := if forced then AddEvent(out, NoteOffAt(st1.velocity, i)) else out;
    var st2 := if forced then st1.(noteOn := false) else st1;
    if forced {
      AddNoteKeeps(out, on0, st.noteOn, i, NoteOffAt(st1.velocity, i));
    }
    BoundariesKeepGenerated(s, st2, out1, on0, i);
  }

  lemma {:induction false} SamplesFromKeepGenerated(s: PulseSettings, st: PulseState, incoming: seq<MidiEvent>,
                                                     k: nat, out: seq<MidiEvent>, on0: bool, i: int, n: int)
    requires !st.Inert() && k <= |incoming| && 0 <= i
    requires Generated(out, on0, st.noteOn, i - 1)
    ensures var r := SamplesFrom(s, st, incoming, k, out, i, n);
      Generated(r.2, on0, r.0.noteOn, if i <= n then n - 1 else i - 1)
    decreases n - i
  {
    if i < n {
      GeneratedLater(out, on0, st.noteOn, i - 1, i);
      var a := AfterSample(s, st, incoming, k, out, i);
      AfterSampleKeepsGenerated(s, st, incoming, k, out, on0, i);
      SamplesFromKeepGenerated(s, a.0, incoming, a.1, a.2, on0, i + 1, n);
    }
  }

  /**
   * Within one block the notes a pulse generates strictly alternate starting from whether
   * its note sounded before the block, end in agreement with its note flag, are in time
   * order, and all fall inside the block, at samples 0 to n - 1.
   */
  lemma GeneratedNotesAlternate(s: PulseSettings, st: PulseState, incoming: seq<MidiEvent>, n: nat)
    requires !st.Inert()
    ensures var r := AfterBlock(s, st, incoming, n);
      && Alternates(Messages(r.generated), st.noteOn)
      && SoundingAfter(Messages(r.generated), st.noteOn) == r.state.noteOn
      && SortedByPosition(r.generated)
      && (forall k :: 0 <= k < |r.generated| ==> 0 <= r.generated[k].position < n)
  {
    SamplesFromKeepGenerated(s, st, incoming, 0, [], st.noteOn, 0, n);
  }

  // ---- the schedule ----

  lemma {:induction false} BoundariesMoveAhead(s: PulseSettings, st: PulseState, out: seq<MidiEvent>, i: int)
    requires !st.Inert() && st.onDuration >= 0 && st.offDuration >= 0
    requires st.nextChange >= st.globalSample + i
    ensures Boundaries(s, st, out, i).0.nextChange > st.globalSample + i
    decreases BoundaryFuel(st, i)
  {
    if st.nextChange == st.globalSample + i {
      var t := Transition(s, st, out, i);
      BoundariesMoveAhead(s, t.0, t.1, i);
    }
  }

  lemma {:induction false} SamplesFromKeepSchedule(s: PulseSettings, st: PulseState, incoming: seq<MidiEvent>,
                                                    k: nat, out: seq<MidiEvent>, i: int, n: int)
    requires !st.Inert() && k <= |incoming| && st.onDuration >= 0 && st.offDuration >= 0
    requires st.nextChange >= st.globalSample + i
    ensures var r := SamplesFrom(s, st, incoming, k, out, i, n);
      r.0.nextChange >= st.globalSample + (if i <= n then n else i)
    decreases n - i
  {
    if i < n {
      var c := Consume(s, st.gateOpen, incoming, k, i);
      var st1 := st.(gateOpen := c.0);
      var forced := s.gatingEnabled && st1.noteOn && !st1.gateOpen;
      var out1 := if forced then AddEvent(out, NoteOffAt(st1.velocity, i)) else out;
      var st2 := if forced then st1.(noteOn := false) else st1;
      BoundariesMoveAhead(s, st2, out1, i);
      var a := AfterSample(s, st, incoming, k, out, i);
      SamplesFromKeepSchedule(s, a.0, incoming, a.1, a.2, i + 1, n);
    }
  }

  /**
   * The next boundary is never behind the sample counter: every boundary is met exactly at
   * its sample, and processBlock keeps the schedule sound from block to block.
   */
  lemma ScheduleKept(s: PulseSettings, st: PulseState, incoming: seq<MidiEvent>, n: nat)
    requires st.ScheduleValid()
    ensures AfterBlock(s, st, incoming, n).state.ScheduleValid()
  {
    if !st.Inert() {
      SamplesFromKeepSchedule(s, st, incoming, 0, [], 0, n);
    }
  }

  /**
   * prepareToPlay sets each duration to its beat count times samplesPerBeat, restarts the
   * counters, the cycle and the gate, keeps the last velocity, and leaves a sound schedule;
   * the pulse is inert exactly when no beats are set or a beat has no samples.
   */
  lemma PrepareResets(s: PulseSettings, st: PulseState, perBeat: nat)
    ensures var r := Prepared(s, st, perBeat);
      && r.onDuration == s.beatsOn * perBeat && r.offDuration == s.beatsOff * perBeat
      && r.globalSample == 0 && r.nextChange == 0 && r.cycle == AwaitingNoteOn
      && !r.noteOn && r.loopCount == 0 && r.initialCycle && !r.gateOpen
      && r.velocity == st.velocity
      && r.ScheduleValid()
      && (r.Inert() <==> (s.beatsOn == 0 && s.beatsOff == 0) || perBeat == 0)
  {
    var r := Prepared(s, st, perBeat);
    if perBeat != 0 {
      if s.beatsOn != 0 {
        MulPositive(s.beatsOn, perBeat);
      }
      if s.beatsOff != 0 {
        MulPositive(s.beatsOff, perBeat);
      }
    }
  }

  lemma MulPositive(a: nat, b: nat)
    requires a > 0 && b > 0
    ensures a * b > 0
  {
    MulAtLeast(a, b);
  }

  /** 48000 Hz at 120 bpm with one beat on and one off: 24000 samples each way. */
  lemma PrepareExample(st: PulseState)
    ensures Prepared(NewPulseSettings(120.0, 1, 1), st, SamplesPerBeat(48000.0, 120.0)).onDuration == 24000
    ensures Prepared(NewPulseSettings(120.0, 1, -3), st, SamplesPerBeat(48000.0, 120.0)).offDuration == 0
  {
    SamplesPerBeatExample();
  }

  // ---- the parent gate ----

  predicate GateRespected(s: PulseSettings, st: PulseState) {
    s.gatingEnabled && !st.gateOpen ==> !st.noteOn
  }

  lemma {:induction false} BoundariesRespectGate(s: PulseSettings, st: PulseState, out: seq<MidiEvent>, i: int)
    requires !st.Inert() && GateRespected(s, st)
    ensures GateRespected(s, Boundaries(s, st, out, i).0)
    decreases BoundaryFuel(st, i)
  {
    if st.nextChange == st.globalSample + i {
      TransitionEffect(s, st, out, i);
      var t := Transition(s, st, out, i);
      BoundariesRespectGate(s, t.0, t.1, i);
    }
  }

  /** After any sample, a gated pulse whose parent gate is closed has no note sounding. */
  lemma ClosedGateSilences(s: PulseSettings, st: PulseState, incoming: seq<MidiEvent>, k: nat,
                           out: seq<MidiEvent>, i: int)
    requires !st.Inert() && k <= |incoming|
    ensures GateRespected(s, AfterSample(s, st, incoming, k, out, i).0)
  {
    var c := Consume(s, st.gateOpen, incoming, k, i);
    var st1 := st.(gateOpen := c.0);
    var forced := s.gatingEnabled && st1.noteOn && !st1.gateOpen;
    var out1 := if forced then AddEvent(out, NoteOffAt(st1.velocity, i)) else out;
    var st2 := if forced then st1.(noteOn := false) else st1;
    BoundariesRespectGate(s, st2, out1, i);
  }

  /** A note is forced off at the very sample the parent gate closes on it. */
  lemma ForcedOffAtGateClose(s: PulseSettings, st: PulseState, incoming: seq<MidiEvent>, k: nat,
                             out: seq<MidiEvent>, i: int)
    requires !st.Inert() && k <= |incoming|
    requires s.gatingEnabled && st.noteOn && !Consume(s, st.gateOpen, incoming, k, i).0
    requires st.nextChange != st.globalSample + i
    ensures AfterSample(s, st, incoming, k, out, i).2 == AddEvent(out, NoteOffAt(st.velocity, i))
    ensures !AfterSample(s, st, incoming, k, out, i).0.noteOn
  {
  }

  // ---- MIDI thru ----

  lemma {:induction false} SamplesFromConsumesInBlock(s: PulseSettings, st: PulseState, incoming: seq<MidiEvent>,
                                                       k: nat, out: seq<MidiEvent>, i: int, n: int)
    requires !st.Inert() && k <= |incoming| && 0 <= i
    requires forall j :: 0 <= j < k ==> 0 <= incoming[j].position < i
    ensures var r := SamplesFrom(s, st, incoming, k, out, i, n);
      forall j :: 0 <= j < r.1 ==> 0 <= incoming[j].position < (if i <= n then n else i)
    decreases n - i
  {
    if i < n {
      ConsumeReadsRun(s, st.gateOpen, incoming, k, i);
      var a := AfterSample(s, st, incoming, k, out, i);
      SamplesFromConsumesInBlock(s, a.0, incoming, a.1, a.2, i + 1, n);
    }
  }

  lemma {:induction false} SamplesFromConsumesAll(s: PulseSettings, st: PulseState, incoming: seq<MidiEvent>,
                                                   k: nat, out: seq<MidiEvent>, i: int, n: int)
    requires !st.Inert() && k <= |incoming| && 0 <= i <= n
    requires SortedByPosition(incoming)
    requires k < |incoming| ==> incoming[k].position >= i
    ensures var r := SamplesFrom(s, st, incoming, k, out, i, n);
      r.1 < |incoming| ==> incoming[r.1].position >= n
    decreases n - i
  {
    if i < n {
      ConsumeReadsRun(s, st.gateOpen, incoming, k, i);
      var a := AfterSample(s, st, incoming, k, out, i);
      if a.1 < |incoming| && a.1 > k {
        assert incoming[a.1 - 1].position == i;
      }
      SamplesFromConsumesAll(s, a.0, incoming, a.1, a.2, i + 1, n);
    }
  }

  /**
   * processBlock consumes only messages inside the block and hands every other one on:
   * the output holds exactly the generated notes and the unread input.
   */
  lemma MidiThru(s: PulseSettings, st: PulseState, incoming: seq<MidiEvent>, n: nat)
    ensures var r := AfterBlock(s, st, incoming, n);
      && multiset(r.out) == multiset(r.generated) + multiset(incoming[r.consumed..])
      && (forall j :: 0 <= j < r.consumed ==> 0 <= incoming[j].position < n)
  {
    var r := AfterBlock(s, st, incoming, n);
    if st.Inert() {
      assert incoming[0..] == incoming;
    } else {
      AddEventsMultiset(r.generated, incoming[r.consumed..]);
      SamplesFromConsumesInBlock(s, st, incoming, 0, [], 0, n);
    }
  }

  /**
   * A sorted buffer whose messages all lie inside the block is entirely consumed by an
   * active pulse: nothing of it is forwarded, only the generated notes leave.
   */
  lemma InBlockMessagesConsumed(s: PulseSettings, st: PulseState, incoming: seq<MidiEvent>, n: nat)
    requires !st.Inert() && SortedByPosition(incoming)
    requires forall j :: 0 <= j < |incoming| ==> 0 <= incoming[j].position < n
    ensures AfterBlock(s, st, incoming, n).consumed == |incoming|
    ensures AfterBlock(s, st, incoming, n).out == AfterBlock(s, st, incoming, n).generated
  {
    SamplesFromConsumesAll(s, st, incoming, 0, [], 0, n);
    var r := AfterBlock(s, st, incoming, n);
    assert incoming[r.consumed..] == [];
  }

  // ---- the round-robin slot ----

  /** The slots of `count` consecutive cycles starting at cycle `loop`. */
  function Slots(loop: uint64, n: int, count: nat): (r: seq<byte>)
    requires loop + count <= U64
    ensures |r| == count
    ensures forall j :: 0 <= j < count ==> r[j] == SlotVelocity(loop + j, n)
  {
    seq<byte>(count, j requires 0 <= j < count => SlotVelocity(loop + j, n))
  }

  /** The slot repeats with period n. */
  lemma SlotPeriodic(loop: uint64, n: int)
    requires 0 < n && loop + n < U64
    ensures SlotVelocity(loop + n, n) == SlotVelocity(loop, n)
  {
    assert loop + n == (loop / n + 1) * n + loop % n;
    DivModUnique(loop + n, n, loop / n + 1, loop % n);
  }

  /** The cycle, among the n from `loop` on, whose slot is v. */
  lemma SlotComesUp(loop: uint64, n: int, v: int) returns (j: int)
    requires 0 < n < 256 && loop + n <= U64 && 1 <= v <= n
    ensures 0 <= j < n && SlotVelocity(loop + j, n) == v
  {
    var w := v - 1;
    j := if w >= loop % n then w - loop % n else w - loop % n + n;
    if w >= loop % n {
      assert loop + j == (loop / n) * n + w;
      DivModUnique(loop + j, n, loop / n, w);
    } else {
      assert loop + j == (loop / n + 1) * n + w;
      DivModUnique(loop + j, n, loop / n + 1, w);
    }
    SlotInRange(loop + j, n);
  }

  /** Over n consecutive cycles each of the slots 1..n comes up exactly once. */
  lemma RoundRobin(loop: uint64, n: int)
    requires 0 < n < 256 && loop + n <= U64
    ensures forall j1, j2 :: 0 <= j1 < j2 < n ==> Slots(loop, n, n)[j1] != Slots(loop, n, n)[j2]
    ensures forall v :: 1 <= v <= n ==> v in Slots(loop, n, n)
  {
    var sl := Slots(loop, n, n);
    forall j1, j2 | 0 <= j1 < j2 < n
      ensures sl[j1] != sl[j2]
    {
      SlotInRange(loop + j1, n);
      SlotInRange(loop + j2, n);
      ModDistinct(loop + j1, loop + j2, n);
    }
    forall v | 1 <= v <= n
      ensures v in sl
    {
      var j := SlotComesUp(loop, n, v);
      assert sl[j] == v;
    }
  }

  lemma {:induction false} MulAtLeast(a: int, n: int)
    requires a >= 1 && n > 0
    ensures a * n >= n
    decreases a
  {
    if a > 1 {
      MulAtLeast(a - 1, n);
      assert a * n == (a - 1) * n + n;
    }
  }

  /** Euclidean division has one quotient and one remainder. */
  lemma DivModUnique(x: int, n: int, q: int, r: int)
    requires 0 < n && 0 <= r < n && x == q * n + r
    ensures x / n == q && x % n == r
  {
    var q1 := x / n;
    var r1 := x % n;
    assert x == q1 * n + r1;
    assert (q1 - q) * n == r - r1;
    if q1 > q {
      MulAtLeast(q1 - q, n);
    } else if q1 < q {
      MulAtLeast(q - q1, n);
    }
  }

  lemma ModDistinct(a: int, b: int, n: int)
    requires 0 < n && 0 <= a < b < a + n
    ensures a % n != b % n
  {
    var d := b / n - a / n;
    assert a == (a / n) * n + a % n;
    assert b == (b / n) * n + b % n;
    if a % n == b % n {
      assert d * n == b - a;
      if d >= 1 {
        MulAtLeast(d, n);
      } else if d <= -1 {
        MulAtLeast(-d, n);
      }
    }
  }
}
