/** MIDI messages and juce::MidiBuffer, reduced to what the pulse and the oscillators read. */
module Midi {
  import opened Wrappers

  datatype MessageKind = NoteOnMsg | NoteOffMsg | AllNotesOffMsg | AllSoundOffMsg | OtherMsg

  /**
   * A message as the core sees it: its kind and its velocity byte. The generated notes'
   * channel (1) and note number (60) are never read by any receiver, so they are not kept.
   */
  datatype MidiMessage = MidiMessage(kind: MessageKind, velocity: byte)

  /** MidiMessage::isNoteOn(): a note-on with velocity 0 does not count. */
  predicate IsNoteOn(m: MidiMessage) {
    m.kind == NoteOnMsg && m.velocity != 0
  }

  /** MidiMessage::isNoteOff(): a note-on with velocity 0 counts as a note-off. */
  predicate IsNoteOff(m: MidiMessage) {
    m.kind == NoteOffMsg || (m.kind == NoteOnMsg && m.velocity == 0)
  }

  predicate IsAllNotesOrSoundOff(m: MidiMessage) {
    m.kind == AllNotesOffMsg || m.kind == AllSoundOffMsg
  }

  /**
   * No message is both a note-on and a note-off; a note-on message is exactly one of the
   * two, the note-off when its velocity is 0; other kinds are neither.
   */
  lemma NoteOnOffRule(m: MidiMessage)
    ensures !(IsNoteOn(m) && IsNoteOff(m))
    ensures m.kind == NoteOnMsg ==> (IsNoteOn(m) <==> m.velocity != 0) && (IsNoteOff(m) <==> m.velocity == 0)
    ensures m.kind != NoteOnMsg && m.kind != NoteOffMsg ==> !IsNoteOn(m) && !IsNoteOff(m)
  {
  }

  /**
   * The messages JUCE builds: MidiMessage::getVelocity() is 0 for anything but a note, so
   * only notes carry a nonzero velocity.
   */
  predicate WellFormed(m: MidiMessage) {
    m.kind == NoteOnMsg || m.kind == NoteOffMsg || m.velocity == 0
  }

  /** A well-formed message that is not a note reaches only a receiver awaiting velocity 0. */
  lemma NonNoteVelocity(m: MidiMessage, v: byte)
    requires WellFormed(m) && !IsNoteOn(m) && !IsNoteOff(m)
    ensures m.velocity == v <==> v == 0
  {
  }

  /** An entry of a juce::MidiBuffer: a message at a sample position within the block. */
  datatype MidiEvent = MidiEvent(message: MidiMessage, position: int)

  /** The messages of a buffer, in buffer order. */
  function Messages(events: seq<MidiEvent>): (ms: seq<MidiMessage>)
    ensures |ms| == |events|
    ensures forall k :: 0 <= k < |events| ==> ms[k] == events[k].message
  {
    if events == [] then [] else [events[0].message] + Messages(events[1..])
  }

  predicate SortedByPosition(buf: seq<MidiEvent>) {
    forall i, j :: 0 <= i < j < |buf| ==> buf[i].position <= buf[j].position
  }

  /**
   * juce::MidiBuffer::addEvent: the event is placed after every event whose position is
   * not later than its own.
   */
  function AddEvent(buf: seq<MidiEvent>, e: MidiEvent): (r: seq<MidiEvent>)
    ensures |r| == |buf| + 1
  {
    if buf == [] then [e]
    else if buf[|buf| - 1].position <= e.position then buf + [e]
    else AddEvent(buf[..|buf| - 1], e) + [buf[|buf| - 1]]
  }

  /** addEvent loses nothing and invents nothing. */
  lemma {:induction false} AddEventMultiset(buf: seq<MidiEvent>, e: MidiEvent)
    ensures multiset(AddEvent(buf, e)) == multiset(buf) + multiset{e}
  {
    if buf != [] && buf[|buf| - 1].position > e.position {
      assert buf == buf[..|buf| - 1] + [buf[|buf| - 1]];
      AddEventMultiset(buf[..|buf| - 1], e);
    }
  }

  lemma {:induction false} AddEventKeepsOrder(buf: seq<MidiEvent>, e: MidiEvent)
    requires SortedByPosition(buf)
    ensures SortedByPosition(AddEvent(buf, e))
    ensures forall x :: x in AddEvent(buf, e) ==> x in buf || x == e
  {
    if buf != [] && buf[|buf| - 1].position > e.position {
      var front := buf[..|buf| - 1];
      var last := buf[|buf| - 1];
      AddEventKeepsOrder(front, e);
      var r := AddEvent(front, e);
      forall x | x in r
        ensures x.position <= last.position
      {
        if x != e {
          var i :| 0 <= i < |front| && front[i] == x;
          assert buf[i] == x;
        }
      }
    }
  }

  /** An event that is not earlier than every event already there goes at the end. */
  lemma AddEventAtEnd(buf: seq<MidiEvent>, e: MidiEvent)
    requires forall k :: 0 <= k < |buf| ==> buf[k].position <= e.position
    ensures AddEvent(buf, e) == buf + [e]
  {
  }

  /** Adding the events of `es` one after the other, as a loop of addEvent calls does. */
  function AddEvents(buf: seq<MidiEvent>, es: seq<MidiEvent>): (r: seq<MidiEvent>)
    ensures |r| == |buf| + |es|
    decreases |es|
  {
    if es == [] then buf else AddEvents(AddEvent(buf, es[0]), es[1..])
  }

  lemma {:induction false} AddEventsMultiset(buf: seq<MidiEvent>, es: seq<MidiEvent>)
    ensures multiset(AddEvents(buf, es)) == multiset(buf) + multiset(es)
    decreases |es|
  {
    if es != [] {
      assert es == [es[0]] + es[1..];
      AddEventMultiset(buf, es[0]);
      AddEventsMultiset(AddEvent(buf, es[0]), es[1..]);
    }
  }

  lemma {:induction false} AddEventsKeepsOrder(buf: seq<MidiEvent>, es: seq<MidiEvent>)
    requires SortedByPosition(buf)
    ensures SortedByPosition(AddEvents(buf, es))
    decreases |es|
  {
    if es != [] {
      AddEventKeepsOrder(buf, es[0]);
      AddEventsKeepsOrder(AddEvent(buf, es[0]), es[1..]);
    }
  }
}
