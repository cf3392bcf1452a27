/**
 * The graph compiler: each word of a line is read character by character; letters become
 * processor nodes, `(` and `)` open and close a group driven by the enclosing pulse, and
 * the nodes are wired with stereo audio pairs and MIDI links.
 *
 * Processors live in an arena (`procs`), indexed by node identity, so that a pulse kept on
 * the pulse stack after the graph was cleared can still be reached; `nodes` are the ones in
 * the current graph.
 */
module ParseLine {
  import opened Wrappers
  import opened Values
  import opened TextStreams
  import opened Registry
  import Oscillators
  import Pulses

  /** A graph connection: one audio channel, or the MIDI channel. */
  datatype Connection =
    | Audio(src: nat, dst: nat, channel: nat)
    | MidiLink(src: nat, dst: nat)

  /** The parser's fields together with the graph's nodes and connections. */
  datatype Graph = Graph(
    procs: seq<Processor>,
    nodes: seq<nat>,
    connections: seq<Connection>,
    audioOut: nat,
    pulsers: seq<nat>,
    depth: uint64)

  /** The locals of initialize_word: need_to_inc, orphans, effects_tail and prev_was_midi. */
  datatype WordState = WordState(needToInc: bool, orphans: seq<nat>, tail: Option<nat>, prevWasMidi: bool)

  const NewWord := WordState(true, [], None, false)

  /** The ways a word stops early: the registry's throw, or the two unchecked stack accesses. */
  datatype ParseError =
    | RegistryError(error: Error)
    | PopOnEmptyStack
    | NoPulseAtDepth

  /** The graph the constructor builds: only the audio output node. */
  const NewGraph := Graph([AudioOutput], [0], [], 0, [], 0)

  /** clear_graph: a new graph holding a fresh audio output; the depth and the stack stay. */
  function Cleared(g: Graph): (r: Graph) {
    g.(procs := g.procs + [AudioOutput], nodes := [|g.procs|], connections := [], audioOut := |g.procs|)
  }

  /** The size_t increment and decrement of paren_depth. */
  function Inc64(d: uint64): uint64 { (d + 1) % U64 }
  function Dec64(d: uint64): uint64 { (d - 1) % U64 }

  /** connect: the left and the right channel. */
  function StereoPair(src: nat, dst: nat): seq<Connection> {
    [Audio(src, dst, 0), Audio(src, dst, 1)]
  }

  function Connected(g: Graph, src: nat, dst: nat): Graph {
    g.(connections := g.connections + StereoPair(src, dst))
  }

  /** The stereo pairs from each of `srcs`, in order, into `dst`. */
  function Pairs(srcs: seq<nat>, dst: nat): (cs: seq<Connection>)
    ensures |cs| == 2 * |srcs|
  {
    if srcs == [] then [] else Pairs(srcs[..|srcs| - 1], dst) + StereoPair(srcs[|srcs| - 1], dst)
  }

  /** The flags connect_midi_direct flips on the target. */
  function DirectTarget(p: Processor): Processor {
    match p
    case Osc(k, gate) => Osc(k, gate.WithMidiTriggered(true).WithOpenOnAllChannels(true))
    case Pulse(s) => Pulse(s.WithGating(true).WithListening(false))
    case _ => p
  }

  /** connect_midi_direct: a MIDI link, and the target opened to every note of the source. */
  function MidiDirect(g: Graph, src: nat, dst: nat): Graph {
    var cs := g.connections + [MidiLink(src, dst)];
    if dst < |g.procs| then g.(connections := cs, procs := g.procs[dst := DirectTarget(g.procs[dst])])
    else g.(connections := cs)
  }

  /** The parent's settings after a claim: the count goes up by one when one is due. */
  function Claimed(s: Pulses.PulseSettings, needToInc: bool): Pulses.PulseSettings {
    if needToInc then s.IncConnections(1) else s
  }

  /**
   * connect_midi: a MIDI link from the parent pulse. An oscillator or pulse target claims a
   * slot: the parent's count is raised when `needToInc`, and the target answers to that count
   * (an oscillator through its velocity, a pulse through its listening velocity). Any other
   * target gets the link only.
   */
  function MidiClaim(g: Graph, parent: nat, dst: nat, needToInc: bool): Graph {
    var cs := g.connections + [MidiLink(parent, dst)];
    if parent < |g.procs| && g.procs[parent].Pulse? && dst < |g.procs| && parent != dst then
      var s := Claimed(g.procs[parent].settings, needToInc);
      match g.procs[dst]
      case Osc(k, gate) =>
        var gate1 := gate.WithMidiTriggered(true).WithOpenOnAllChannels(false).WithVelocity(s.numConnections);
        g.(connections := cs, procs := g.procs[parent := Pulse(s)][dst := Osc(k, gate1)])
      case Pulse(t) =>
        var t1 := t.WithGating(true).WithListeningVelocity(s.numConnections).WithListening(true);
        g.(connections := cs, procs := g.procs[parent := Pulse(s)][dst := Pulse(t1)])
      case _ => g.(connections := cs)
    else g.(connections := cs)
  }

  /** The node's place after its links: an orphan, the new effects tail, or a pushed pulse. */
  function Place(g: Graph, ws: WordState, id: nat): (r: (Graph, WordState))
    requires id < |g.procs|
  {
    match g.procs[id]
    case Osc(_, _) => (g, ws.(orphans := ws.orphans + [id], prevWasMidi := false))
    case Effect(_, _) =>
      var g1 := g.(connections := g.connections + Pairs(ws.orphans, id));
      var g2 := if ws.tail.Some? then Connected(g1, ws.tail.value, id) else g1;
      (g2, ws.(orphans := [], tail := Some(id), prevWasMidi := if ws.orphans != [] then false else ws.prevWasMidi))
    case Pulse(_) => (g.(pulsers := g.pulsers + [id]), ws.(prevWasMidi := true))
    case AudioOutput => (g, ws)
  }

  /** Linking a new node: the direct link after a pulse, then the claim on the enclosing pulse. */
  function Link(g: Graph, ws: WordState, id: nat): (r: (Graph, WordState)) {
    var g1 := if ws.prevWasMidi && g.pulsers != [] then MidiDirect(g, g.pulsers[|g.pulsers| - 1], id) else g;
    if g.depth > 0 && g.depth - 1 < |g.pulsers| then
      (MidiClaim(g1, g.pulsers[g.depth - 1], id, ws.needToInc), ws.(needToInc := false))
    else (g1, ws)
  }

  /** A letter's processor added to the graph, linked and placed. */
  function AddNode(g: Graph, ws: WordState, p: Processor): (r: (Graph, WordState)) {
    var id := |g.procs|;
    var (g1, ws1) := Link(g.(procs := g.procs + [p], nodes := g.nodes + [id]), ws, id);
    if id < |g1.procs| then Place(g1, ws1, id) else (g1, ws1)
  }

  /**
   * One character of a word. `(` and `)` move the depth (size_t arithmetic) and clear
   * prev_was_midi; `(` re-arms the claim and `)` pops the pulse stack; any other character is
   * a letter. Popping an empty stack, and reading the stack below the depth, are undefined in
   * the C++ code and are reported here as errors, before anything changes.
   */
  function CharStep(bs: map<char, Binding>, g: Graph, ws: WordState, c: char): (r: Result<(Graph, WordState), ParseError>)
    requires WellTypedBindings(bs)
  {
    if c == '(' then Ok((g.(depth := Inc64(g.depth)), ws.(prevWasMidi := false, needToInc := true)))
    else if c == ')' then
      if g.pulsers == [] then Err(PopOnEmptyStack)
      else Ok((g.(depth := Dec64(g.depth), pulsers := g.pulsers[..|g.pulsers| - 1]), ws.(prevWasMidi := false)))
    else
      match Instantiate(bs, c)
      case Err(e) => Err(RegistryError(e))
      case Ok(p) =>
        if g.depth > 0 && g.depth - 1 >= |g.pulsers| then Err(NoPulseAtDepth)
        else Ok(AddNode(g, ws, p))
  }

  /** Where a run of characters stopped: the state reached, and the error it stopped at. */
  datatype Outcome = Outcome(g: Graph, ws: WordState, err: Option<ParseError>)

  /** The characters of `w` in order, up to the first one that fails. */
  function RunChars(bs: map<char, Binding>, g: Graph, ws: WordState, w: string): (o: Outcome)
    requires WellTypedBindings(bs)
    decreases |w|
  {
    if w == [] then Outcome(g, ws, None)
    else
      match CharStep(bs, g, ws, w[0])
      case Err(e) => Outcome(g, ws, Some(e))
      case Ok((g1, ws1)) => RunChars(bs, g1, ws1, w[1..])
  }

  /** The end of a word: the effects tail, then each remaining orphan, into the output. */
  function WordEnd(g: Graph, ws: WordState): Graph {
    var g1 := if ws.tail.Some? then Connected(g, ws.tail.value, g.audioOut) else g;
    g1.(connections := g1.connections + Pairs(ws.orphans, g.audioOut))
  }

  /** initialize_word: the graph after the word, or where it stopped and why. */
  function WordResult(bs: map<char, Binding>, g: Graph, w: string): (r: (Graph, Option<ParseError>))
    requires WellTypedBindings(bs)
  {
    var o := RunChars(bs, g, NewWord, w);
    if o.err.Some? then (o.g, o.err) else (WordEnd(o.g, o.ws), None)
  }

  /** The words in order, up to the first that fails. */
  function WordsResult(bs: map<char, Binding>, g: Graph, ws: seq<string>): (r: (Graph, Option<ParseError>))
    requires WellTypedBindings(bs)
    decreases |ws|
  {
    if ws == [] then (g, None)
    else
      var (g1, e) := WordResult(bs, g, ws[0]);
      if e.Some? then (g1, e) else WordsResult(bs, g1, ws[1..])
  }

  /** parse_and_initialize: every white-space separated word of the line. */
  function LineResult(bs: map<char, Binding>, g: Graph, line: string): (r: (Graph, Option<ParseError>))
    requires WellTypedBindings(bs)
  {
    WordsResult(bs, g, Words(line))
  }

  // ---------------------------------------------------------------- invariant

  /** Every entry of the pulse stack is a pulse processor (is_midi on it never fails). */
  predicate StackHoldsPulses(g: Graph) {
    forall i :: 0 <= i < |g.pulsers| ==> g.pulsers[i] < |g.procs| && g.procs[g.pulsers[i]].Pulse?
  }

  /** prev_was_midi is set only with a pulse on the stack (midi_pulsers.back() exists). */
  predicate WordInv(g: Graph, ws: WordState) {
    ws.prevWasMidi ==> g.pulsers != []
  }

  predicate SameKind(p: Processor, q: Processor) {
    (p.Osc? <==> q.Osc?) && (p.Effect? <==> q.Effect?) && (p.Pulse? <==> q.Pulse?)
  }

  /** No processor changes kind, and none disappears from the arena. */
  predicate KindsKept(g: Graph, h: Graph) {
    |g.procs| <= |h.procs| && forall i :: 0 <= i < |g.procs| ==> SameKind(g.procs[i], h.procs[i])
  }

  lemma LinkKeepsKinds(g: Graph, ws: WordState, id: nat)
    ensures var (g1, ws1) := Link(g, ws, id);
      KindsKept(g, g1) && g1.pulsers == g.pulsers && g1.depth == g.depth && ws1.prevWasMidi == ws.prevWasMidi
      && ws1.orphans == ws.orphans && ws1.tail == ws.tail
  {
  }

  lemma PlaceKeepsInv(g: Graph, ws: WordState, id: nat)
    requires id < |g.procs| && StackHoldsPulses(g) && WordInv(g, ws)
    ensures var (g1, ws1) := Place(g, ws, id);
      StackHoldsPulses(g1) && WordInv(g1, ws1) && g1.procs == g.procs
  {
  }

  lemma AddNodeKeepsInv(g: Graph, ws: WordState, p: Processor)
    requires StackHoldsPulses(g) && WordInv(g, ws)
    ensures var (g1, ws1) := AddNode(g, ws, p);
      StackHoldsPulses(g1) && WordInv(g1, ws1) && KindsKept(g, g1)
  {
    var id := |g.procs|;
    var g0 := g.(procs := g.procs + [p], nodes := g.nodes + [id]);
    LinkKeepsKinds(g0, ws, id);
    var (g1, ws1) := Link(g0, ws, id);
    PlaceKeepsInv(g1, ws1, id);
  }

  lemma CharStepKeepsInv(bs: map<char, Binding>, g: Graph, ws: WordState, c: char)
    requires WellTypedBindings(bs) && StackHoldsPulses(g) && WordInv(g, ws)
    requires CharStep(bs, g, ws, c).Ok?
    ensures var (g1, ws1) := CharStep(bs, g, ws, c).value;
      StackHoldsPulses(g1) && WordInv(g1, ws1) && KindsKept(g, g1)
  {
    if c != '(' && c != ')' {
      AddNodeKeepsInv(g, ws, Instantiate(bs, c).value);
    }
  }

  // ---------------------------------------------------------------- the parser

  /** Parser: the graph it builds, its pulse stack and depth, and the registry it reads. */
  class Parser {
    var procs: seq<Processor>
    var nodes: seq<nat>
    var connections: seq<Connection>
    var audioOut: nat
    var midiPulsers: seq<nat>
    var parenDepth: uint64
    const reg: LetterRegistry

    function State(): Graph
      reads this
    {
      Graph(procs, nodes, connections, audioOut, midiPulsers, parenDepth)
    }

    predicate Valid()
      reads this, reg
    {
      reg.Valid() && StackHoldsPulses(State())
    }

    /** The constructor adds the audio output node. */
    constructor (regIn: LetterRegistry)
      ensures State() == NewGraph && reg == regIn
    {
      procs := [AudioOutput];
      nodes := [0];
      connections := [];
      audioOut := 0;
      midiPulsers := [];
      parenDepth := 0;
      reg := regIn;
    }

    method ClearGraph()
      modifies this
      ensures State() == Cleared(old(State()))
      ensures old(Valid()) ==> Valid()
    {
      var out := |procs|;
      procs := procs + [AudioOutput];
      nodes := [out];
      connections := [];
      audioOut := out;
    }

    method Connect(n1: nat, n2: nat)
      modifies this
      ensures State() == Connected(old(State()), n1, n2)
    {
      connections := connections + [Audio(n1, n2, 0)];
      connections := connections + [Audio(n1, n2, 1)];
    }

    /** The `for (auto orphan : orphans) connect(orphan, n)` loops. */
    method ConnectEach(srcs: seq<nat>, dst: nat)
      modifies this
      ensures State() == old(State()).(connections := old(connections) + Pairs(srcs, dst))
    {
      var i := 0;
      while i < |srcs|
        invariant 0 <= i <= |srcs|
        invariant State() == old(State()).(connections := old(connections) + Pairs(srcs[..i], dst))
      {
        assert srcs[..i + 1][..i] == srcs[..i];
        Connect(srcs[i], dst);
        i := i + 1;
      }
      assert srcs[..i] == srcs;
    }

    method ConnectMidiDirect(n1: nat, n2: nat)
      requires n2 < |procs|
      modifies this
      ensures State() == MidiDirect(old(State()), n1, n2)
    {
      connections := connections + [MidiLink(n1, n2)];
      procs := procs[n2 := DirectTarget(procs[n2])];
    }

    method ConnectMidi(n1: nat, n2: nat, needToInc: bool)
      requires n1 < |procs| && procs[n1].Pulse? && n2 < |procs| && n1 != n2
      modifies this
      ensures State() == MidiClaim(old(State()), n1, n2, needToInc)
    {
      connections := connections + [MidiLink(n1, n2)];
      match procs[n2]
      case Osc(k, gate) =>
        var m := procs[n1].settings;
        if needToInc {
          m := m.IncConnections(1);
        }
        var connection := m.numConnections;
        procs := procs[n1 := Pulse(m)];
        procs := procs[n2 := Osc(k, gate.WithMidiTriggered(true).WithOpenOnAllChannels(false).WithVelocity(connection))];
      case Pulse(t) =>
        var m := procs[n1].settings;
        if needToInc {
          m := m.IncConnections(1);
        }
        var connection := m.numConnections;
        procs := procs[n1 := Pulse(m)];
        procs := procs[n2 := Pulse(t.WithGating(true).WithListeningVelocity(connection).WithListening(true))];
      case _ =>
    }

    /** A letter's node: added, linked to the pulses before and around it, then placed. */
    method AddLetter(p: Processor, ws: WordState) returns (ws': WordState)
      requires StackHoldsPulses(State()) && WordInv(State(), ws)
      requires !(parenDepth > 0 && parenDepth - 1 >= |midiPulsers|)
      modifies this
      ensures (State(), ws') == AddNode(old(State()), ws, p)
    {
      var id := |procs|;
      procs := procs + [p];
      nodes := nodes + [id];
      ws' := LinkNode(ws, id);
      ws' := PlaceNode(ws', id);
    }

    method LinkNode(ws: WordState, id: nat) returns (ws': WordState)
      requires StackHoldsPulses(State()) && WordInv(State(), ws) && id < |procs|
      requires forall i :: 0 <= i < |midiPulsers| ==> midiPulsers[i] < id
      requires !(parenDepth > 0 && parenDepth - 1 >= |midiPulsers|)
      modifies this
      ensures (State(), ws') == Link(old(State()), ws, id)
    {
      ws' := ws;
      if ws.prevWasMidi {
        ConnectMidiDirect(midiPulsers[|midiPulsers| - 1], id);
      }
      if parenDepth > 0 {
        ConnectMidi(midiPulsers[parenDepth - 1], id, ws.needToInc);
        ws' := ws'.(needToInc := false);
      }
    }

    method PlaceNode(ws: WordState, id: nat) returns (ws': WordState)
      requires id < |procs|
      modifies this
      ensures (State(), ws') == Place(old(State()), ws, id)
    {
      match procs[id]
      case Osc(_, _) =>
        ws' := ws.(orphans := ws.orphans + [id], prevWasMidi := false);
      case Effect(_, _) =>
        ConnectEach(ws.orphans, id);
        if ws.tail.Some? {
          Connect(ws.tail.value, id);
        }
        ws' := ws.(orphans := [], tail := Some(id), prevWasMidi := if ws.orphans != [] then false else ws.prevWasMidi);
      case Pulse(_) =>
        midiPulsers := midiPulsers + [id];
        ws' := ws.(prevWasMidi := true);
      case AudioOutput =>
        ws' := ws;
    }

    /** One character of the word, as CharStep says; on an error nothing has changed. */
    method Feed(c: char, ws: WordState) returns (ws': WordState, err: Option<ParseError>)
      requires Valid() && WordInv(State(), ws)
      modifies this
      ensures Valid() && WordInv(State(), ws')
      ensures err.None? ==> CharStep(reg.bindings, old(State()), ws, c) == Ok((State(), ws'))
      ensures err.Some? ==> CharStep(reg.bindings, old(State()), ws, c) == Err(err.value) && State() == old(State())
    {
      ws', err := ws, None;
      if c == '(' {
        parenDepth := Inc64(parenDepth);
        ws' := ws.(prevWasMidi := false, needToInc := true);
      } else if c == ')' {
        if midiPulsers == [] {
          return ws, Some(PopOnEmptyStack);
        }
        parenDepth := Dec64(parenDepth);
        midiPulsers := midiPulsers[..|midiPulsers| - 1];
        ws' := ws.(prevWasMidi := false);
      } else {
        var p := reg.Initialize(c);
        if p.Err? {
          return ws, Some(RegistryError(p.error));
        }
        if parenDepth > 0 && parenDepth - 1 >= |midiPulsers| {
          return ws, Some(NoPulseAtDepth);
        }
        ws' := AddLetter(p.value, ws);
      }
      CharStepKeepsInv(reg.bindings, old(State()), ws, c);
    }

    /**
     * initialize_word: the graph and the stack after the word, as WordResult says; a
     * character that fails stops the word with everything before it kept.
     */
    method InitializeWord(w: string) returns (err: Option<ParseError>)
      requires Valid()
      modifies this
      ensures Valid()
      ensures (State(), err) == WordResult(reg.bindings, old(State()), w)
    {
      var ws := NewWord;
      var i := 0;
      while i < |w|
        invariant 0 <= i <= |w| && Valid() && WordInv(State(), ws)
        invariant RunChars(reg.bindings, old(State()), NewWord, w) == RunChars(reg.bindings, State(), ws, w[i..])
      {
        assert w[i..][1..] == w[i + 1..];
        var e;
        ws, e := Feed(w[i], ws);
        if e.Some? {
          return e;
        }
        i := i + 1;
      }
      if ws.tail.Some? {
        Connect(ws.tail.value, audioOut);
      }
      ConnectEach(ws.orphans, audioOut);
      err := None;
    }

    /** parse_and_initialize: `while (stream >> word) initialize_word(word)`. */
    method ParseAndInitialize(line: string) returns (err: Option<ParseError>)
      requires Valid()
      modifies this
      ensures Valid()
      ensures (State(), err) == LineResult(reg.bindings, old(State()), line)
    {
      var rest := line;
      while true
        invariant Valid()
        invariant LineResult(reg.bindings, old(State()), line) == WordsResult(reg.bindings, State(), Words(rest))
        decreases |rest|
      {
        var (word, r) := ReadToken(rest);
        if word == [] {
          return None;
        }
        assert Words(rest) == [word] + Words(r);
        assert ([word] + Words(r))[1..] == Words(r);
        err := InitializeWord(word);
        if err.Some? {
          return;
        }
        rest := r;
      }
    }
  }
}
