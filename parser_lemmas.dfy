/**
 * What the graph compiler guarantees: one node per letter, no audio into or out of a pulse,
 * the slot a letter claims on its enclosing pulse, and how siblings share that slot.
 */
module ParseLineProperties {
  import opened Wrappers
  import opened Values
  import opened Registry
  import opened ParseLine
  import Oscillators
  import Pulses
  import Midi

  // ---------------------------------------------------------------- one node per letter

  /** The characters of `w` that are letters, not parentheses. */
  function LetterCount(w: string): nat {
    if w == [] then 0 else (if w[0] == '(' || w[0] == ')' then 0 else 1) + LetterCount(w[1..])
  }

  /** The kind a processor was created as. */
  function KindOf(p: Processor): Option<ProcKind> {
    match p
    case Osc(k, _) => Some(k)
    case Effect(k, _) => Some(k)
    case Pulse(_) => Some(MidiPulse)
    case AudioOutput => None
  }

  lemma LinkKeepsNodes(g: Graph, ws: WordState, id: nat)
    ensures var (g1, _) := Link(g, ws, id);
      g1.nodes == g.nodes && |g1.procs| == |g.procs| && g1.audioOut == g.audioOut
      && (id < |g.procs| ==> KindOf(g1.procs[id]) == KindOf(g.procs[id]))
  {
  }

  /** Adding a processor appends one node, the next in the arena, holding that processor's kind. */
  lemma AddNodeAddsOneNode(g: Graph, ws: WordState, p: Processor)
    ensures var (g1, _) := AddNode(g, ws, p);
      && g1.audioOut == g.audioOut && g1.nodes == g.nodes + [|g.procs|]
      && |g1.procs| == |g.procs| + 1 && KindOf(g1.procs[|g.procs|]) == KindOf(p)
  {
    var id := |g.procs|;
    var g0 := g.(procs := g.procs + [p], nodes := g.nodes + [id]);
    LinkKeepsNodes(g0, ws, id);
    var (g1, ws1) := Link(g0, ws, id);
    PlaceKeepsProcs(g1, ws1, id);
  }

  /**
   * A letter adds exactly one node, the next in the arena, holding a processor of the
   * letter's kind; parentheses add none.
   */
  lemma CharStepAddsOneNode(bs: map<char, Binding>, g: Graph, ws: WordState, c: char)
    requires WellTypedBindings(bs) && CharStep(bs, g, ws, c).Ok?
    ensures var (g1, _) := CharStep(bs, g, ws, c).value;
      && g1.audioOut == g.audioOut
      && (c == '(' || c == ')' ==> g1.nodes == g.nodes && g1.procs == g.procs)
      && (c != '(' && c != ')' ==>
            g1.nodes == g.nodes + [|g.procs|] && |g1.procs| == |g.procs| + 1
            && KindOf(g1.procs[|g.procs|]) == Some(bs[c].kind))
  {
    if c != '(' && c != ')' {
      CharStepOfLetter(bs, g, ws, c);
      AddNodeAddsOneNode(g, ws, Create(bs[c]));
    }
  }

  lemma {:induction false} RunCharsCountsNodes(bs: map<char, Binding>, g: Graph, ws: WordState, w: string)
    requires WellTypedBindings(bs)
    ensures var o := RunChars(bs, g, ws, w);
      o.err.None? ==> |o.g.nodes| == |g.nodes| + LetterCount(w) && o.g.audioOut == g.audioOut
    decreases |w|
  {
    if w != [] {
      var r := CharStep(bs, g, ws, w[0]);
      if r.Ok? {
        CharStepAddsOneNode(bs, g, ws, w[0]);
        RunCharsCountsNodes(bs, r.value.0, r.value.1, w[1..]);
      }
    }
  }

  /** A word that goes through adds one graph node per letter in it. */
  lemma WordAddsOneNodePerLetter(bs: map<char, Binding>, g: Graph, w: string)
    requires WellTypedBindings(bs) && WordResult(bs, g, w).1.None?
    ensures |WordResult(bs, g, w).0.nodes| == |g.nodes| + LetterCount(w)
  {
    RunCharsCountsNodes(bs, g, NewWord, w);
  }

  // ---------------------------------------------------------------- no audio through pulses

  /** A node that may carry audio: it exists and is not a pulse. */
  predicate AudioEnd(g: Graph, n: nat) {
    n < |g.procs| && !g.procs[n].Pulse?
  }

  /** Every audio connection runs between nodes that are not pulses. */
  predicate AudioSafe(g: Graph) {
    forall i :: 0 <= i < |g.connections| && g.connections[i].Audio? ==>
      AudioEnd(g, g.connections[i].src) && AudioEnd(g, g.connections[i].dst)
  }

  /** AudioSafe, and every node that will still be connected (orphans, tail, output) carries audio. */
  predicate AudioInv(g: Graph, ws: WordState) {
    && AudioSafe(g) && AudioEnd(g, g.audioOut)
    && (forall i :: 0 <= i < |ws.orphans| ==> AudioEnd(g, ws.orphans[i]))
    && (ws.tail.Some? ==> AudioEnd(g, ws.tail.value))
  }

  /** Only MIDI links were appended. */
  predicate GrowsByMidi(g: Graph, h: Graph) {
    && |g.connections| <= |h.connections| && h.connections[..|g.connections|] == g.connections
    && forall i :: |g.connections| <= i < |h.connections| ==> h.connections[i].MidiLink?
  }

  lemma {:induction false} PairsShape(srcs: seq<nat>, dst: nat)
    ensures forall i :: 0 <= i < |Pairs(srcs, dst)| ==>
      Pairs(srcs, dst)[i].Audio? && Pairs(srcs, dst)[i].dst == dst && Pairs(srcs, dst)[i].src in srcs
  {
    if srcs != [] {
      var init := srcs[..|srcs| - 1];
      PairsShape(init, dst);
      assert forall n :: n in init ==> n in srcs;
    }
  }

  /** Audio pairs from audio ends into an audio end keep the graph AudioSafe. */
  lemma AddPairsSafe(g: Graph, srcs: seq<nat>, dst: nat)
    requires AudioSafe(g) && AudioEnd(g, dst)
    requires forall i :: 0 <= i < |srcs| ==> AudioEnd(g, srcs[i])
    ensures AudioSafe(g.(connections := g.connections + Pairs(srcs, dst)))
  {
    PairsShape(srcs, dst);
  }

  lemma LinkGrowsByMidi(g: Graph, ws: WordState, id: nat)
    ensures GrowsByMidi(g, Link(g, ws, id).0)
  {
    var g1 := if ws.prevWasMidi && g.pulsers != [] then MidiDirect(g, g.pulsers[|g.pulsers| - 1], id) else g;
    assert GrowsByMidi(g, g1);
  }

  lemma MidiGrowthKeepsAudioInv(g: Graph, h: Graph, ws: WordState)
    requires AudioInv(g, ws) && KindsKept(g, h) && GrowsByMidi(g, h) && h.audioOut == g.audioOut
    ensures AudioInv(h, ws)
  {
    forall i | 0 <= i < |h.connections| && h.connections[i].Audio?
      ensures AudioEnd(h, h.connections[i].src) && AudioEnd(h, h.connections[i].dst)
    {
      assert h.connections[i] == g.connections[i];
    }
  }

  lemma PlaceKeepsAudioInv(g: Graph, ws: WordState, id: nat)
    requires id < |g.procs| && AudioInv(g, ws)
    ensures AudioInv(Place(g, ws, id).0, Place(g, ws, id).1)
  {
    match g.procs[id]
    case Effect(_, _) =>
      var g1 := g.(connections := g.connections + Pairs(ws.orphans, id));
      AddPairsSafe(g, ws.orphans, id);
      if ws.tail.Some? {
        assert Pairs([ws.tail.value], id) == StereoPair(ws.tail.value, id);
        AddPairsSafe(g1, [ws.tail.value], id);
      }
    case _ =>
  }

  lemma AddNodeKeepsAudioInv(g: Graph, ws: WordState, p: Processor)
    requires AudioInv(g, ws)
    ensures AudioInv(AddNode(g, ws, p).0, AddNode(g, ws, p).1)
  {
    var id := |g.procs|;
    var g0 := g.(procs := g.procs + [p], nodes := g.nodes + [id]);
    assert KindsKept(g, g0);
    MidiGrowthKeepsAudioInv(g, g0, ws);
    var (g1, ws1) := Link(g0, ws, id);
    LinkKeepsKinds(g0, ws, id);
    LinkGrowsByMidi(g0, ws, id);
    LinkKeepsNodes(g0, ws, id);
    MidiGrowthKeepsAudioInv(g0, g1, ws);
    assert AudioInv(g1, ws1);
    PlaceKeepsAudioInv(g1, ws1, id);
  }

  lemma CharStepKeepsAudioInv(bs: map<char, Binding>, g: Graph, ws: WordState, c: char)
    requires WellTypedBindings(bs) && AudioInv(g, ws) && CharStep(bs, g, ws, c).Ok?
    ensures AudioInv(CharStep(bs, g, ws, c).value.0, CharStep(bs, g, ws, c).value.1)
  {
    if c != '(' && c != ')' {
      AddNodeKeepsAudioInv(g, ws, Instantiate(bs, c).value);
    }
  }

  lemma {:induction false} RunCharsKeepsAudioInv(bs: map<char, Binding>, g: Graph, ws: WordState, w: string)
    requires WellTypedBindings(bs) && AudioInv(g, ws)
    ensures AudioInv(RunChars(bs, g, ws, w).g, RunChars(bs, g, ws, w).ws)
    decreases |w|
  {
    if w != [] {
      var r := CharStep(bs, g, ws, w[0]);
      if r.Ok? {
        CharStepKeepsAudioInv(bs, g, ws, w[0]);
        RunCharsKeepsAudioInv(bs, r.value.0, r.value.1, w[1..]);
      }
    }
  }

  lemma WordEndSafe(g: Graph, ws: WordState)
    requires AudioInv(g, ws)
    ensures AudioSafe(WordEnd(g, ws)) && WordEnd(g, ws).procs == g.procs && WordEnd(g, ws).audioOut == g.audioOut
  {
    var g1 := if ws.tail.Some? then Connected(g, ws.tail.value, g.audioOut) else g;
    if ws.tail.Some? {
      assert Pairs([ws.tail.value], g.audioOut) == StereoPair(ws.tail.value, g.audioOut);
      AddPairsSafe(g, [ws.tail.value], g.audioOut);
    }
    AddPairsSafe(g1, ws.orphans, g.audioOut);
  }

  lemma WordKeepsAudioSafe(bs: map<char, Binding>, g: Graph, w: string)
    requires WellTypedBindings(bs) && AudioSafe(g) && AudioEnd(g, g.audioOut)
    ensures var g1 := WordResult(bs, g, w).0; AudioSafe(g1) && AudioEnd(g1, g1.audioOut)
  {
    RunCharsKeepsAudioInv(bs, g, NewWord, w);
    var o := RunChars(bs, g, NewWord, w);
    WordEndSafe(o.g, o.ws);
  }

  lemma {:induction false} WordsKeepAudioSafe(bs: map<char, Binding>, g: Graph, ws: seq<string>)
    requires WellTypedBindings(bs) && AudioSafe(g) && AudioEnd(g, g.audioOut)
    ensures var g1 := WordsResult(bs, g, ws).0; AudioSafe(g1) && AudioEnd(g1, g1.audioOut)
    decreases |ws|
  {
    if ws != [] {
      WordKeepsAudioSafe(bs, g, ws[0]);
      var (g1, e) := WordResult(bs, g, ws[0]);
      if e.None? {
        WordsKeepAudioSafe(bs, g1, ws[1..]);
      }
    }
  }

  /**
   * Pulse nodes never get audio connections: starting from a graph where that holds (the
   * constructor's, or a cleared one), it holds after any line, whatever the line's errors.
   */
  lemma PulsesGetNoAudio(bs: map<char, Binding>, g: Graph, line: string)
    requires WellTypedBindings(bs) && AudioSafe(g) && AudioEnd(g, g.audioOut)
    ensures var g1 := LineResult(bs, g, line).0; AudioSafe(g1) && AudioEnd(g1, g1.audioOut)
  {
    WordsKeepAudioSafe(bs, g, TextStreams.Words(line));
  }

  lemma FreshGraphsAreAudioSafe(g: Graph)
    ensures AudioSafe(NewGraph) && AudioEnd(NewGraph, NewGraph.audioOut)
    ensures AudioSafe(Cleared(g)) && AudioEnd(Cleared(g), Cleared(g).audioOut)
  {
  }

  // ---------------------------------------------------------------- slots

  /** Whether a node of this kind claims a slot on its enclosing pulse (connect_midi's two branches). */
  predicate Claims(k: ProcKind) {
    IsOscKind(k) || k == MidiPulse
  }

  /** After a claim on `parent` worth count `n`, the child at `id` answers to slot `n`. */
  predicate AnswersTo(g: Graph, id: nat, k: ProcKind, n: int) {
    id < |g.procs|
    && (IsOscKind(k) ==> g.procs[id].Osc? && g.procs[id].gate.midiTriggered
                         && !g.procs[id].gate.openOnAllChannels && g.procs[id].gate.velocity == ToByte(n))
    && (k == MidiPulse ==> g.procs[id].Pulse? && g.procs[id].settings.gatingEnabled
                           && g.procs[id].settings.listening && g.procs[id].settings.listeningVelocity == ToByte(n))
  }

  /** The count `parent` holds in `g`, 0 when it is not a pulse. */
  function CountOf(g: Graph, parent: nat): int {
    if parent < |g.procs| && g.procs[parent].Pulse? then g.procs[parent].settings.numConnections else 0
  }

  /** The processor's variant is the one Binding::create makes for kind `k`. */
  predicate MadeAs(p: Processor, k: ProcKind) {
    (IsOscKind(k) <==> p.Osc?) && (IsEffectKind(k) <==> p.Effect?) && (k == MidiPulse <==> p.Pulse?)
  }

  lemma MidiClaimEffect(g: Graph, parent: nat, id: nat, needToInc: bool, k: ProcKind)
    requires parent < id && id < |g.procs| && g.procs[parent].Pulse? && MadeAs(g.procs[id], k)
    ensures var h := MidiClaim(g, parent, id, needToInc);
      var n := CountOf(g, parent) + (if needToInc && Claims(k) then 1 else 0);
      && |h.procs| == |g.procs| && h.procs[parent].Pulse? && CountOf(h, parent) == n
      && (Claims(k) ==> AnswersTo(h, id, k, n))
      && (forall j :: 0 <= j < |g.procs| && j != parent && j != id ==> h.procs[j] == g.procs[j])
      && h.connections == g.connections + [MidiLink(parent, id)]
      && h.pulsers == g.pulsers && h.depth == g.depth
  {
    var s := Claimed(g.procs[parent].settings, needToInc);
    if Claims(k) {
      assert s.numConnections == CountOf(g, parent) + (if needToInc then 1 else 0);
    }
  }

  /** The link step of a letter at depth > 0: the direct link does not touch the parent. */
  lemma LinkClaims(g: Graph, ws: WordState, id: nat, k: ProcKind)
    requires StackHoldsPulses(g) && id < |g.procs| && MadeAs(g.procs[id], k)
    requires 0 < g.depth && g.depth - 1 < |g.pulsers| && g.pulsers[g.depth - 1] < id
    ensures var (g1, ws1) := Link(g, ws, id);
      var parent := g.pulsers[g.depth - 1];
      var n := CountOf(g, parent) + (if ws.needToInc && Claims(k) then 1 else 0);
      && !ws1.needToInc && ws1.prevWasMidi == ws.prevWasMidi && ws1.orphans == ws.orphans && ws1.tail == ws.tail
      && g1.depth == g.depth && g1.pulsers == g.pulsers && |g1.procs| == |g.procs|
      && CountOf(g1, parent) == n && MadeAs(g1.procs[id], k)
      && (Claims(k) ==> AnswersTo(g1, id, k, n))
      && g1.connections[|g1.connections| - 1] == MidiLink(parent, id)
      && (forall j :: 0 <= j < id && j != parent ==> g1.procs[j] == g.procs[j])
  {
    var parent := g.pulsers[g.depth - 1];
    var gd := if ws.prevWasMidi && g.pulsers != [] then MidiDirect(g, g.pulsers[|g.pulsers| - 1], id) else g;
    assert MadeAs(gd.procs[id], k) && gd.procs[parent] == g.procs[parent];
    MidiClaimEffect(gd, parent, id, ws.needToInc, k);
  }

  /** Placing a node changes no processor and keeps the connections made so far. */
  lemma PlaceKeepsProcs(g: Graph, ws: WordState, id: nat)
    requires id < |g.procs|
    ensures var (g1, ws1) := Place(g, ws, id);
      && g1.procs == g.procs && g1.nodes == g.nodes && g1.audioOut == g.audioOut
      && g1.depth == g.depth && ws1.needToInc == ws.needToInc
      && |g.connections| <= |g1.connections| && g1.connections[..|g.connections|] == g.connections
      && |g.pulsers| <= |g1.pulsers| && g1.pulsers[..|g.pulsers|] == g.pulsers
  {
  }

  /** A bound letter whose stack access is in range is added as its binding's processor. */
  lemma CharStepOfLetter(bs: map<char, Binding>, g: Graph, ws: WordState, c: char)
    requires WellTypedBindings(bs) && c != '(' && c != ')' && c in bs
    requires !(g.depth > 0 && g.depth - 1 >= |g.pulsers|)
    ensures CharStep(bs, g, ws, c) == Ok(AddNode(g, ws, Create(bs[c])))
    ensures MadeAs(Create(bs[c]), bs[c].kind)
  {
  }

  lemma AddNodeClaims(g: Graph, ws: WordState, p: Processor, k: ProcKind)
    requires StackHoldsPulses(g) && MadeAs(p, k) && 0 < g.depth && g.depth - 1 < |g.pulsers|
    ensures var (g1, ws1) := AddNode(g, ws, p);
      var parent := g.pulsers[g.depth - 1];
      var n := CountOf(g, parent) + (if ws.needToInc && Claims(k) then 1 else 0);
      && !ws1.needToInc && g1.depth == g.depth
      && CountOf(g1, parent) == n
      && (Claims(k) ==> AnswersTo(g1, |g.procs|, k, n))
      && MidiLink(parent, |g.procs|) in g1.connections
      && g1.pulsers[..|g.pulsers|] == g.pulsers
      && (forall j :: 0 <= j < |g.procs| && j != parent ==> g1.procs[j] == g.procs[j])
      && (IsOscKind(k) ==> g1.pulsers == g.pulsers && !ws1.prevWasMidi)
  {
    var id := |g.procs|;
    var parent := g.pulsers[g.depth - 1];
    var g0 := g.(procs := g.procs + [p], nodes := g.nodes + [id]);
    assert CountOf(g0, parent) == CountOf(g, parent);
    LinkClaims(g0, ws, id, k);
    var (g1, ws1) := Link(g0, ws, id);
    PlaceKeepsProcs(g1, ws1, id);
    var (g2, ws2) := Place(g1, ws1, id);
    assert g2.connections[|g1.connections| - 1] == MidiLink(parent, id);
  }

  /**
   * A letter inside a group claims a slot on the enclosing pulse `pulsers[depth-1]`: an
   * oscillator or pulse raises its count when a claim is due and answers to the count
   * reached; an effect answers to nothing and leaves the count alone. Either way the claim
   * is used up, so the next letter in the same group reuses the count.
   */
  lemma LetterClaimsSlot(bs: map<char, Binding>, g: Graph, ws: WordState, c: char)
    requires WellTypedBindings(bs) && StackHoldsPulses(g)
    requires c != '(' && c != ')' && c in bs && 0 < g.depth && g.depth - 1 < |g.pulsers|
    ensures CharStep(bs, g, ws, c).Ok?
    ensures var (g1, ws1) := CharStep(bs, g, ws, c).value;
      var parent := g.pulsers[g.depth - 1];
      var k := bs[c].kind;
      var n := CountOf(g, parent) + (if ws.needToInc && Claims(k) then 1 else 0);
      && !ws1.needToInc && g1.depth == g.depth
      && CountOf(g1, parent) == n
      && (Claims(k) ==> AnswersTo(g1, |g.procs|, k, n))
      && MidiLink(parent, |g.procs|) in g1.connections
      && g1.pulsers[..|g.pulsers|] == g.pulsers
      && (forall j :: 0 <= j < |g.procs| && j != parent ==> g1.procs[j] == g.procs[j])
      && (IsOscKind(k) ==> g1.pulsers == g.pulsers && !ws1.prevWasMidi)
  {
    CharStepOfLetter(bs, g, ws, c);
    AddNodeClaims(g, ws, Create(bs[c]), bs[c].kind);
  }

  /**
   * Two oscillator letters in a row inside one group share a slot: the first claims it (when
   * a claim is due), the second reuses it, and both answer to the same count.
   */
  lemma SiblingsShareSlot(bs: map<char, Binding>, g: Graph, ws: WordState, a: char, b: char)
    requires WellTypedBindings(bs) && StackHoldsPulses(g) && WordInv(g, ws)
    requires a != '(' && a != ')' && a in bs && IsOscKind(bs[a].kind)
    requires b != '(' && b != ')' && b in bs && IsOscKind(bs[b].kind)
    requires 0 < g.depth && g.depth - 1 < |g.pulsers|
    ensures CharStep(bs, g, ws, a).Ok?
    ensures var (g1, ws1) := CharStep(bs, g, ws, a).value; CharStep(bs, g1, ws1, b).Ok?
    ensures var (g1, ws1) := CharStep(bs, g, ws, a).value;
      var (g2, _) := CharStep(bs, g1, ws1, b).value;
      var parent := g.pulsers[g.depth - 1];
      var n := CountOf(g, parent) + (if ws.needToInc then 1 else 0);
      && CountOf(g2, parent) == n
      && AnswersTo(g2, |g.procs|, bs[a].kind, n) && AnswersTo(g2, |g.procs| + 1, bs[b].kind, n)
  {
    LetterClaimsSlot(bs, g, ws, a);
    var (g1, ws1) := CharStep(bs, g, ws, a).value;
    CharStepKeepsInv(bs, g, ws, a);
    CharStepAddsOneNode(bs, g, ws, a);
    LetterClaimsSlot(bs, g1, ws1, b);
    var (g2, ws2) := CharStep(bs, g1, ws1, b).value;
    assert g2.procs[|g.procs|] == g1.procs[|g.procs|];
  }

  // ---------------------------------------------------------------- two example lines

  /** A letter at the head of a run adds its binding's processor, and the run goes on from there. */
  lemma LetterRun(bs: map<char, Binding>, g: Graph, ws: WordState, c: char, rest: string)
    requires WellTypedBindings(bs) && c != '(' && c != ')' && c in bs
    requires !(g.depth > 0 && g.depth - 1 >= |g.pulsers|)
    ensures RunChars(bs, g, ws, [c] + rest)
         == RunChars(bs, AddNode(g, ws, Create(bs[c])).0, AddNode(g, ws, Create(bs[c])).1, rest)
  {
    CharStepOfLetter(bs, g, ws, c);
    assert ([c] + rest)[0] == c && ([c] + rest)[1..] == rest;
  }

  /** `(` at the head of a run. */
  lemma OpenRun(bs: map<char, Binding>, g: Graph, ws: WordState, rest: string)
    requires WellTypedBindings(bs)
    ensures RunChars(bs, g, ws, ['('] + rest)
         == RunChars(bs, g.(depth := Inc64(g.depth)), ws.(prevWasMidi := false, needToInc := true), rest)
  {
    assert (['('] + rest)[0] == '(' && (['('] + rest)[1..] == rest;
  }

  /** `)` at the head of a run, with a pulse on the stack. */
  lemma CloseRun(bs: map<char, Binding>, g: Graph, ws: WordState, rest: string)
    requires WellTypedBindings(bs) && g.pulsers != []
    ensures RunChars(bs, g, ws, [')'] + rest)
         == RunChars(bs, g.(depth := Dec64(g.depth), pulsers := g.pulsers[..|g.pulsers| - 1]), ws.(prevWasMidi := false), rest)
  {
    assert ([')'] + rest)[0] == ')' && ([')'] + rest)[1..] == rest;
  }

  /** At the top level, with no pulse just before, a node is only placed: nothing links to it. */
  lemma TopLevelAdd(g: Graph, ws: WordState, p: Processor)
    requires g.depth == 0 && !ws.prevWasMidi
    ensures var (g1, ws1) := AddNode(g, ws, p);
      && g1.procs == g.procs + [p] && g1.depth == 0 && ws1.needToInc == ws.needToInc
      && (p.Pulse? ==> g1.pulsers == g.pulsers + [|g.procs|])
  {
    var id := |g.procs|;
    var g0 := g.(procs := g.procs + [p], nodes := g.nodes + [id]);
    assert Link(g0, ws, id) == (g0, ws);
    PlaceKeepsProcs(g0, ws, id);
  }

  /** x at the top level is pushed as a fresh pulse with no slots claimed. */
  lemma PulsePushed(bs: map<char, Binding>, g: Graph, x: char)
    requires WellTypedBindings(bs) && StackHoldsPulses(g) && g.depth == 0 && g.pulsers == []
    requires x in bs && bs[x].kind == MidiPulse
    ensures var g1 := AddNode(g, NewWord, Create(bs[x])).0;
      && g1.pulsers == [|g.procs|] && |g1.procs| == |g.procs| + 1
      && StackHoldsPulses(g1) && CountOf(g1, |g.procs|) == 0
  {
    TopLevelAdd(g, NewWord, Create(bs[x]));
    AddNodeKeepsInv(g, NewWord, Create(bs[x]));
  }

  /** "x(" at the top level: x is pushed with no slots claimed, and the run goes on in the open group. */
  lemma PulseOpenStep(bs: map<char, Binding>, g: Graph, x: char, rest: string) returns (g1: Graph, ws1: WordState)
    requires WellTypedBindings(bs) && StackHoldsPulses(g) && g.depth == 0 && g.pulsers == []
    requires x != '(' && x != ')' && x in bs && bs[x].kind == MidiPulse
    ensures RunChars(bs, g, NewWord, [x, '('] + rest) == RunChars(bs, g1, ws1, rest)
    ensures g1.pulsers == [|g.procs|] && g1.depth == 1 && |g1.procs| == |g.procs| + 1
    ensures StackHoldsPulses(g1) && WordInv(g1, ws1) && ws1.needToInc && CountOf(g1, |g.procs|) == 0
  {
    var (h, hs) := AddNode(g, NewWord, Create(bs[x]));
    PulsePushed(bs, g, x);
    TopLevelAdd(g, NewWord, Create(bs[x]));
    assert [x, '('] + rest == [x] + (['('] + rest);
    LetterRun(bs, g, NewWord, x, ['('] + rest);
    OpenRun(bs, h, hs, rest);
    g1, ws1 := h.(depth := Inc64(h.depth)), hs.(prevWasMidi := false, needToInc := true);
  }

  /** One oscillator letter in an open group: it claims a slot when one is due and answers to the count. */
  lemma ClaimStep(bs: map<char, Binding>, g: Graph, ws: WordState, a: char, rest: string) returns (g1: Graph, ws1: WordState)
    requires WellTypedBindings(bs) && StackHoldsPulses(g) && WordInv(g, ws)
    requires a != '(' && a != ')' && a in bs && IsOscKind(bs[a].kind)
    requires 0 < g.depth && g.depth - 1 < |g.pulsers|
    ensures var parent := g.pulsers[g.depth - 1];
      var n := CountOf(g, parent) + (if ws.needToInc then 1 else 0);
      && RunChars(bs, g, ws, [a] + rest) == RunChars(bs, g1, ws1, rest)
      && g1.pulsers == g.pulsers && g1.depth == g.depth && !ws1.needToInc
      && StackHoldsPulses(g1) && WordInv(g1, ws1)
      && |g1.procs| == |g.procs| + 1 && CountOf(g1, parent) == n && AnswersTo(g1, |g.procs|, bs[a].kind, n)
      && (forall j :: 0 <= j < |g.procs| && j != parent ==> g1.procs[j] == g.procs[j])
  {
    var p := Create(bs[a]);
    LetterRun(bs, g, ws, a, rest);
    AddNodeClaims(g, ws, p, bs[a].kind);
    AddNodeKeepsInv(g, ws, p);
    AddNodeAddsOneNode(g, ws, p);
    g1, ws1 := AddNode(g, ws, p).0, AddNode(g, ws, p).1;
  }

  /** `)` with a pulse on the stack: it pops the stack and changes no processor. */
  lemma CloseStep(bs: map<char, Binding>, g: Graph, ws: WordState, rest: string) returns (g1: Graph, ws1: WordState)
    requires WellTypedBindings(bs) && g.pulsers != []
    ensures RunChars(bs, g, ws, [')'] + rest) == RunChars(bs, g1, ws1, rest)
    ensures g1.procs == g.procs
  {
    CloseRun(bs, g, ws, rest);
    g1, ws1 := g.(depth := Dec64(g.depth), pulsers := g.pulsers[..|g.pulsers| - 1]), ws.(prevWasMidi := false);
  }

  /** The end of a word changes no processor, no stack entry and no depth. */
  lemma WordEndKeepsProcs(g: Graph, ws: WordState)
    ensures var h := WordEnd(g, ws); h.procs == g.procs && h.pulsers == g.pulsers && h.depth == g.depth
  {
  }

  /** A word whose run goes through ends with WordEnd. */
  lemma WordOfRun(bs: map<char, Binding>, g: Graph, w: string, h: Graph, ws: WordState)
    requires WellTypedBindings(bs) && RunChars(bs, g, NewWord, w) == RunChars(bs, h, ws, [])
    ensures WordResult(bs, g, w) == (WordEnd(h, ws), None)
  {
  }

  /**
   * "x(ab)", with x a pulse and a, b oscillators: both oscillators answer to the pulse's
   * first slot, and the pulse counts one connection.
   */
  lemma GroupSharesOneSlot(bs: map<char, Binding>, g: Graph, x: char, a: char, b: char)
    requires WellTypedBindings(bs) && StackHoldsPulses(g) && g.depth == 0 && g.pulsers == []
    requires x != '(' && x != ')' && x in bs && bs[x].kind == MidiPulse
    requires a != '(' && a != ')' && a in bs && IsOscKind(bs[a].kind)
    requires b != '(' && b != ')' && b in bs && IsOscKind(bs[b].kind)
    ensures var (h, e) := WordResult(bs, g, [x, '(', a, b, ')']);
      && e.None? && CountOf(h, |g.procs|) == 1
      && AnswersTo(h, |g.procs| + 1, bs[a].kind, 1) && AnswersTo(h, |g.procs| + 2, bs[b].kind, 1)
  {
    var id := |g.procs|;
    var w := [x, '(', a, b, ')'];
    assert w == [x, '('] + ([a] + ([b] + ([')'] + [])));
    var g1, ws1 := PulseOpenStep(bs, g, x, [a] + ([b] + ([')'] + [])));
    var g2, ws2 := ClaimStep(bs, g1, ws1, a, [b] + ([')'] + []));
    var g3, ws3 := ClaimStep(bs, g2, ws2, b, [')'] + []);
    var g4, ws4 := CloseStep(bs, g3, ws3, []);
    assert g3.procs[id + 1] == g2.procs[id + 1];
    WordOfRun(bs, g, w, g4, ws4);
    WordEndKeepsProcs(g4, ws4);
  }

  /** The first word of "x(a b)": a claims slot 1 and the group stays open. */
  lemma FirstWordClaims(bs: map<char, Binding>, g: Graph, x: char, a: char)
    requires WellTypedBindings(bs) && StackHoldsPulses(g) && g.depth == 0 && g.pulsers == []
    requires x != '(' && x != ')' && x in bs && bs[x].kind == MidiPulse
    requires a != '(' && a != ')' && a in bs && IsOscKind(bs[a].kind)
    ensures var (h, e) := WordResult(bs, g, [x, '(', a]);
      && e.None? && h.depth == 1 && h.pulsers == [|g.procs|] && StackHoldsPulses(h)
      && |h.procs| == |g.procs| + 2 && CountOf(h, |g.procs|) == 1 && AnswersTo(h, |g.procs| + 1, bs[a].kind, 1)
  {
    var w := [x, '(', a];
    assert w == [x, '('] + ([a] + []);
    var g1, ws1 := PulseOpenStep(bs, g, x, [a] + []);
    var g2, ws2 := ClaimStep(bs, g1, ws1, a, []);
    WordOfRun(bs, g, w, g2, ws2);
    WordEndKeepsProcs(g2, ws2);
  }

  /** The second word of "x(a b)": b opens a new claim in the group it finds open, then closes it. */
  lemma SecondWordClaims(bs: map<char, Binding>, g: Graph, b: char)
    requires WellTypedBindings(bs) && StackHoldsPulses(g)
    requires b != '(' && b != ')' && b in bs && IsOscKind(bs[b].kind)
    requires 0 < g.depth && g.depth - 1 < |g.pulsers|
    ensures var (h, e) := WordResult(bs, g, [b, ')']);
      var parent := g.pulsers[g.depth - 1];
      && e.None? && CountOf(h, parent) == CountOf(g, parent) + 1
      && AnswersTo(h, |g.procs|, bs[b].kind, CountOf(g, parent) + 1)
      && (forall j :: 0 <= j < |g.procs| && j != parent ==> h.procs[j] == g.procs[j])
  {
    var w := [b, ')'];
    assert w == [b] + ([')'] + []);
    var g1, ws1 := ClaimStep(bs, g, NewWord, b, [')'] + []);
    var g2, ws2 := CloseStep(bs, g1, ws1, []);
    WordOfRun(bs, g, w, g2, ws2);
    WordEndKeepsProcs(g2, ws2);
  }

  /**
   * "x(a b)": the word boundary re-arms the claim, so b takes a second slot. a answers to
   * slot 1, b to slot 2, and the pulse counts two connections.
   */
  lemma WordsTakeSeparateSlots(bs: map<char, Binding>, g: Graph, x: char, a: char, b: char)
    requires WellTypedBindings(bs) && StackHoldsPulses(g) && g.depth == 0 && g.pulsers == []
    requires x != '(' && x != ')' && x in bs && bs[x].kind == MidiPulse
    requires a != '(' && a != ')' && a in bs && IsOscKind(bs[a].kind)
    requires b != '(' && b != ')' && b in bs && IsOscKind(bs[b].kind)
    ensures var (h, e) := WordsResult(bs, g, [[x, '(', a], [b, ')']]);
      && e.None? && CountOf(h, |g.procs|) == 2
      && AnswersTo(h, |g.procs| + 1, bs[a].kind, 1) && AnswersTo(h, |g.procs| + 2, bs[b].kind, 2)
  {
    var w1 := [x, '(', a];
    var w2 := [b, ')'];
    var parent := |g.procs|;
    FirstWordClaims(bs, g, x, a);
    var h1 := WordResult(bs, g, w1).0;
    SecondWordClaims(bs, h1, b);
    var h2 := WordResult(bs, h1, w2).0;
    assert h2.procs[parent + 1] == h1.procs[parent + 1];
    assert [w1, w2][1..] == [w2] && [w2][1..] == [];
    assert WordsResult(bs, g, [w1, w2]) == WordsResult(bs, h1, [w2]);
  }

  /**
   * What a claimed slot means at run time: with the parent counting `total` connections
   * (under 256), a child that answers to slot `n` hears the parent's note of loop `loop`
   * exactly when that loop lands on its slot. An oscillator accepts the message; a pulse
   * child keeps its gate open through a note-on.
   */
  lemma SlotHearsItsLoop(g: Graph, id: nat, k: ProcKind, n: int, total: int, loop: uint64, m: Midi.MidiMessage)
    requires Claims(k) && AnswersTo(g, id, k, n) && 1 <= n <= total < 256
    requires m.velocity == Pulses.SlotVelocity(loop, total)
    ensures IsOscKind(k) ==> (g.procs[id].gate.Accepts(m) <==> loop % total == n - 1)
    ensures k == MidiPulse && Midi.IsNoteOn(m) ==>
      (Pulses.GateAfter(g.procs[id].settings, false, m) <==> loop % total == n - 1)
  {
    Pulses.SlotInRange(loop, total);
    assert ToByte(n) == n;
    if IsOscKind(k) {
      Oscillators.SlotSelectivity(g.procs[id].gate, m);
    } else {
      Pulses.GateAfterEffect(g.procs[id].settings, false, m);
    }
  }

  // ---------------------------------------------------------------- stack, depth and wiring

  /**
   * clear_graph drops every node and connection and adds a fresh output node, but the pulse
   * stack and the depth stay, and so do the processors the stack points to.
   */
  lemma ClearKeepsStack(g: Graph)
    ensures var h := Cleared(g);
      && h.pulsers == g.pulsers && h.depth == g.depth
      && |h.procs| == |g.procs| + 1 && h.procs[..|g.procs|] == g.procs
      && h.procs[h.audioOut] == AudioOutput && h.nodes == [h.audioOut] && h.connections == []
      && (StackHoldsPulses(g) ==> StackHoldsPulses(h))
  {
  }

  /**
   * `(` raises the depth (wrapping at 2^64) and re-arms the claim; `)` pops the newest pulse
   * and lowers the depth (wrapping below 0), or stops the word when the stack is empty.
   * Neither touches a processor, a node or a connection.
   */
  lemma ParenChars(bs: map<char, Binding>, g: Graph, ws: WordState)
    requires WellTypedBindings(bs)
    ensures var r := CharStep(bs, g, ws, '(');
      && r.Ok?
      && var (g1, ws1) := r.value;
         && g1.procs == g.procs && g1.nodes == g.nodes && g1.connections == g.connections
         && g1.pulsers == g.pulsers && g1.depth == (if g.depth + 1 < U64 then g.depth + 1 else 0)
         && ws1.needToInc && !ws1.prevWasMidi && ws1.orphans == ws.orphans && ws1.tail == ws.tail
    ensures var r := CharStep(bs, g, ws, ')');
      && (r.Err? <==> g.pulsers == [])
      && (r.Err? ==> r.error == PopOnEmptyStack)
      && (r.Ok? ==>
            var (g1, ws1) := r.value;
            && g1.procs == g.procs && g1.nodes == g.nodes && g1.connections == g.connections
            && g1.pulsers == g.pulsers[..|g.pulsers| - 1]
            && g1.depth == (if g.depth > 0 then g.depth - 1 else U64 - 1)
            && ws1.needToInc == ws.needToInc && !ws1.prevWasMidi
            && ws1.orphans == ws.orphans && ws1.tail == ws.tail)
  {
  }

  /**
   * A letter goes through exactly when the registry knows it and the depth, if positive,
   * names an entry of the stack; otherwise the word stops with the matching error.
   */
  lemma LetterErrors(bs: map<char, Binding>, g: Graph, ws: WordState, c: char)
    requires WellTypedBindings(bs) && c != '(' && c != ')'
    ensures CharStep(bs, g, ws, c).Ok? <==> c in bs && !(g.depth > 0 && g.depth - 1 >= |g.pulsers|)
    ensures c !in bs ==> CharStep(bs, g, ws, c) == Err(RegistryError(UnknownLetter))
    ensures c in bs && g.depth > 0 && g.depth - 1 >= |g.pulsers| ==> CharStep(bs, g, ws, c) == Err(NoPulseAtDepth)
  {
  }

  /** Every pulse letter is pushed on the pulse stack; no other letter changes the stack. */
  lemma LetterPushesPulse(bs: map<char, Binding>, g: Graph, ws: WordState, c: char)
    requires WellTypedBindings(bs) && c != '(' && c != ')' && CharStep(bs, g, ws, c).Ok?
    ensures c in bs
    ensures CharStep(bs, g, ws, c).value.0.pulsers
            == g.pulsers + (if bs[c].kind == MidiPulse then [|g.procs|] else [])
  {
    var p := Create(bs[c]);
    var id := |g.procs|;
    var g0 := g.(procs := g.procs + [p], nodes := g.nodes + [id]);
    LinkKeepsKinds(g0, ws, id);
    LinkKeepsNodes(g0, ws, id);
    var (g1, ws1) := Link(g0, ws, id);
    assert KindOf(g1.procs[id]) == KindOf(p);
  }

  /**
   * A letter right after a pulse letter, outside any group, gets a direct MIDI link from that
   * pulse: an oscillator becomes triggered and hears every note, a pulse gates on its notes
   * without listening for a slot.
   */
  lemma DirectLinkAfterPulse(g: Graph, ws: WordState, p: Processor)
    requires ws.prevWasMidi && g.pulsers != [] && g.depth == 0
    ensures var (g1, _) := AddNode(g, ws, p);
      var id := |g.procs|;
      && MidiLink(g.pulsers[|g.pulsers| - 1], id) in g1.connections
      && (p.Osc? ==> g1.procs[id].Osc? && g1.procs[id].gate.midiTriggered && g1.procs[id].gate.openOnAllChannels)
      && (p.Pulse? ==> g1.procs[id].Pulse? && g1.procs[id].settings.gatingEnabled && !g1.procs[id].settings.listening)
  {
    var id := |g.procs|;
    var g0 := g.(procs := g.procs + [p], nodes := g.nodes + [id]);
    var (g1, ws1) := Link(g0, ws, id);
    PlaceKeepsProcs(g1, ws1, id);
  }

  /** connect makes one pair per source, sources in order: channel 0 into 0, then 1 into 1. */
  lemma {:induction false} PairsChannels(srcs: seq<nat>, dst: nat)
    ensures forall i :: 0 <= i < |srcs| ==>
      Pairs(srcs, dst)[2 * i] == Audio(srcs[i], dst, 0) && Pairs(srcs, dst)[2 * i + 1] == Audio(srcs[i], dst, 1)
  {
    if srcs != [] {
      var init := srcs[..|srcs| - 1];
      PairsChannels(init, dst);
      forall i | 0 <= i < |srcs|
        ensures Pairs(srcs, dst)[2 * i] == Audio(srcs[i], dst, 0) && Pairs(srcs, dst)[2 * i + 1] == Audio(srcs[i], dst, 1)
      {
        if i < |init| {
          assert srcs[i] == init[i];
        }
      }
    }
  }

  /**
   * An effect takes a stereo pair from every orphan, in order, and then one from the previous
   * effects tail, and becomes the tail with no orphans left; prev_was_midi is cleared only
   * when there were orphans to connect.
   */
  lemma EffectWiring(g: Graph, ws: WordState, id: nat)
    requires id < |g.procs| && g.procs[id].Effect?
    ensures var (g1, ws1) := Place(g, ws, id);
      && g1.connections == g.connections + Pairs(ws.orphans, id)
                           + (if ws.tail.Some? then StereoPair(ws.tail.value, id) else [])
      && ws1.orphans == [] && ws1.tail == Some(id) && ws1.needToInc == ws.needToInc
      && ws1.prevWasMidi == (ws.prevWasMidi && ws.orphans == [])
      && g1.procs == g.procs && g1.pulsers == g.pulsers
  {
  }
}
