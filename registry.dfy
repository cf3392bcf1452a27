/**
 * The letter registry: which processor kind each letter stands for and the typed parameter
 * tuple it is built with (LetterRegistry), and the table from kind names to binders
 * (TypeTable).
 */
module Registry {
  import opened Wrappers
  import opened Values
  import Oscillators
  import Pulses

  /** The processor classes a letter can be bound to, in the order of AllProcessorTypes. */
  datatype ProcKind = SinOsc | SquareOsc | SawOsc | TriangleOsc | NoiseOsc | Filter | Delay | Reverb | MidiPulse

  /** The kinds derived from OscillatorBase. */
  predicate IsOscKind(k: ProcKind) {
    k.SinOsc? || k.SquareOsc? || k.SawOsc? || k.TriangleOsc? || k.NoiseOsc?
  }

  /** The kinds derived from EffectsBase. */
  predicate IsEffectKind(k: ProcKind) {
    k.Filter? || k.Delay? || k.Reverb?
  }

  // ---------------------------------------------------------------- ctor_descriptor

  /** ctor_descriptor<P>::names: the parameter names, in tuple order. */
  function ParamNames(k: ProcKind): (names: seq<string>)
    ensures |names| >= 1
    ensures forall i, j :: 0 <= i < j < |names| ==> names[i] != names[j]
  {
    match k
    case Filter => ["cutoff"]
    case Delay => ["time", "feedback", "wet", "dry"]
    case Reverb => ["size", "damp", "wet", "dry", "width"]
    case MidiPulse => ["bpm", "on", "off"]
    case _ => ["note"]
  }

  /** ctor_descriptor<P>::types: the alternative each tuple element holds. */
  function ParamKinds(k: ProcKind): (kinds: seq<ValueKind>)
    ensures |kinds| == |ParamNames(k)|
    ensures forall i :: 0 <= i < |kinds| ==> kinds[i] != TextKind
  {
    match k
    case Filter => [DoubleKind]
    case Delay => [DoubleKind, DoubleKind, DoubleKind, DoubleKind]
    case Reverb => [DoubleKind, DoubleKind, DoubleKind, DoubleKind, DoubleKind]
    case MidiPulse => [DoubleKind, IntKind, IntKind]
    case _ => [IntKind]
  }

  /** A tuple of the kind's parameter types. */
  predicate WellTyped(k: ProcKind, params: seq<Value>) {
    |params| == |ParamKinds(k)| && forall i :: 0 <= i < |params| ==> params[i].Kind() == ParamKinds(k)[i]
  }

  /** ctor_descriptor<P>::defaults. */
  function Defaults(k: ProcKind): (d: seq<Value>)
    ensures WellTyped(k, d)
  {
    match k
    case Filter => [DoubleVal(2000.0)]
    case Delay => [DoubleVal(0.5), DoubleVal(0.5), DoubleVal(0.5), DoubleVal(0.5)]
    case Reverb => [DoubleVal(0.5), DoubleVal(0.4), DoubleVal(0.5), DoubleVal(0.5), DoubleVal(0.2)]
    case MidiPulse => [DoubleVal(120.0), IntVal(1), IntVal(1)]
    case _ => [IntVal(66)]
  }

  // ---------------------------------------------------------------- assign_tuple

  /**
   * What lreg_detail::assign_tuple leaves in the tuple it writes to, and the error of the
   * value_cast that stopped it, if one did. Positions written before a failing cast keep
   * their new values: the tuple is updated in place.
   */
  datatype Assigned = Assigned(tup: seq<Value>, error: Option<Error>)

  function Min(a: int, b: int): int { if a <= b then a else b }

  function AssignTuple(kinds: seq<ValueKind>, tup: seq<Value>, vals: seq<Value>, idx: nat): (r: Assigned)
    requires |tup| == |kinds|
    ensures |r.tup| == |tup|
    decreases |kinds| - idx
  {
    if idx >= |kinds| || idx >= |vals| then Assigned(tup, None)
    else
      match ValueCast(vals[idx], kinds[idx])
      case Err(e) => Assigned(tup, Some(e))
      case Ok(v) => AssignTuple(kinds, tup[idx := v], vals, idx + 1)
  }

  /**
   * assign_tuple from position `from` stopped at position `p`: the positions from `from`
   * up to `p` hold the cast values, every other position is as before, and it stopped at
   * the end of the shorter of the tuple and `vals` exactly when no cast failed.
   */
  predicate StoppedAt(kinds: seq<ValueKind>, tup: seq<Value>, vals: seq<Value>, from: nat, p: nat, r: Assigned) {
    && |tup| == |kinds| && |r.tup| == |tup|
    && from <= p <= Min(|kinds|, |vals|)
    && (forall i :: from <= i < p ==> ValueCast(vals[i], kinds[i]) == Ok(r.tup[i]))
    && (forall i :: 0 <= i < |tup| && !(from <= i < p) ==> r.tup[i] == tup[i])
    && (r.error.None? <==> p == Min(|kinds|, |vals|))
    && (r.error.Some? ==> ValueCast(vals[p], kinds[p]) == Err(r.error.value))
  }

  lemma {:induction false} AssignTupleStops(kinds: seq<ValueKind>, tup: seq<Value>, vals: seq<Value>, idx: nat)
    requires |tup| == |kinds| && idx <= Min(|kinds|, |vals|)
    ensures exists p :: StoppedAt(kinds, tup, vals, idx, p, AssignTuple(kinds, tup, vals, idx))
    decreases |kinds| - idx
  {
    var r := AssignTuple(kinds, tup, vals, idx);
    if idx >= |kinds| || idx >= |vals| {
      assert StoppedAt(kinds, tup, vals, idx, idx, r);
    } else {
      match ValueCast(vals[idx], kinds[idx])
      case Err(e) =>
        assert StoppedAt(kinds, tup, vals, idx, idx, r);
      case Ok(v) =>
        var tup1 := tup[idx := v];
        AssignTupleStops(kinds, tup1, vals, idx + 1);
        var p :| StoppedAt(kinds, tup1, vals, idx + 1, p, r);
        assert StoppedAt(kinds, tup, vals, idx, p, r);
    }
  }

  /**
   * assign_tuple overwrites only positions below the length of the shorter of the tuple
   * and `vals`; with every cast succeeding those positions hold the cast values, and
   * after a failed cast the positions from the failing one on are untouched.
   */
  lemma AssignTupleOverwrites(kinds: seq<ValueKind>, tup: seq<Value>, vals: seq<Value>)
    requires |tup| == |kinds|
    ensures var r := AssignTuple(kinds, tup, vals, 0);
      && (forall i :: Min(|kinds|, |vals|) <= i < |tup| ==> r.tup[i] == tup[i])
      && (r.error.None? ==> forall i :: 0 <= i < Min(|kinds|, |vals|) ==> ValueCast(vals[i], kinds[i]) == Ok(r.tup[i]))
      && (r.error.Some? ==> exists p :: 0 <= p < Min(|kinds|, |vals|) && ValueCast(vals[p], kinds[p]) == Err(r.error.value)
                                        && forall i :: p <= i < |tup| ==> r.tup[i] == tup[i])
  {
    AssignTupleStops(kinds, tup, vals, 0);
  }

  /** assign_tuple keeps the tuple's element types: every cast yields the target type. */
  lemma AssignTupleWellTyped(k: ProcKind, tup: seq<Value>, vals: seq<Value>)
    requires WellTyped(k, tup)
    ensures WellTyped(k, AssignTuple(ParamKinds(k), tup, vals, 0).tup)
  {
    var kinds := ParamKinds(k);
    AssignTupleStops(kinds, tup, vals, 0);
    var r := AssignTuple(kinds, tup, vals, 0);
    var p :| StoppedAt(kinds, tup, vals, 0, p, r);
    forall i | 0 <= i < |r.tup|
      ensures r.tup[i].Kind() == kinds[i]
    {
      if i < p {
        assert ValueCast(vals[i], kinds[i]) == Ok(r.tup[i]);
      } else {
        assert r.tup[i] == tup[i];
      }
    }
  }

  /** assign_tuple with no values leaves the tuple as it is. */
  lemma AssignNothing(kinds: seq<ValueKind>, tup: seq<Value>)
    requires |tup| == |kinds|
    ensures AssignTuple(kinds, tup, [], 0) == Assigned(tup, None)
  {
  }

  // ---------------------------------------------------------------- bindings

  /** A Binding<P>: the processor kind and its parameter tuple. */
  datatype Binding = Binding(kind: ProcKind, params: seq<Value>)

  predicate WellTypedBindings(bs: map<char, Binding>) {
    forall c :: c in bs ==> WellTyped(bs[c].kind, bs[c].params)
  }

  /**
   * The processor Binding::create makes. Oscillators keep their MIDI gate, pulses their
   * settings; an effect's DSP state lies outside this model, so it keeps its parameters.
   */
  datatype Processor =
    | Osc(oscKind: ProcKind, gate: Oscillators.OscGate)
    | Effect(effectKind: ProcKind, params: seq<Value>)
    | Pulse(settings: Pulses.PulseSettings)
    | AudioOutput

  /** Binding::create: construct the kind's processor from a copy of the tuple. */
  function Create(b: Binding): (p: Processor)
    requires WellTyped(b.kind, b.params)
    ensures IsOscKind(b.kind) <==> p.Osc?
    ensures IsEffectKind(b.kind) <==> p.Effect?
    ensures b.kind == MidiPulse <==> p.Pulse?
    ensures p.Osc? ==> p.oscKind == b.kind && p.gate == Oscillators.NewOscGate(b.params[0].i)
    ensures p.Effect? ==> p.effectKind == b.kind && p.params == b.params
    ensures p.Pulse? ==> p.settings == Pulses.NewPulseSettings(b.params[0].d, b.params[1].i, b.params[2].i)
  {
    if IsOscKind(b.kind) then Osc(b.kind, Oscillators.NewOscGate(b.params[0].i))
    else if IsEffectKind(b.kind) then Effect(b.kind, b.params)
    else Pulse(Pulses.NewPulseSettings(b.params[0].d, b.params[1].i, b.params[2].i))
  }

  /** initialize: the letter's processor, or the "unknown letter" error. */
  function Instantiate(bs: map<char, Binding>, letter: char): (r: Result<Processor, Error>)
    requires WellTypedBindings(bs)
    ensures r.Err? <==> letter !in bs
    ensures r.Err? ==> r.error == UnknownLetter
    ensures r.Ok? ==> r.value == Create(bs[letter])
  {
    if letter in bs then Ok(Create(bs[letter])) else Err(UnknownLetter)
  }

  /** set_params on the registry: the letter must be bound; the casts stop at the first failure. */
  function SetParamsIn(bs: map<char, Binding>, letter: char, vals: seq<Value>): (r: (map<char, Binding>, Option<Error>))
    requires WellTypedBindings(bs)
    ensures WellTypedBindings(r.0)
    ensures letter !in bs ==> r == (bs, Some(UnknownLetter))
    ensures letter in bs ==> r.0.Keys == bs.Keys && r.0[letter].kind == bs[letter].kind
                             && forall c :: c in bs && c != letter ==> r.0[c] == bs[c]
    ensures letter in bs ==>
      var a := AssignTuple(ParamKinds(bs[letter].kind), bs[letter].params, vals, 0);
      r == (bs[letter := Binding(bs[letter].kind, a.tup)], a.error)
  {
    if letter !in bs then (bs, Some(UnknownLetter))
    else
      var b := bs[letter];
      AssignTupleWellTyped(b.kind, b.params, vals);
      var a := AssignTuple(ParamKinds(b.kind), b.params, vals, 0);
      (bs[letter := Binding(b.kind, a.tup)], a.error)
  }

  /**
   * set_params on a bound letter is assign_tuple on its tuple: the positions below the
   * shorter of the tuple and the values are written with the cast values when every cast
   * succeeds; after a failed cast the error is that cast's and the positions from it on keep
   * their old values; positions past the values are never written.
   */
  lemma SetParamsPartial(bs: map<char, Binding>, letter: char, vals: seq<Value>)
    requires WellTypedBindings(bs) && letter in bs
    ensures var r := SetParamsIn(bs, letter, vals);
      var before := bs[letter].params;
      var kinds := ParamKinds(bs[letter].kind);
      var n := Min(|kinds|, |vals|);
      && |r.0[letter].params| == |before|
      && (forall i :: n <= i < |before| ==> r.0[letter].params[i] == before[i])
      && (r.1.None? ==> forall i :: 0 <= i < n ==> ValueCast(vals[i], kinds[i]) == Ok(r.0[letter].params[i]))
      && (r.1.Some? ==> exists p :: 0 <= p < n && ValueCast(vals[p], kinds[p]) == Err(r.1.value)
                                    && forall i :: p <= i < |before| ==> r.0[letter].params[i] == before[i])
  {
    AssignTupleOverwrites(ParamKinds(bs[letter].kind), bs[letter].params, vals);
  }

  /**
   * set_paramImpl<N-1>: the position of `key` among the names, looking from position `i`
   * down to 0.
   */
  function FindFromEnd(names: seq<string>, key: string, i: nat): (r: Option<nat>)
    requires i < |names|
    ensures r.Some? ==> (r.value <= i && names[r.value] == key
                         && forall j :: r.value < j <= i ==> names[j] != key)
    ensures r.None? ==> forall j :: 0 <= j <= i ==> names[j] != key
  {
    if names[i] == key then Some(i)
    else if i > 0 then FindFromEnd(names, key, i - 1)
    else None
  }

  function ParamIndex(k: ProcKind, key: string): (r: Option<nat>)
    ensures r.Some? ==> r.value < |ParamNames(k)| && ParamNames(k)[r.value] == key
    ensures r.None? <==> key !in ParamNames(k)
  {
    FindFromEnd(ParamNames(k), key, |ParamNames(k)| - 1)
  }

  /**
   * Binding::set_param: the parameter named `key` gets the value cast to its type; an
   * unknown name or a failed cast leaves the binding as it is.
   */
  function WithParam(b: Binding, key: string, value: Value): (r: Result<Binding, Error>)
    requires WellTyped(b.kind, b.params)
    ensures r.Ok? ==> WellTyped(r.value.kind, r.value.params)
  {
    match ParamIndex(b.kind, key)
    case None => Err(UnknownParameter)
    case Some(i) =>
      match ValueCast(value, ParamKinds(b.kind)[i])
      case Err(e) => Err(e)
      case Ok(v) => Ok(Binding(b.kind, b.params[i := v]))
  }

  /** set_param on the registry. */
  function SetParamIn(bs: map<char, Binding>, letter: char, key: string, value: Value): (r: (map<char, Binding>, Option<Error>))
    requires WellTypedBindings(bs)
    ensures WellTypedBindings(r.0)
    ensures r.1.None? ==> letter in bs
  {
    if letter !in bs then (bs, Some(UnknownLetter))
    else
      match WithParam(bs[letter], key, value)
      case Err(e) => (bs, Some(e))
      case Ok(b) => (bs[letter := b], None)
  }

  /**
   * set_param changes only the parameter whose name is the key, to the value cast to that
   * parameter's type, and only in the letter's binding; an unbound letter, an unknown name
   * or a failed cast changes nothing and reports why.
   */
  lemma SetParamOnlyKey(bs: map<char, Binding>, letter: char, key: string, value: Value)
    requires WellTypedBindings(bs)
    ensures var r := SetParamIn(bs, letter, key, value);
      && (letter !in bs ==> r == (bs, Some(UnknownLetter)))
      && (letter in bs && key !in ParamNames(bs[letter].kind) ==> r == (bs, Some(UnknownParameter)))
      && (r.1.Some? ==> r.0 == bs)
      && (letter in bs && key in ParamNames(bs[letter].kind) ==>
            var k := bs[letter].kind;
            var cast := ValueCast(value, ParamKinds(k)[ParamIndex(k, key).value]);
            && (cast.Err? ==> r == (bs, Some(cast.error)))
            && (cast.Ok? ==> r.1.None?))
      && (r.1.None? ==>
            && letter in bs && key in ParamNames(bs[letter].kind)
            && r.0.Keys == bs.Keys
            && (forall c :: c in bs && c != letter ==> r.0[c] == bs[c])
            && r.0[letter].kind == bs[letter].kind
            && var i := ParamIndex(bs[letter].kind, key).value;
               && ValueCast(value, ParamKinds(bs[letter].kind)[i]) == Ok(r.0[letter].params[i])
               && (forall j :: 0 <= j < |bs[letter].params| && ParamNames(bs[letter].kind)[j] != key ==>
                     r.0[letter].params[j] == bs[letter].params[j]))
  {
    if letter in bs {
      WithParamOnlyKey(bs[letter], key, value);
    }
  }

  /** Binding::set_param changes the named parameter only, to the value cast to its type. */
  lemma WithParamOnlyKey(b: Binding, key: string, value: Value)
    requires WellTyped(b.kind, b.params)
    ensures key !in ParamNames(b.kind) ==> WithParam(b, key, value) == Err(UnknownParameter)
    ensures var r := WithParam(b, key, value);
      r.Ok? ==>
        && key in ParamNames(b.kind) && r.value.kind == b.kind
        && var i := ParamIndex(b.kind, key).value;
           && ValueCast(value, ParamKinds(b.kind)[i]) == Ok(r.value.params[i])
           && (forall j :: 0 <= j < |b.params| && ParamNames(b.kind)[j] != key ==> r.value.params[j] == b.params[j])
  {
    var idx := ParamIndex(b.kind, key);
    if idx.Some? {
      var i := idx.value;
      var c := ValueCast(value, ParamKinds(b.kind)[i]);
      if c.Ok? {
        var r := WithParam(b, key, value);
        assert r.value == Binding(b.kind, b.params[i := c.value]);
        forall j | 0 <= j < |b.params| && ParamNames(b.kind)[j] != key
          ensures r.value.params[j] == b.params[j]
        {
          assert j != i;
        }
      }
    }
  }

  /** A parameter set by name reads back as the value cast to its type. */
  lemma SetParamReadsBack(bs: map<char, Binding>, letter: char, key: string, value: Value)
    requires WellTypedBindings(bs) && letter in bs
    requires key in ParamNames(bs[letter].kind)
    requires value.Kind() == ParamKinds(bs[letter].kind)[ParamIndex(bs[letter].kind, key).value]
    ensures var r := SetParamIn(bs, letter, key, value);
      r.1 == None && r.0[letter].params[ParamIndex(bs[letter].kind, key).value] == value
  {
  }

  /** The letters in strictly increasing order. */
  predicate StrictlySorted(s: seq<char>) {
    forall i, j :: 0 <= i < j < |s| ==> s[i] < s[j]
  }

  /** `c` placed among the sorted letters `s`. */
  function InsertSorted(s: seq<char>, c: char): (r: seq<char>)
    ensures forall x :: x in r <==> x in s || x == c
    decreases |s|
  {
    if s == [] then [c]
    else if c <= s[0] then [c] + s
    else [s[0]] + InsertSorted(s[1..], c)
  }

  lemma {:induction false} InsertSortedKeepsOrder(s: seq<char>, c: char)
    requires StrictlySorted(s) && c !in s
    ensures StrictlySorted(InsertSorted(s, c))
    decreases |s|
  {
    if s != [] && c > s[0] {
      var tail := s[1..];
      assert StrictlySorted(tail) by {
        forall i, j | 0 <= i < j < |tail|
          ensures tail[i] < tail[j]
        {
          assert tail[i] == s[i + 1] && tail[j] == s[j + 1];
        }
      }
      InsertSortedKeepsOrder(tail, c);
      var r := InsertSorted(s, c);
      forall i, j | 0 <= i < j < |r|
        ensures r[i] < r[j]
      {
        if i == 0 {
          assert r[j] in InsertSorted(tail, c);
          if r[j] != c {
            var k :| 0 <= k < |tail| && tail[k] == r[j];
            assert s[k + 1] == r[j];
          }
        }
      }
    }
  }

  // ---------------------------------------------------------------- LetterRegistry

  /** LetterRegistry: the bindings map, updated in place. */
  class LetterRegistry {
    var bindings: map<char, Binding>

    /** Every binding's tuple has its kind's types (the C++ tuple type guarantees this). */
    predicate Valid()
      reads this
    {
      WellTypedBindings(bindings)
    }

    constructor()
      ensures bindings == map[] && Valid()
    {
      bindings := map[];
    }

    /** bind<P>: the letter is bound afresh; every other letter keeps its binding. */
    method Bind(letter: char, kind: ProcKind, params: seq<Value>)
      requires Valid() && WellTyped(kind, params)
      modifies this
      ensures bindings == old(bindings)[letter := Binding(kind, params)]
      ensures Valid()
    {
      bindings := bindings[letter := Binding(kind, params)];
    }

    method Initialize(letter: char) returns (r: Result<Processor, Error>)
      requires Valid()
      ensures r == Instantiate(bindings, letter)
    {
      if letter !in bindings {
        return Err(UnknownLetter);
      }
      r := Ok(Create(bindings[letter]));
    }

    method SetParams(letter: char, vals: seq<Value>) returns (err: Option<Error>)
      requires Valid()
      modifies this
      ensures (bindings, err) == SetParamsIn(old(bindings), letter, vals)
      ensures Valid()
    {
      if letter !in bindings {
        return Some(UnknownLetter);
      }
      var b := bindings[letter];
      AssignTupleWellTyped(b.kind, b.params, vals);
      var a := AssignTuple(ParamKinds(b.kind), b.params, vals, 0);
      bindings := bindings[letter := Binding(b.kind, a.tup)];
      err := a.error;
    }

    method SetParam(letter: char, key: string, value: Value) returns (err: Option<Error>)
      requires Valid()
      modifies this
      ensures (bindings, err) == SetParamIn(old(bindings), letter, key, value)
      ensures Valid()
    {
      if letter !in bindings {
        return Some(UnknownLetter);
      }
      var r := WithParam(bindings[letter], key, value);
      if r.Err? {
        return Some(r.error);
      }
      bindings := bindings[letter := r.value];
      err := None;
    }

    /** getType_info: the bound kind, or the "unknown letter" error. */
    method GetTypeInfo(letter: char) returns (r: Result<ProcKind, Error>)
      ensures r.Err? <==> letter !in bindings
      ensures r.Err? ==> r.error == UnknownLetter
      ensures r.Ok? ==> r.value == bindings[letter].kind
    {
      if letter !in bindings {
        return Err(UnknownLetter);
      }
      r := Ok(bindings[letter].kind);
    }

    method IsBound(letter: char) returns (b: bool)
      ensures b <==> letter in bindings
    {
      b := letter in bindings;
    }

    /** getBoundLetters: exactly the bound letters, each once, in ascending order. */
    method GetBoundLetters() returns (letters: seq<char>)
      ensures StrictlySorted(letters)
      ensures forall c :: c in letters <==> c in bindings
    {
      letters := [];
      var rest := bindings.Keys;
      while rest != {}
        invariant rest <= bindings.Keys
        invariant StrictlySorted(letters)
        invariant forall c :: c in letters <==> c in bindings && c !in rest
        decreases |rest|
      {
        var c :| c in rest;
        InsertSortedKeepsOrder(letters, c);
        letters := InsertSorted(letters, c);
        rest := rest - {c};
      }
    }
  }

  // ---------------------------------------------------------------- TypeTable

  /**
   * TypeTable::bind's binder for a kind: the defaults overwritten by `vals`, then bound;
   * an unknown name or a failed cast leaves the registry as it is.
   */
  function BindByName(table: map<string, ProcKind>, bs: map<char, Binding>, letter: char, name: string,
                      vals: seq<Value>): (r: (map<char, Binding>, Option<Error>))
    requires WellTypedBindings(bs)
    ensures WellTypedBindings(r.0)
    ensures r.1.Some? ==> r.0 == bs
    ensures name !in table ==> r.1 == Some(UnknownType)
    ensures r.1.None? ==> name in table && r.0.Keys == bs.Keys + {letter}
                          && r.0[letter].kind == table[name]
                          && forall c :: c in bs && c != letter ==> r.0[c] == bs[c]
  {
    if name !in table then (bs, Some(UnknownType))
    else
      var k := table[name];
      AssignTupleWellTyped(k, Defaults(k), vals);
      var a := AssignTuple(ParamKinds(k), Defaults(k), vals, 0);
      if a.error.Some? then (bs, a.error) else (bs[letter := Binding(k, a.tup)], None)
  }

  /**
   * Binding a known kind with no values gives exactly its defaults, whatever the letter
   * was bound to before.
   */
  lemma BindWithDefaults(table: map<string, ProcKind>, bs: map<char, Binding>, letter: char, name: string)
    requires WellTypedBindings(bs) && name in table
    ensures BindByName(table, bs, letter, name, []) == (bs[letter := Binding(table[name], Defaults(table[name]))], None)
  {
    AssignNothing(ParamKinds(table[name]), Defaults(table[name]));
  }

  /**
   * Binding with values: the letter gets the kind's defaults with the first values cast
   * over them, every later default kept; a failing cast reports that cast's error and
   * binds nothing.
   */
  lemma BindByNamePartial(table: map<string, ProcKind>, bs: map<char, Binding>, letter: char, name: string,
                          vals: seq<Value>)
    requires WellTypedBindings(bs) && name in table
    ensures var r := BindByName(table, bs, letter, name, vals);
      var k := table[name];
      var kinds := ParamKinds(k);
      var n := Min(|kinds|, |vals|);
      && (r.1.None? ==> && r.0[letter].kind == k
                        && |r.0[letter].params| == |Defaults(k)|
                        && (forall i :: 0 <= i < n ==> ValueCast(vals[i], kinds[i]) == Ok(r.0[letter].params[i]))
                        && (forall i :: n <= i < |Defaults(k)| ==> r.0[letter].params[i] == Defaults(k)[i]))
      && (r.1.Some? ==> r.0 == bs && exists p :: 0 <= p < n && ValueCast(vals[p], kinds[p]) == Err(r.1.value))
  {
    var k := table[name];
    AssignTupleOverwrites(ParamKinds(k), Defaults(k), vals);
  }

  /** The nine register_type calls at static initialisation. */
  function StandardTable(): map<string, ProcKind> {
    map["sin" := SinOsc, "square" := SquareOsc, "saw" := SawOsc, "triangle" := TriangleOsc,
        "noise" := NoiseOsc, "filter" := Filter, "delay" := Delay, "reverb" := Reverb,
        "midi" := MidiPulse]
  }

  /** Every kind is registered under exactly one name. */
  lemma StandardTableNamesEveryKindOnce(k: ProcKind)
    ensures exists name :: name in StandardTable() && StandardTable()[name] == k
    ensures forall n1, n2 ::
              (n1 in StandardTable() && n2 in StandardTable() && StandardTable()[n1] == k && StandardTable()[n2] == k)
              ==> n1 == n2
  {
    match k
    case SinOsc => assert StandardTable()["sin"] == k;
    case SquareOsc => assert StandardTable()["square"] == k;
    case SawOsc => assert StandardTable()["saw"] == k;
    case TriangleOsc => assert StandardTable()["triangle"] == k;
    case NoiseOsc => assert StandardTable()["noise"] == k;
    case Filter => assert StandardTable()["filter"] == k;
    case Delay => assert StandardTable()["delay"] == k;
    case Reverb => assert StandardTable()["reverb"] == k;
    case MidiPulse => assert StandardTable()["midi"] == k;
  }

  /** The descriptor defaults of each kind. */
  lemma DefaultsOfEachKind()
    ensures Defaults(SinOsc) == [IntVal(66)] && Defaults(SquareOsc) == [IntVal(66)] && Defaults(SawOsc) == [IntVal(66)]
    ensures Defaults(TriangleOsc) == [IntVal(66)] && Defaults(NoiseOsc) == [IntVal(66)]
    ensures Defaults(Filter) == [DoubleVal(2000.0)]
    ensures Defaults(Delay) == [DoubleVal(0.5), DoubleVal(0.5), DoubleVal(0.5), DoubleVal(0.5)]
    ensures Defaults(Reverb) == [DoubleVal(0.5), DoubleVal(0.4), DoubleVal(0.5), DoubleVal(0.5), DoubleVal(0.2)]
    ensures Defaults(MidiPulse) == [DoubleVal(120.0), IntVal(1), IntVal(1)]
  {
  }

  /** TypeTable: the name-to-binder table, one binder per registered name. */
  class TypeTable {
    var table: map<string, ProcKind>

    constructor()
      ensures table == map[]
    {
      table := map[];
    }

    /** register_type: a name registered again is bound to the newer kind. */
    method RegisterType(name: string, kind: ProcKind)
      modifies this
      ensures table == old(table)[name := kind]
    {
      table := table[name := kind];
    }

    /** The table after the static registrations of the nine processor classes. */
    constructor Standard()
      ensures table == StandardTable()
    {
      table := map[];
      new;
      RegisterAll();
    }

    /** The nine register_type calls, in the order they are made. */
    method RegisterAll()
      modifies this
      ensures table == old(table)["sin" := SinOsc]["square" := SquareOsc]["saw" := SawOsc]
                                 ["triangle" := TriangleOsc]["noise" := NoiseOsc]["filter" := Filter]
                                 ["delay" := Delay]["reverb" := Reverb]["midi" := MidiPulse]
    {
      RegisterType("sin", SinOsc);
      RegisterType("square", SquareOsc);
      RegisterType("saw", SawOsc);
      RegisterType("triangle", TriangleOsc);
      RegisterType("noise", NoiseOsc);
      RegisterType("filter", Filter);
      RegisterType("delay", Delay);
      RegisterType("reverb", Reverb);
      RegisterType("midi", MidiPulse);
    }

    method IsKnown(name: string) returns (b: bool)
      ensures b <==> name in table
    {
      b := name in table;
    }

    method Bind(reg: LetterRegistry, letter: char, name: string, vals: seq<Value>) returns (err: Option<Error>)
      requires reg.Valid()
      modifies reg
      ensures (reg.bindings, err) == BindByName(table, old(reg.bindings), letter, name, vals)
      ensures reg.Valid()
    {
      if name !in table {
        return Some(UnknownType);
      }
      var k := table[name];
      AssignTupleWellTyped(k, Defaults(k), vals);
      var a := AssignTuple(ParamKinds(k), Defaults(k), vals, 0);
      if a.error.Some? {
        return a.error;
      }
      reg.Bind(letter, k, a.tup);
      err := None;
    }
  }
}
