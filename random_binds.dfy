/**
 * The deterministic "random" initial bindings: a linear congruential step and a string hash
 * pick each letter's processor kind and, optionally, its parameters.
 */
module RandomBinds {
  import opened Wrappers
  import opened Values
  import opened Registry

  /** unsigned int: arithmetic wraps modulo 2^32. */
  const U32: int := 0x1_0000_0000

  type uint32 = x: int | 0 <= x < 0x1_0000_0000

  /**
   * CompileTimeRandom<N>::value: one LCG step in 32-bit unsigned arithmetic with the top bit
   * cleared; on a value below 2^32, masking with 0x7fffffff is taking it modulo 2^31.
   */
  function Lcg(n: uint32): (v: nat)
    ensures v < 0x8000_0000
  {
    (1103515245 * n + 12345) % U32 % 0x8000_0000
  }

  lemma LcgExamples()
    ensures Lcg(0) == 12345
    ensures Lcg(1) == 1103527590
    ensures Lcg(2) == 59559187
    ensures ((1103515245 as bv32) * 2 + 12345) & 0x7fff_ffff == 59559187
  {
  }

  /** On a 32-bit unsigned value, masking with 0x7fffffff is the remainder modulo 2^31. */
  lemma MaskIsModulo(x: bv32)
    ensures x & 0x7fff_ffff == x % 0x8000_0000
  {
  }

  /**
   * hash_string(str, h) over the characters before the terminating NUL: 5381 at the end,
   * otherwise the hash of the rest times 33, xor the character, in 32-bit unsigned arithmetic.
   */
  function HashString(s: string, h: nat): (r: bv32)
    decreases |s| - h
  {
    if h >= |s| then 5381
    else (HashString(s, h + 1) * 33) ^ ((s[h] as int % U32) as bv32)
  }

  lemma HashExamples()
    ensures HashString("", 0) == 5381
    ensures HashString("a", 0) == 177604
  {
    assert HashString("a", 1) == 5381;
    assert ("a"[0] as int % U32) as bv32 == 97;
    assert (5381 as bv32) * 33 == 177573;
    assert (177573 as bv32) ^ 97 == 177604;
  }

  /** compile_time_seed(), with the texts of __TIME__ and __DATE__ given. */
  function CompileTimeSeed(time: string, date: string): uint32 {
    (HashString(time, 0) ^ HashString(date, 0)) as int
  }

  /** AllProcessorTypes, in the order the kind index picks from. */
  const AllKinds: seq<ProcKind> := [SinOsc, SquareOsc, SawOsc, TriangleOsc, NoiseOsc, Filter, Delay, Reverb, MidiPulse]

  /** Every kind appears in AllKinds, once. */
  lemma AllKindsListsEveryKind(k: ProcKind)
    ensures exists i :: 0 <= i < |AllKinds| && AllKinds[i] == k
    ensures forall i, j :: 0 <= i < j < |AllKinds| ==> AllKinds[i] != AllKinds[j]
  {
    match k
    case SinOsc => assert AllKinds[0] == k;
    case SquareOsc => assert AllKinds[1] == k;
    case SawOsc => assert AllKinds[2] == k;
    case TriangleOsc => assert AllKinds[3] == k;
    case NoiseOsc => assert AllKinds[4] == k;
    case Filter => assert AllKinds[5] == k;
    case Delay => assert AllKinds[6] == k;
    case Reverb => assert AllKinds[7] == k;
    case MidiPulse => assert AllKinds[8] == k;
  }

  /** The character promoted to int and added to an unsigned value: modulo 2^32. */
  function AddU32(a: int, b: int): uint32 {
    (a + b) % U32
  }

  /** RandomTypeForLetter<Letter, Seed>: the LCG value at Seed + Letter, modulo the nine kinds. */
  function RandomKind(seed: uint32, letter: char): (k: ProcKind) {
    AllKinds[Lcg(AddU32(seed, letter as int)) % 9]
  }

  /** The LCG value RandomParametersForLetter draws parameter `i` from. */
  function ParamRand(seed: uint32, letter: char, i: nat): nat {
    Lcg(AddU32(AddU32(AddU32(seed, 1000), letter as int * 100), i))
  }

  /** get_random_param<I>: the value drawn for parameter `i` of a letter bound to `k`. */
  function RandomParam(k: ProcKind, i: nat, rand: nat): (v: Value)
    requires i < |ParamKinds(k)|
    ensures v.Kind() == ParamKinds(k)[i]
  {
    if ParamKinds(k)[i] == IntKind then
      if k == MidiPulse then IntVal(1 + rand % 8) else IntVal(36 + rand % 48)
    else if k == Filter then DoubleVal(200.0 + (rand % 7800) as real)
    else if k == MidiPulse && i == 0 then DoubleVal(60.0 + (rand % 120) as real)
    else if k == Delay && i == 0 then DoubleVal(0.1 + (rand % 1900) as real / 1000.0)
    else DoubleVal((rand % 1000) as real / 1000.0)
  }

  /** RandomParametersForLetter<Letter>::get_params(). */
  function RandomParams(seed: uint32, letter: char): (ps: seq<Value>)
    ensures WellTyped(RandomKind(seed, letter), ps)
  {
    var k := RandomKind(seed, letter);
    seq(|ParamKinds(k)|, i requires 0 <= i < |ParamKinds(k)| => RandomParam(k, i, ParamRand(seed, letter, i)))
  }

  /** The binding bind_random_letter (defaults) or bind_random_letter_with_random_params gives a letter. */
  function RandomBinding(seed: uint32, letter: char, randomParams: bool): (b: Binding)
    ensures WellTyped(b.kind, b.params)
    ensures b.kind == RandomKind(seed, letter)
  {
    var k := RandomKind(seed, letter);
    Binding(k, if randomParams then RandomParams(seed, letter) else Defaults(k))
  }

  /**
   * The drawn parameters keep to their ranges: a pulse's beat counts lie in 1..8 and its
   * tempo in 60..179, an oscillator's note in 36..83, a filter's cutoff in 200..7999, a
   * delay's time in 0.1..1.999 and every other parameter in 0..0.999.
   */
  lemma RandomParamBounds(k: ProcKind, i: nat, rand: nat)
    requires i < |ParamKinds(k)|
    ensures var v := RandomParam(k, i, rand);
      && (k == MidiPulse && i > 0 ==> v.IntVal? && 1 <= v.i <= 8)
      && (k == MidiPulse && i == 0 ==> v.DoubleVal? && 60.0 <= v.d <= 179.0)
      && (IsOscKind(k) ==> v.IntVal? && 36 <= v.i <= 83)
      && (k == Filter ==> v.DoubleVal? && 200.0 <= v.d <= 7999.0)
      && (k == Delay && i == 0 ==> v.DoubleVal? && 0.1 <= v.d <= 1.999)
      && ((k == Reverb || (k == Delay && i > 0)) ==> v.DoubleVal? && 0.0 <= v.d <= 0.999)
  {
  }

  /** The letter is among the first `n` of a..z. */
  predicate AmongFirst(c: char, n: int) {
    'a' as int <= c as int < 'a' as int + n
  }

  lemma AmongFirstNext(c: char, n: nat)
    requires n < 26
    ensures AmongFirst(c, n + 1) <==> AmongFirst(c, n) || c == ('a' as int + n) as char
  {
    if c as int == 'a' as int + n {
      assert c == ('a' as int + n) as char;
    }
  }

  /** The n-th letter of the alphabet, from 'a'. */
  function NthLetter(n: nat): char
    requires n < 26
  {
    ('a' as int + n) as char
  }

  /** The bindings after the first `n` letters of a..z were bound with random kinds. */
  function BoundUpTo(bs: map<char, Binding>, seed: uint32, randomParams: bool, n: nat): map<char, Binding>
    requires n <= 26
  {
    if n == 0 then bs
    else BoundUpTo(bs, seed, randomParams, n - 1)[NthLetter(n - 1) := RandomBinding(seed, NthLetter(n - 1), randomParams)]
  }

  /**
   * After the first `n` letters: each of them is bound to its random binding, every other
   * letter keeps the binding it had, and nothing else gets bound.
   */
  lemma {:induction false} BoundUpToEffect(bs: map<char, Binding>, seed: uint32, randomParams: bool, n: nat)
    requires n <= 26
    ensures var r := BoundUpTo(bs, seed, randomParams, n);
      && (forall c :: c in r <==> c in bs || AmongFirst(c, n))
      && (forall c :: AmongFirst(c, n) ==> r[c] == RandomBinding(seed, c, randomParams))
      && (forall c :: c in bs && !AmongFirst(c, n) ==> r[c] == bs[c])
  {
    if n > 0 {
      BoundUpToEffect(bs, seed, randomParams, n - 1);
      forall c
        ensures AmongFirst(c, n) <==> AmongFirst(c, n - 1) || c == NthLetter(n - 1)
      {
        AmongFirstNext(c, n - 1);
      }
    }
  }

  /** Binding all of a..z with random kinds: each of them bound afresh, every other letter kept. */
  method BindAllLetters(reg: LetterRegistry, seed: uint32, randomParams: bool)
    requires reg.Valid()
    modifies reg
    ensures reg.Valid()
    ensures reg.bindings == BoundUpTo(old(reg.bindings), seed, randomParams, 26)
    ensures forall c :: c in reg.bindings <==> c in old(reg.bindings) || AmongFirst(c, 26)
    ensures forall c :: AmongFirst(c, 26) ==> c in reg.bindings && reg.bindings[c] == RandomBinding(seed, c, randomParams)
    ensures forall c :: c in old(reg.bindings) && !AmongFirst(c, 26) ==> reg.bindings[c] == old(reg.bindings)[c]
  {
    var n := 0;
    while n < 26
      invariant 0 <= n <= 26 && reg.Valid()
      invariant reg.bindings == BoundUpTo(old(reg.bindings), seed, randomParams, n)
    {
      var letter := NthLetter(n);
      var b := RandomBinding(seed, letter, randomParams);
      reg.Bind(letter, b.kind, b.params);
      n := n + 1;
    }
    BoundUpToEffect(old(reg.bindings), seed, randomParams, 26);
  }

  /** bind_all_letters_random: every letter gets its random kind with the kind's defaults. */
  method BindAllLettersRandom(reg: LetterRegistry, seed: uint32)
    requires reg.Valid()
    modifies reg
    ensures reg.Valid()
    ensures forall c :: AmongFirst(c, 26) ==>
              c in reg.bindings && reg.bindings[c] == Binding(RandomKind(seed, c), Defaults(RandomKind(seed, c)))
    ensures forall c :: c in old(reg.bindings) && !AmongFirst(c, 26) ==>
              c in reg.bindings && reg.bindings[c] == old(reg.bindings)[c]
  {
    BindAllLetters(reg, seed, false);
  }

  /** bind_all_letters_and_params_random: random kinds with drawn parameters. */
  method BindAllLettersAndParamsRandom(reg: LetterRegistry, seed: uint32)
    requires reg.Valid()
    modifies reg
    ensures reg.Valid()
    ensures forall c :: AmongFirst(c, 26) ==>
              c in reg.bindings && reg.bindings[c] == Binding(RandomKind(seed, c), RandomParams(seed, c))
    ensures forall c :: c in old(reg.bindings) && !AmongFirst(c, 26) ==>
              c in reg.bindings && reg.bindings[c] == old(reg.bindings)[c]
  {
    BindAllLetters(reg, seed, true);
  }
}
