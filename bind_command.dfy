/**
 * execute_bind_command: the `set <letter> <kind-or-key> [key value]...` command that rebinds
 * a letter or changes its parameters.
 */
module BindCommands {
  import opened Wrappers
  import opened Values
  import opened TextStreams
  import opened Registry

  /** A key and the value its token parsed to. */
  type KeyValue = (string, Value)

  /** A parse result with `kv` in front of the pairs it holds, or its error. */
  function Prepend(kv: seq<KeyValue>, r: Result<seq<KeyValue>, Error>): Result<seq<KeyValue>, Error> {
    match r
    case Ok(rest) => Ok(kv + rest)
    case Err(e) => Err(e)
  }

  /** One round of `ss >> k >> v`: no pair left, a value that does not parse, or the pair read. */
  datatype Step = Done | Failed(error: Error) | Read(pair: KeyValue, rest: string)

  function NextPair(s: string): (st: Step)
    ensures st.Read? ==> |st.rest| < |s|
  {
    var (k, r1) := ReadToken(s);
    if k == [] then Done
    else
      var (v, r2) := ReadToken(r1);
      if v == [] then Done
      else
        match ParseToken(v)
        case Err(e) => Failed(e)
        case Ok(x) => Read((k, x), r2)
  }

  /**
   * `while (ss >> k >> v) kv.emplace_back(k, parse_token(v))`: the pairs read from `s`, up to
   * the first key without a value; a value token that does not parse ends it with the error.
   */
  function CollectPairs(s: string): (r: Result<seq<KeyValue>, Error>)
    decreases |s|
  {
    match NextPair(s)
    case Done => Ok([])
    case Failed(e) => Err(e)
    case Read(p, rest) => Prepend([p], CollectPairs(rest))
  }

  /** `for (auto& [k, v] : kv) reg.set_param(letter, k, v)`: stops at the first error. */
  function ApplyPairs(bs: map<char, Binding>, letter: char, kv: seq<KeyValue>): (r: (map<char, Binding>, Option<Error>))
    requires WellTypedBindings(bs)
    ensures WellTypedBindings(r.0)
    decreases |kv|
  {
    if kv == [] then (bs, None)
    else
      var (bs1, e) := SetParamIn(bs, letter, kv[0].0, kv[0].1);
      if e.Some? then (bs1, e) else ApplyPairs(bs1, letter, kv[1..])
  }

  /** Finishing the command after its pairs were collected. */
  function ApplyCollected(bs: map<char, Binding>, letter: char, front: seq<KeyValue>,
                          collected: Result<seq<KeyValue>, Error>): (r: (map<char, Binding>, Option<Error>))
    requires WellTypedBindings(bs)
    ensures WellTypedBindings(r.0)
  {
    match collected
    case Err(e) => (bs, Some(e))
    case Ok(kv) => ApplyPairs(bs, letter, front + kv)
  }

  /**
   * The bindings after the command `line` and the error it stopped with, if any: only `set`
   * is a command, and it needs a letter after it.
   */
  function BindCommand(table: map<string, ProcKind>, bs: map<char, Binding>, line: string): (r: (map<char, Binding>, Option<Error>))
    requires WellTypedBindings(bs)
    ensures WellTypedBindings(r.0)
  {
    var (cmd, r1) := ReadToken(line);
    if cmd != "set" then (bs, Some(UnknownCommand))
    else
      match ReadChar(r1)
      case None => (bs, Some(IncompleteCommand))
      case Some((letter, r2)) => SetLetter(table, bs, letter, r2)
  }

  /**
   * The command after its letter. A first token that names a known kind, or any first token
   * when the letter is unbound, rebinds the letter with that kind's defaults before the pairs
   * after it are applied; otherwise the first token is a key and needs a value.
   */
  function SetLetter(table: map<string, ProcKind>, bs: map<char, Binding>, letter: char, s: string): (r: (map<char, Binding>, Option<Error>))
    requires WellTypedBindings(bs)
    ensures WellTypedBindings(r.0)
  {
    var (first, r3) := ReadToken(s);
    if first == [] then (bs, Some(IncompleteCommand))
    else if first in table || letter !in bs then Rebind(table, bs, letter, first, r3)
    else SetFirstKey(bs, letter, first, r3)
  }

  /** The letter bound to the kind named `name` with its defaults, then the pairs in `s` applied. */
  function Rebind(table: map<string, ProcKind>, bs: map<char, Binding>, letter: char, name: string, s: string): (r: (map<char, Binding>, Option<Error>))
    requires WellTypedBindings(bs)
    ensures WellTypedBindings(r.0)
  {
    var (bs1, e1) := BindByName(table, bs, letter, name, []);
    if e1.Some? then (bs1, e1) else ApplyCollected(bs1, letter, [], CollectPairs(s))
  }

  /** The first token taken as a key: its value is the next token, then the pairs after it. */
  function SetFirstKey(bs: map<char, Binding>, letter: char, key: string, s: string): (r: (map<char, Binding>, Option<Error>))
    requires WellTypedBindings(bs)
    ensures WellTypedBindings(r.0)
  {
    var (vTok, r4) := ReadToken(s);
    if vTok == [] then (bs, Some(KeyWithoutValue))
    else
      match ParseToken(vTok)
      case Err(e) => (bs, Some(e))
      case Ok(x) => ApplyCollected(bs, letter, [(key, x)], CollectPairs(r4))
  }

  /** The reading loop over the rest of the command. */
  method CollectKeyValues(s: string) returns (kv: seq<KeyValue>, err: Option<Error>)
    ensures err.None? ==> CollectPairs(s) == Ok(kv)
    ensures err.Some? ==> CollectPairs(s) == Err(err.value)
  {
    kv := [];
    err := None;
    var rest := s;
    PrependNothing(CollectPairs(s));
    while true
      invariant CollectPairs(s) == Prepend(kv, CollectPairs(rest))
      decreases |rest|
    {
      var st := NextPair(rest);
      if st.Done? {
        assert CollectPairs(rest) == Ok([]);
        assert kv + [] == kv;
        return;
      } else if st.Failed? {
        assert CollectPairs(rest) == Err(st.error);
        err := Some(st.error);
        return;
      }
      PrependTwice(kv, st.pair, CollectPairs(st.rest));
      kv := kv + [st.pair];
      rest := st.rest;
    }
  }

  lemma PrependNothing(r: Result<seq<KeyValue>, Error>)
    ensures Prepend([], r) == r
  {
    if r.Ok? {
      assert [] + r.value == r.value;
    }
  }

  lemma PrependTwice(kv: seq<KeyValue>, p: KeyValue, r: Result<seq<KeyValue>, Error>)
    ensures Prepend(kv, Prepend([p], r)) == Prepend(kv + [p], r)
  {
    if r.Ok? {
      assert kv + ([p] + r.value) == kv + [p] + r.value;
    }
  }

  /** The loop applying set_param to each collected pair in order. */
  method ApplyKeyValues(reg: LetterRegistry, letter: char, kv: seq<KeyValue>) returns (err: Option<Error>)
    requires reg.Valid()
    modifies reg
    ensures reg.Valid()
    ensures (reg.bindings, err) == ApplyPairs(old(reg.bindings), letter, kv)
  {
    var i := 0;
    while i < |kv|
      invariant 0 <= i <= |kv| && reg.Valid()
      invariant ApplyPairs(old(reg.bindings), letter, kv) == ApplyPairs(reg.bindings, letter, kv[i..])
    {
      assert kv[i..][1..] == kv[i + 1..];
      var e := reg.SetParam(letter, kv[i].0, kv[i].1);
      if e.Some? {
        return e;
      }
      i := i + 1;
    }
    err := None;
  }

  /** execute_bind_command(line): the registry changes as BindCommand says, and the error is its. */
  method ExecuteBindCommand(reg: LetterRegistry, types: TypeTable, line: string) returns (err: Option<Error>)
    requires reg.Valid()
    modifies reg
    ensures reg.Valid()
    ensures (reg.bindings, err) == BindCommand(types.table, old(reg.bindings), line)
  {
    var (cmd, r1) := ReadToken(line);
    if cmd != "set" {
      return Some(UnknownCommand);
    }
    var c := ReadChar(r1);
    if c.None? {
      return Some(IncompleteCommand);
    }
    err := ExecuteSet(reg, types, c.value.0, c.value.1);
  }

  method ExecuteSet(reg: LetterRegistry, types: TypeTable, letter: char, s: string) returns (err: Option<Error>)
    requires reg.Valid()
    modifies reg
    ensures reg.Valid()
    ensures (reg.bindings, err) == SetLetter(types.table, old(reg.bindings), letter, s)
  {
    var (first, r3) := ReadToken(s);
    if first == [] {
      return Some(IncompleteCommand);
    }
    var known := types.IsKnown(first);
    var bound := reg.IsBound(letter);
    if known || !bound {
      err := types.Bind(reg, letter, first, []);
      if err.None? {
        err := ExecuteRest(reg, letter, [], r3);
      }
    } else {
      var (vTok, r4) := ReadToken(r3);
      if vTok == [] {
        return Some(KeyWithoutValue);
      }
      var x := ParseToken(vTok);
      if x.Err? {
        return Some(x.error);
      }
      err := ExecuteRest(reg, letter, [(first, x.value)], r4);
    }
  }

  /** Collecting the remaining pairs, then applying them after `front`. */
  method ExecuteRest(reg: LetterRegistry, letter: char, front: seq<KeyValue>, s: string) returns (err: Option<Error>)
    requires reg.Valid()
    modifies reg
    ensures reg.Valid()
    ensures (reg.bindings, err) == ApplyCollected(old(reg.bindings), letter, front, CollectPairs(s))
  {
    var kv, e := CollectKeyValues(s);
    if e.Some? {
      return e;
    }
    err := ApplyKeyValues(reg, letter, front + kv);
  }

  // ---------------------------------------------------------------- properties

  /** `set <c> ...` is read as the command word, then the letter, then the rest of the line. */
  lemma SetCommandReadsLetter(table: map<string, ProcKind>, bs: map<char, Binding>, c: char, s: string)
    requires WellTypedBindings(bs) && !IsSpace(c)
    ensures BindCommand(table, bs, "set " + [c] + s) == SetLetter(table, bs, c, s)
  {
    var line := "set " + [c] + s;
    assert line == "set" + (" " + [c] + s);
    TokenLengthOfWord("set", " " + [c] + s);
    assert ReadToken(line) == ("set", " " + [c] + s);
    ReadCharAfterSpace(c, s);
  }

  /** A command whose first word is not `set` is refused and changes nothing. */
  lemma OnlySetIsACommand(table: map<string, ProcKind>, bs: map<char, Binding>, line: string)
    requires WellTypedBindings(bs) && ReadToken(line).0 != "set"
    ensures BindCommand(table, bs, line) == (bs, Some(UnknownCommand))
  {
  }

  /** `set <c>` with nothing after the letter is incomplete and changes nothing. */
  lemma SetWithoutNameIsIncomplete(table: map<string, ProcKind>, bs: map<char, Binding>, c: char)
    requires WellTypedBindings(bs) && !IsSpace(c)
    ensures BindCommand(table, bs, "set " + [c]) == (bs, Some(IncompleteCommand))
  {
    assert "set " + [c] + "" == "set " + [c];
    SetCommandReadsLetter(table, bs, c, "");
  }

  /** Nothing after the last word: no pairs to apply. */
  lemma NothingToApply(bs: map<char, Binding>, letter: char, front: seq<KeyValue>)
    requires WellTypedBindings(bs)
    ensures ApplyCollected(bs, letter, front, CollectPairs("")) == ApplyPairs(bs, letter, front)
  {
    assert CollectPairs("") == Ok([]);
    assert front + [] == front;
  }

  /** `set <c> <w>`, `w` one word: SetLetter with `w` and nothing after it. */
  lemma SetOneWord(table: map<string, ProcKind>, bs: map<char, Binding>, c: char, w: string)
    requires WellTypedBindings(bs) && !IsSpace(c) && IsWord(w)
    ensures BindCommand(table, bs, "set " + [c] + " " + w) == SetLetter(table, bs, c, " " + w)
    ensures ReadToken(" " + w) == (w, "")
  {
    assert "set " + [c] + " " + w == "set " + [c] + (" " + w);
    SetCommandReadsLetter(table, bs, c, " " + w);
    ReadTokenAfterSpace(w, "");
    assert " " + w + "" == " " + w;
  }

  /** `set <c> <kind>` binds the letter to the kind with exactly its defaults. */
  lemma SetKindBindsDefaults(table: map<string, ProcKind>, bs: map<char, Binding>, c: char, name: string)
    requires WellTypedBindings(bs) && !IsSpace(c) && IsWord(name) && name in table
    ensures BindCommand(table, bs, "set " + [c] + " " + name) == (bs[c := Binding(table[name], Defaults(table[name]))], None)
  {
    SetOneWord(table, bs, c, name);
    BindWithDefaults(table, bs, c, name);
    var bs1 := bs[c := Binding(table[name], Defaults(table[name]))];
    NothingToApply(bs1, c, []);
    assert Rebind(table, bs, c, name, "") == ApplyPairs(bs1, c, []);
  }

  /** `set <c> <name>` with a name that is no kind, on an unbound letter, fails as an unknown type. */
  lemma SetUnknownKindOnUnbound(table: map<string, ProcKind>, bs: map<char, Binding>, c: char, name: string)
    requires WellTypedBindings(bs) && !IsSpace(c) && IsWord(name) && name !in table && c !in bs
    ensures BindCommand(table, bs, "set " + [c] + " " + name) == (bs, Some(UnknownType))
  {
    SetOneWord(table, bs, c, name);
  }

  /** `set <c> <key>` on a bound letter, the key naming no kind, lacks its value. */
  lemma SetKeyWithoutValue(table: map<string, ProcKind>, bs: map<char, Binding>, c: char, key: string)
    requires WellTypedBindings(bs) && !IsSpace(c) && IsWord(key) && key !in table && c in bs
    ensures BindCommand(table, bs, "set " + [c] + " " + key) == (bs, Some(KeyWithoutValue))
  {
    SetOneWord(table, bs, c, key);
    assert ReadToken("") == ("", "");
  }

  /**
   * `set <c> <key> <n>` on a bound letter, the key naming no kind, is set_param with the
   * int n: the same bindings and the same error.
   */
  lemma SetKeyToInt(table: map<string, ProcKind>, bs: map<char, Binding>, c: char, key: string, n: int32)
    requires WellTypedBindings(bs) && !IsSpace(c) && IsWord(key) && key !in table && c in bs
    ensures BindCommand(table, bs, "set " + [c] + " " + key + " " + IntToString(n)) == SetParamIn(bs, c, key, IntVal(n))
  {
    var v := IntToString(n);
    assert IsWord(v) by {
      IntToStringHasNoSpace(n);
    }
    var line := "set " + [c] + " " + key + " " + v;
    assert line == "set " + [c] + (" " + key + (" " + v));
    SetCommandReadsLetter(table, bs, c, " " + key + (" " + v));
    ReadTokenAfterSpace(key, " " + v);
    SetFirstKeyToInt(bs, c, key, n);
  }

  /** A key followed by the rendering of an int, and nothing after it. */
  lemma SetFirstKeyToInt(bs: map<char, Binding>, c: char, key: string, n: int32)
    requires WellTypedBindings(bs)
    ensures SetFirstKey(bs, c, key, " " + IntToString(n)) == SetParamIn(bs, c, key, IntVal(n))
  {
    var v := IntToString(n);
    assert IsWord(v) by {
      IntToStringHasNoSpace(n);
    }
    ReadTokenAfterSpace(v, "");
    assert " " + v + "" == " " + v;
    ParseTokenOfInt(n);
    NothingToApply(bs, c, [(key, IntVal(n))]);
    var r := SetParamIn(bs, c, key, IntVal(n));
    assert ApplyPairs(r.0, c, []) == (r.0, None);
  }

  lemma IntToStringHasNoSpace(n: int32)
    ensures forall k :: 0 <= k < |IntToString(n)| ==> !IsSpace(IntToString(n)[k])
  {
    var s := IntToString(n);
    var m: nat := if n < 0 then -(n as int) else n;
    var j := if n < 0 then 1 else 0;
    assert s[j..] == NatToString(m);
    forall k | 0 <= k < |s|
      ensures !IsSpace(s[k])
    {
      if k >= j {
        assert s[k] == s[j..][k - j];
        assert IsDigit(s[j..][k - j]);
      }
    }
  }

  // ---------------------------------------------------------------- commands with pairs

  /** A key token and a value token, as they are typed after the letter. */
  type TokenPair = (string, string)

  predicate WordPairs(ps: seq<TokenPair>) {
    forall i :: 0 <= i < |ps| ==> IsWord(ps[i].0) && IsWord(ps[i].1)
  }

  /** The text ` k1 v1 k2 v2 ...` of the pairs, each token after one space. */
  function RenderPairs(ps: seq<TokenPair>): (s: string)
    ensures s == [] || IsSpace(s[0])
  {
    if ps == [] then "" else " " + ps[0].0 + " " + ps[0].1 + RenderPairs(ps[1..])
  }

  /** The pairs with their value tokens parsed in turn; the first that does not parse gives the error. */
  function ParsePairs(ps: seq<TokenPair>): Result<seq<KeyValue>, Error> {
    if ps == [] then Ok([])
    else
      match ParseToken(ps[0].1)
      case Err(e) => Err(e)
      case Ok(x) => Prepend([(ps[0].0, x)], ParsePairs(ps[1..]))
  }

  /**
   * The pairs parse exactly when every value token parses; then each key keeps its place and
   * has its token's value; otherwise the error is that of the first token that does not parse.
   */
  lemma {:induction false} ParsePairsMeaning(ps: seq<TokenPair>)
    ensures var r := ParsePairs(ps);
      && (r.Ok? <==> forall i :: 0 <= i < |ps| ==> ParseToken(ps[i].1).Ok?)
      && (r.Ok? ==> |r.value| == |ps| && forall i :: 0 <= i < |ps| ==> r.value[i] == (ps[i].0, ParseToken(ps[i].1).value))
      && (r.Err? ==> exists p :: 0 <= p < |ps| && ParseToken(ps[p].1) == Err(r.error)
                                 && forall i :: 0 <= i < p ==> ParseToken(ps[i].1).Ok?)
  {
    if ps != [] {
      ParsePairsMeaning(ps[1..]);
      var r := ParsePairs(ps);
      var t := ParseToken(ps[0].1);
      if t.Ok? {
        var rest := ParsePairs(ps[1..]);
        assert forall i :: 1 <= i < |ps| ==> ps[i] == ps[1..][i - 1];
        if rest.Err? {
          var p :| 0 <= p < |ps[1..]| && ParseToken(ps[1..][p].1) == Err(rest.error)
                   && forall i :: 0 <= i < p ==> ParseToken(ps[1..][i].1).Ok?;
          assert ParseToken(ps[p + 1].1) == Err(r.error);
        } else {
          assert r.value == [(ps[0].0, t.value)] + rest.value;
        }
      } else {
        assert ParseToken(ps[0].1) == Err(r.error);
      }
    }
  }

  /** One round of the reading loop over a rendered key and value. */
  lemma NextPairOfWords(k: string, v: string, rest: string)
    requires IsWord(k) && IsWord(v) && (rest == [] || IsSpace(rest[0]))
    ensures var t := ParseToken(v);
      NextPair(" " + k + " " + v + rest) == if t.Err? then Failed(t.error) else Read((k, t.value), rest)
  {
    assert " " + k + " " + v + rest == " " + k + (" " + v + rest);
    ReadTokenAfterSpace(k, " " + v + rest);
    ReadTokenAfterSpace(v, rest);
  }

  /** The reading loop takes a rendered key and value, then goes on with the rest. */
  lemma CollectStep(k: string, v: string, rest: string)
    requires IsWord(k) && IsWord(v) && (rest == [] || IsSpace(rest[0]))
    ensures var t := ParseToken(v);
      CollectPairs(" " + k + " " + v + rest) == if t.Err? then Err(t.error) else Prepend([(k, t.value)], CollectPairs(rest))
  {
    NextPairOfWords(k, v, rest);
  }

  /** The reading loop over rendered pairs takes the first pair, then goes on with the others. */
  lemma CollectRenderedStep(ps: seq<TokenPair>)
    requires ps != [] && WordPairs(ps)
    ensures WordPairs(ps[1..])
    ensures var t := ParseToken(ps[0].1);
      CollectPairs(RenderPairs(ps)) ==
        if t.Err? then Err(t.error) else Prepend([(ps[0].0, t.value)], CollectPairs(RenderPairs(ps[1..])))
  {
    assert forall i :: 0 <= i < |ps[1..]| ==> ps[1..][i] == ps[i + 1];
    CollectStep(ps[0].0, ps[0].1, RenderPairs(ps[1..]));
  }

  /** The reading loop over rendered pairs yields exactly their parses. */
  lemma {:induction false} CollectRendered(ps: seq<TokenPair>)
    requires WordPairs(ps)
    ensures CollectPairs(RenderPairs(ps)) == ParsePairs(ps)
  {
    if ps != [] {
      CollectRenderedStep(ps);
      CollectRendered(ps[1..]);
    }
  }

  /** The word after the letter decides between rebinding and setting a key. */
  lemma SetLetterOfWord(table: map<string, ProcKind>, bs: map<char, Binding>, c: char, w: string, rest: string)
    requires WellTypedBindings(bs) && IsWord(w) && (rest == [] || IsSpace(rest[0]))
    ensures SetLetter(table, bs, c, " " + w + rest) ==
      if w in table || c !in bs then Rebind(table, bs, c, w, rest) else SetFirstKey(bs, c, w, rest)
  {
    ReadTokenAfterSpace(w, rest);
  }

  /** Rebinding to a known kind: its defaults, then the pairs read from the rest. */
  lemma RebindKnown(table: map<string, ProcKind>, bs: map<char, Binding>, c: char, name: string, rest: string)
    requires WellTypedBindings(bs) && name in table
    ensures Rebind(table, bs, c, name, rest) ==
      ApplyCollected(bs[c := Binding(table[name], Defaults(table[name]))], c, [], CollectPairs(rest))
  {
    BindWithDefaults(table, bs, c, name);
  }

  /** A key's value token, then the pairs read from the rest. */
  lemma SetFirstKeyOfWord(bs: map<char, Binding>, c: char, key: string, v: string, rest: string)
    requires WellTypedBindings(bs) && IsWord(v) && (rest == [] || IsSpace(rest[0]))
    ensures var t := ParseToken(v);
      SetFirstKey(bs, c, key, " " + v + rest) ==
        if t.Err? then (bs, Some(t.error)) else ApplyCollected(bs, c, [(key, t.value)], CollectPairs(rest))
  {
    ReadTokenAfterSpace(v, rest);
  }

  /**
   * `set <c> <kind> k1 v1 ... kn vn`: the letter is bound to the kind with its defaults, then
   * the pairs are applied in order, stopping at the first error; a value token that does not
   * parse stops the command before any pair is applied, and the new binding stays.
   */
  lemma SetKindThenPairs(table: map<string, ProcKind>, bs: map<char, Binding>, c: char, name: string, ps: seq<TokenPair>)
    requires WellTypedBindings(bs) && !IsSpace(c) && IsWord(name) && name in table && WordPairs(ps)
    ensures var bs1 := bs[c := Binding(table[name], Defaults(table[name]))];
      var parsed := ParsePairs(ps);
      BindCommand(table, bs, "set " + [c] + " " + name + RenderPairs(ps)) ==
        if parsed.Err? then (bs1, Some(parsed.error)) else ApplyPairs(bs1, c, parsed.value)
  {
    SetKindLine(table, bs, c, name, RenderPairs(ps));
    CollectRendered(ps);
    var parsed := ParsePairs(ps);
    if parsed.Ok? {
      assert [] + parsed.value == parsed.value;
    }
  }

  /** `set <c> <kind>` and the rest of the line: the defaults, then the pairs read from the rest. */
  lemma SetKindLine(table: map<string, ProcKind>, bs: map<char, Binding>, c: char, name: string, rest: string)
    requires WellTypedBindings(bs) && !IsSpace(c) && IsWord(name) && name in table && (rest == [] || IsSpace(rest[0]))
    ensures BindCommand(table, bs, "set " + [c] + " " + name + rest) ==
      ApplyCollected(bs[c := Binding(table[name], Defaults(table[name]))], c, [], CollectPairs(rest))
  {
    var after := " " + name + rest;
    assert "set " + [c] + " " + name + rest == "set " + [c] + after;
    SetCommandReadsLetter(table, bs, c, after);
    SetLetterOfWord(table, bs, c, name, rest);
    RebindKnown(table, bs, c, name, rest);
  }

  /**
   * `set <c> <key> <v> k1 v1 ... kn vn` on a bound letter, the key naming no kind: every value
   * token is parsed first, and a token that does not parse changes nothing; otherwise the
   * pairs, the first one included, are applied in order, stopping at the first error.
   */
  lemma SetKeyThenPairs(table: map<string, ProcKind>, bs: map<char, Binding>, c: char, key: string, v: string,
                        ps: seq<TokenPair>)
    requires WellTypedBindings(bs) && !IsSpace(c) && IsWord(key) && key !in table && c in bs
    requires IsWord(v) && WordPairs(ps)
    ensures var parsed := ParsePairs([(key, v)] + ps);
      BindCommand(table, bs, "set " + [c] + RenderPairs([(key, v)] + ps)) ==
        if parsed.Err? then (bs, Some(parsed.error)) else ApplyPairs(bs, c, parsed.value)
  {
    var all := [(key, v)] + ps;
    assert all[1..] == ps;
    var rest := RenderPairs(ps);
    var afterKey := " " + v + rest;
    assert RenderPairs(all) == " " + key + afterKey;
    SetCommandReadsLetter(table, bs, c, RenderPairs(all));
    SetLetterOfWord(table, bs, c, key, afterKey);
    SetFirstKeyOfWord(bs, c, key, v, rest);
    CollectRendered(ps);
    var t := ParseToken(v);
    assert ParsePairs(all) == if t.Err? then Err(t.error) else Prepend([(key, t.value)], ParsePairs(ps));
  }

  /** `set <c> <name> ...` with a name that is no kind, on an unbound letter: nothing after it is read. */
  lemma SetUnknownNameOnUnbound(table: map<string, ProcKind>, bs: map<char, Binding>, c: char, name: string, ps: seq<TokenPair>)
    requires WellTypedBindings(bs) && !IsSpace(c) && IsWord(name) && name !in table && c !in bs
    ensures BindCommand(table, bs, "set " + [c] + " " + name + RenderPairs(ps)) == (bs, Some(UnknownType))
  {
    var rest := RenderPairs(ps);
    assert "set " + [c] + " " + name + rest == "set " + [c] + (" " + name + rest);
    SetCommandReadsLetter(table, bs, c, " " + name + rest);
    ReadTokenAfterSpace(name, rest);
  }

  /** `set <c> <kind> <key> -`: the value does not parse, yet the letter stays rebound. */
  lemma RebindKeptOnBadValue(table: map<string, ProcKind>, bs: map<char, Binding>, c: char, name: string, key: string)
    requires WellTypedBindings(bs) && !IsSpace(c) && IsWord(name) && name in table && IsWord(key)
    ensures BindCommand(table, bs, "set " + [c] + " " + name + " " + key + " -")
            == (bs[c := Binding(table[name], Defaults(table[name]))], Some(InvalidArgument))
  {
    var ps := [(key, "-")];
    assert RenderPairs(ps) == " " + key + " -" by {
      assert ps[1..] == [];
    }
    assert "set " + [c] + " " + name + " " + key + " -" == "set " + [c] + " " + name + RenderPairs(ps);
    assert SkipSpace("-", 0) == 0;
    assert DigitRunEnd("-", 1) == 1;
    assert !HasFloatMark("-");
    assert ParseToken("-") == Err(InvalidArgument);
    SetKindThenPairs(table, bs, c, name, ps);
  }
}
