# Letter-graph synthesiser core, modelled in Dafny

The program turns a line of letters such as `x(ab) c` into a JUCE audio-processor graph.
Each letter is bound to a processor kind. A kind is one of five oscillators, three effects
or a MIDI beat pulse, and each letter has its own typed parameter tuple. Parentheses put
the letters inside them under the control of the pulse letter before them.

At run time a pulse emits a note at the start of every cycle. The note's velocity carries a
round-robin "slot". Each child answers only to the slot the graph compiler gave it, so the
children of one pulse take turns.

The model covers four pieces:

- **The letter registry** (`Values`, `TextStreams`, `Registry`, `RandomBinds`,
  `BindCommands`). It holds:
  - the parameter variant and its conversions (`value_cast`, `parse_token`, and the parts
    of `std::stoi`/`std::stod` they use);
  - tuple assignment;
  - the bindings map and the name-to-kind table;
  - the deterministic pseudo-random initial bindings;
  - the `set <letter> ...` command interpreter.

  `LetterRegistry` and `TypeTable` are classes whose `bindings`/`table` maps are updated
  in place. `Binding::create` copies the tuple: a processor is a value made from the
  binding, so a later `set_param` cannot reach a processor created earlier.
- **The graph compiler** (`ParseLine`, `ParseLineProperties`). `Parser` is a class.
  - Its fields are the processors it created, the graph's nodes and connections, the
    audio output, the pulse stack and the parenthesis depth.
  - Each method is proved against the function that specifies it: `CharStep` for one
    character, `WordResult` for `initialize_word`, `LineResult` for `parse_and_initialize`.
  - The lemmas prove four things: one node per letter, no audio into or out of a pulse,
    the slot each letter claims on its enclosing pulse, and which siblings share a slot.
- **The MIDI beat pulse** (`Midi`, `Pulses`, `PulseProperties`). `MidiBeatPulse` is a class
  whose `ProcessBlock` keeps the per-sample loop of `processBlock`.
  - The loop is proved against `AfterBlock`, a function over the settings and the timing
    state.
  - The lemmas about `AfterBlock` state what the pulse promises: alternating notes, the
    schedule, the forced note-off, the parent gate, MIDI thru, and the round-robin slot.
- **The oscillator gate** (`Oscillators`). `Oscillator` is a class.
  - Its setters and `HandleMidi` are proved against the `OscGate` value functions.
  - `ProcessBlock` is proved against `BlockTrace`, the sequence of render and handle steps
    of the loop in `processBlock`.
  - The lemmas show that the rendered segments tile the block and that each message is
    handled where its position cuts the block.

Modelling choices:

- **Numbers.**
  - Doubles are exact reals.
  - `int` parameters are a 32-bit subtype.
  - The `uint8` casts, the `unsigned` arithmetic of the random initialiser and the
    `size_t` depth are reduced modulo 2^8, 2^32 and 2^64.
- **Undefined behaviour becomes an error value.** Three cases in the C++ code are
  undefined:
  - `)` on an empty stack;
  - a depth that reaches past the stack;
  - a `static_cast<int>` of an out-of-range double.

  Each returns an error before anything changes.
- **Exceptions.** Every `throw` of the C++ code returns an `Error` value: `Result` for
  functions, an `Option<Error>` out-parameter for methods.

Three behaviours of the code are worth stating plainly:
- A word boundary re-arms the slot claim (`need_to_inc` is set afresh in each
  `initialize_word`), so in "x(a b)" the oscillators a and b take different slots
  (`ParseLineProperties.WordsTakeSeparateSlots`).
- Registering a processor type under an existing name replaces the earlier registration;
  it is not an error (`Registry.TypeTable.RegisterType`).
- The random initialisers bind all 26 letters a..z, including letters already bound
  (`RandomBinds.BindAllLetters`).

## Model

| member | source | states |
|---|---|---|
| Wrappers.ToByte | App/midi_pulse.h:71 | the `static_cast<uint8>` of an int is its value modulo 256, in 0..255 |
| Values.StoI | App/letter_binds.h:47-48 | `std::stoi` fails only with invalid-argument (no digits) or out-of-range (outside int) |
| Values.StoD | App/letter_binds.h:49-50 | `std::stod` on a decimal literal fails only with invalid-argument |
| Values.TruncateTowardZero | App/letter_binds.h:45-46 | `static_cast<int>(double)` drops the fraction towards zero, for positive and negative values |
| Values.ValueCast | App/letter_binds.h:38-54 | same alternative unchanged; int to double exact; double to int is the value truncated towards zero, failing with the undefined-conversion error exactly when that is outside int; text to int is `stoi` and text to double is `stod`, with their value on success and their error on failure; anything else to text is a type mismatch; a success always has the target type |
| Values.StoIRoundTrip | App/letter_binds.h:47-48 | `stoi` reads every int's decimal rendering back as that int |
| Values.StoDOfIntToString | App/letter_binds.h:49-50 | `stod` reads an integer's decimal rendering as that integer |
| Values.IntDoubleRoundTrip | App/letter_binds.h:45-46 | an int cast to double and back is unchanged |
| Values.TextToIntRoundTrip | App/letter_binds.h:47-48 | text holding an int's rendering casts to that int |
| Values.ParseToken | App/letter_binds.h:513-522 | a token not starting with a digit, `-` or `+` stays text; a numeric token holding `.`, `e` or `E` is the double `stod` reads and any other numeric token the int `stoi` reads; a failure is exactly their failure, with their error |
| Values.ParseTokenOfInt | App/letter_binds.h:513-522 | the rendering of any int parses back as that int |
| Values.DigitsValueOfNatToString | App/letter_binds.h:47-48 | the digits of a natural number's rendering denote that number |
| Values.NatToString | App/letter_binds.h:47-48 | the decimal rendering `stoi` reads: non-empty and all digits; its partner is `DigitsValueOfNatToString` |
| Values.IntToString | App/letter_binds.h:47-48 | an int's rendering, with `-` before a negative one: non-empty; its partner is `StoIRoundTrip` |
| TextStreams.TrimLeft | App/letter_binds.h:526-534 | the unread text after the leading white space: a suffix starting with no space, everything before it space |
| TextStreams.ReadToken | App/letter_binds.h:527 | `stream >> string` yields a non-empty word and advances past it, and yields nothing exactly when only white space is left |
| TextStreams.ReadChar | App/letter_binds.h:531 | `stream >> char` yields the next non-space character, or nothing when only white space is left |
| TextStreams.Words | App/parse_line.h:151-158 | the tokens `while (stream >> word)` visits, each a non-empty word without spaces |
| TextStreams.ReadTokenOfWord | App/parse_line.h:155 | reading a token in front of a space takes exactly that word |
| TextStreams.SameTrimSameWords | App/parse_line.h:151-158 | the words depend only on the text left after leading white space |
| TextStreams.WordsSkipSpace | App/parse_line.h:151-158 | leading white space does not change the words |
| TextStreams.WordsOfWordThenSpace | App/parse_line.h:151-158 | a word followed by a space comes first, then the words of the rest |
| TextStreams.WordsUnwords | App/parse_line.h:151-158 | splitting space-joined words gives exactly those words back |
| TextStreams.ReadTokenAfterSpace | App/letter_binds.h:534 | after one space a word is read whole, the rest left unread |
| TextStreams.ReadCharAfterSpace | App/letter_binds.h:531 | after one space the next character is the letter read |
| TextStreams.TokenLengthOfWord | App/letter_binds.h:534 | a token ends exactly where its word ends |
| Registry.ParamNames | App/letter_binds.h:79-106 | each kind has at least one parameter name, and no name repeats |
| Registry.ParamKinds | App/letter_binds.h:80-107 | one int/double type per name, never text |
| Registry.Defaults | App/letter_binds.h:81-108 | each kind's defaults are a tuple of its parameter types |
| Registry.DefaultsOfEachKind | App/letter_binds.h:76-108 | the defaults: note 66 for each of the five oscillators, filter 2000.0, delay 0.5 four times, reverb 0.5, 0.4, 0.5, 0.5, 0.2, pulse 120.0, 1, 1 |
| Registry.AssignTuple | App/letter_binds.h:57-69 | assigning values keeps the tuple's length |
| Registry.AssignTupleStops | App/letter_binds.h:57-69 | assignment stops at some position p: before p the cast values, elsewhere the old ones; it stops at the end of the shorter sequence exactly when no cast failed, else with the failing cast's error |
| Registry.AssignTupleOverwrites | App/letter_binds.h:57-69 | only positions below min(N, number of values) are overwritten; on success they hold the cast values, after a failure the failing position onwards is untouched |
| Registry.AssignTupleWellTyped | App/letter_binds.h:57-69 | the tuple keeps its element types |
| Registry.AssignNothing | App/letter_binds.h:63 | no values leave the tuple as it is |
| Registry.Create | App/letter_binds.h:136-139 | the processor made from a binding has the binding's kind; an oscillator gets the clamped note, a pulse the constructor's settings from bpm/on/off, an effect its tuple |
| Registry.Instantiate | App/letter_binds.h:193-198 | `initialize` fails with "unknown letter" exactly when the letter is unbound, else creates the binding's processor |
| Registry.SetParamsIn | App/letter_binds.h:200-207 | `set_params` on an unbound letter changes nothing and reports it; on a bound letter only that letter's tuple changes, its kind kept, to the tuple `assign_tuple` leaves, with `assign_tuple`'s error |
| Registry.SetParamsPartial | App/letter_binds.h:200-207 | on a bound letter the positions below the shorter of the tuple and the values get the cast values when every cast succeeds; after a failed cast the error is that cast's and the positions from it on keep their old values; positions past the values are never written |
| Registry.FindFromEnd | App/letter_binds.h:170-176 | the key's position searching down from i, the highest match, or none when absent |
| Registry.ParamIndex | App/letter_binds.h:146-151 | a found index names the key; nothing found exactly when the key names no parameter |
| Registry.WithParam | App/letter_binds.h:146-182 | a successful `Binding::set_param` keeps the tuple well typed |
| Registry.WithParamOnlyKey | App/letter_binds.h:146-182 | an unknown key fails with "unknown parameter name"; on success only the named parameter changes, to the cast value, and the kind is kept |
| Registry.SetParamIn | App/letter_binds.h:209-214 | the bindings stay well typed, and success implies the letter was bound |
| Registry.SetParamOnlyKey | App/letter_binds.h:146-214 | unbound letter: "unknown letter"; unknown key: "unknown parameter name"; failed cast: the cast's own error; in each case nothing changes; a bound letter with a known key and a cast that succeeds always succeeds, and then only the letter's named parameter changes, to the cast value |
| Registry.SetParamReadsBack | App/letter_binds.h:177-182 | a parameter set to a value of its own type reads back as that value |
| Registry.InsertSorted | App/letter_binds.h:279-287 | inserting a letter gives the old letters plus it |
| Registry.InsertSortedKeepsOrder | App/letter_binds.h:285 | inserting a new letter into a strictly sorted list keeps it strictly sorted |
| Registry.LetterRegistry.constructor | App/letter_binds.h:294 | no letter is bound |
| Registry.LetterRegistry.Bind | App/letter_binds.h:186-191 | the letter is bound afresh, replacing any earlier binding; every other letter is kept |
| Registry.LetterRegistry.Initialize | App/letter_binds.h:193-198 | returns what Instantiate says |
| Registry.LetterRegistry.SetParams | App/letter_binds.h:200-207 | the bindings and the error are what SetParamsIn says |
| Registry.LetterRegistry.SetParam | App/letter_binds.h:209-214 | the bindings and the error are what SetParamIn says |
| Registry.LetterRegistry.GetTypeInfo | App/letter_binds.h:216-221 | the bound kind, or "unknown letter" exactly when unbound |
| Registry.LetterRegistry.IsBound | App/letter_binds.h:291 | true exactly when the letter is bound |
| Registry.LetterRegistry.GetBoundLetters | App/letter_binds.h:279-287 | exactly the bound letters, strictly ascending, so each once |
| Registry.BindByName | App/letter_binds.h:368-385 | an unknown name fails with "unknown processor type" and changes nothing; otherwise only the letter is (re)bound to the named kind, well typed; a failure changes nothing; the values it gets are stated by `BindByNamePartial` |
| Registry.BindWithDefaults | App/letter_binds.h:373-376 | binding a known kind with no values gives exactly its defaults |
| Registry.BindByNamePartial | App/letter_binds.h:368-385 | binding a known kind with values: on success the letter has that kind, a tuple as long as its defaults, the cast values below the shorter of the tuple and the values and the defaults after them; on failure the bindings are unchanged and the error is the failing cast's, at a position within the values |
| Registry.StandardTableNamesEveryKindOnce | App/letter_binds.h:615-625 | the nine registrations name every kind, each under one name |
| Registry.TypeTable.constructor | App/letter_binds.h:392-395 | the table starts empty |
| Registry.TypeTable.RegisterType | App/letter_binds.h:362-378 | the name now binds to the kind, replacing an earlier registration |
| Registry.TypeTable.Standard | App/letter_binds.h:615-625 | the table after the nine static registrations |
| Registry.TypeTable.RegisterAll | App/letter_binds.h:616-624 | the nine registrations, in source order |
| Registry.TypeTable.IsKnown | App/letter_binds.h:387-390 | true exactly when the name is registered |
| Registry.TypeTable.Bind | App/letter_binds.h:380-385 | the registry changes as BindByName says |
| RandomBinds.Lcg | App/letter_binds.h:297-301 | the LCG value is below 2^31; the `& 0x7fffffff` of the C++ code is the remainder modulo 2^31 (see `MaskIsModulo`) |
| RandomBinds.LcgExamples | App/letter_binds.h:300 | the LCG at 0, 1 and 2, computed in 32-bit unsigned arithmetic |
| RandomBinds.MaskIsModulo | App/letter_binds.h:300 | on any 32-bit unsigned value, masking with 0x7fffffff equals the remainder modulo 2^31 |
| RandomBinds.HashExamples | App/letter_binds.h:304-306 | the hash of "" is 5381 and of "a" is 5381·33 xor 97 |
| RandomBinds.HashString | App/letter_binds.h:304-306 | no contract; reference definition of `hash_string` in 32-bit unsigned arithmetic. The code promises nothing about it beyond its definition; `HashExamples` only works two inputs through it |
| RandomBinds.CompileTimeSeed | App/letter_binds.h:309-311 | no contract; the xor of the two hashes, with the texts of `__TIME__` and `__DATE__` as inputs |
| RandomBinds.RandomKind | App/letter_binds.h:344-349 | no contract; reference definition of the kind a letter draws, see `AllKindsListsEveryKind` and `BindAllLettersRandom` |
| RandomBinds.ParamRand | App/letter_binds.h:460 | no contract; reference definition of the LCG value parameter I draws, see `RandomParamBounds` |
| RandomBinds.AllKindsListsEveryKind | App/letter_binds.h:338-341 | the kind list holds every kind exactly once |
| RandomBinds.RandomParam | App/letter_binds.h:457-489 | a drawn parameter has its declared type |
| RandomBinds.RandomParamBounds | App/letter_binds.h:462-485 | pulse beats 1..8, bpm 60..179, oscillator note 36..83, filter cutoff 200..7999, delay time 0.1..1.999, other parameters 0..0.999 |
| RandomBinds.RandomParams | App/letter_binds.h:491-499 | the drawn tuple is well typed for the letter's random kind |
| RandomBinds.RandomBinding | App/letter_binds.h:416-511 | the letter gets its random kind (LCG value modulo 9), with defaults or drawn parameters |
| RandomBinds.AmongFirstNext | App/letter_binds.h:436-437 | the first n+1 letters are the first n and the next one |
| RandomBinds.BoundUpToEffect | App/letter_binds.h:429-432 | after the first n letters: exactly the old letters and those n are bound; each of the n has its random binding; the others are kept |
| RandomBinds.BindAllLetters | App/letter_binds.h:429-448 | a..z each get their random binding; every other letter keeps its binding; nothing else is bound |
| RandomBinds.BindAllLettersRandom | App/letter_binds.h:435-438 | a..z get their random kind with that kind's defaults; other letters are kept |
| RandomBinds.BindAllLettersAndParamsRandom | App/letter_binds.h:445-448 | a..z get their random kind with drawn parameters; other letters are kept |
| BindCommands.NextPair | App/letter_binds.h:549 | a pair read consumes input |
| BindCommands.CollectPairs | App/letter_binds.h:548-550 | no contract; reference definition of `while (ss >> k >> v)`, see `CollectKeyValues` and `CollectRendered` |
| BindCommands.CollectKeyValues | App/letter_binds.h:548-550 | the reading loop collects exactly the pairs CollectPairs says, or stops with its error |
| BindCommands.PrependNothing | App/letter_binds.h:540 | nothing collected in front leaves the result as it is |
| BindCommands.PrependTwice | App/letter_binds.h:561-566 | collecting a pair, then the rest, is collecting both in front of the rest |
| BindCommands.ApplyPairs | App/letter_binds.h:570-571 | applying the pairs keeps the bindings well typed |
| BindCommands.ApplyKeyValues | App/letter_binds.h:570-571 | the loop applies set_param to each pair in order, stopping at the first error, as ApplyPairs says |
| BindCommands.ApplyCollected | App/letter_binds.h:569-571 | a collection error is reported with the bindings as they are; otherwise the pairs are applied in order; the bindings stay well typed (see `SetKindLine`) |
| BindCommands.BindCommand | App/letter_binds.h:524-572 | a command keeps the bindings well typed (what each command does is stated by the lemmas on command lines below) |
| BindCommands.ExecuteBindCommand | App/letter_binds.h:524-572 | the registry changes as BindCommand says and the error is BindCommand's |
| BindCommands.ExecuteSet | App/letter_binds.h:531-572 | the rest of the command after `set`, as SetLetter says |
| BindCommands.ExecuteRest | App/letter_binds.h:548-571 | the pairs are collected, then applied after the ones in front |
| BindCommands.SetLetter | App/letter_binds.h:534-572 | the command after its letter keeps the bindings well typed (see SetLetterOfWord) |
| BindCommands.Rebind | App/letter_binds.h:542-551 | rebinding, then applying the pairs, keeps the bindings well typed (see RebindKnown) |
| BindCommands.SetFirstKey | App/letter_binds.h:552-567 | treating the first token as a key keeps the bindings well typed (see SetFirstKeyOfWord) |
| BindCommands.SetCommandReadsLetter | App/letter_binds.h:526-531 | `set <c> ...` reads the command word, then the letter, then the rest |
| BindCommands.OnlySetIsACommand | App/letter_binds.h:527-529 | any first word but `set` fails as an unknown command and changes nothing |
| BindCommands.SetWithoutNameIsIncomplete | App/letter_binds.h:534-536 | `set <c>` with nothing more is incomplete and changes nothing |
| BindCommands.NothingToApply | App/letter_binds.h:549 | with nothing left only the pairs in front are applied |
| BindCommands.SetOneWord | App/letter_binds.h:531-534 | `set <c> <w>` is SetLetter on the single word w |
| BindCommands.SetKindBindsDefaults | App/letter_binds.h:538-545 | `set <c> <kind>` binds the letter to the kind with exactly its defaults |
| BindCommands.SetUnknownKindOnUnbound | App/letter_binds.h:538-551 | an unbound letter with a name that is no kind fails as an unknown type and changes nothing |
| BindCommands.SetKeyWithoutValue | App/letter_binds.h:552-560 | a key with no value on a bound letter fails and changes nothing |
| BindCommands.SetKeyToInt | App/letter_binds.h:552-571 | `set <c> <key> <n>` on a bound letter is set_param of the int n, the same bindings and the same error |
| BindCommands.SetFirstKeyToInt | App/letter_binds.h:558-571 | a key then an int rendering is set_param of that int |
| BindCommands.IntToStringHasNoSpace | App/letter_binds.h:558 | an int's rendering is a single token |
| BindCommands.RenderPairs | App/letter_binds.h:549 | the typed text ` k1 v1 ... kn vn` is empty or starts with a space; its partner is `CollectRendered` |
| BindCommands.ParsePairs | App/letter_binds.h:550 | no contract; reference definition of parsing each value token in turn, see `ParsePairsMeaning` |
| BindCommands.NextPairOfWords | App/letter_binds.h:549 | one `ss >> k >> v` over a rendered key and value reads them and parses the value, or fails with the value's parse error |
| BindCommands.ParsePairsMeaning | App/letter_binds.h:548-550 | the typed pairs parse exactly when every value token parses; then each key keeps its place with its token's value; otherwise the error is that of the first token that does not parse |
| BindCommands.CollectStep | App/letter_binds.h:549 | one round of `ss >> k >> v` over a key and a value word takes that pair, or stops with the value's parse error |
| BindCommands.CollectRenderedStep | App/letter_binds.h:548-550 | the reading loop over typed pairs takes the first pair, then reads the others |
| BindCommands.CollectRendered | App/letter_binds.h:548-550 | the reading loop over ` k1 v1 ... kn vn` yields exactly the parsed pairs, or the first parse error |
| BindCommands.SetLetterOfWord | App/letter_binds.h:534-552 | the word after the letter rebinds when it names a kind or the letter is unbound, and is a key otherwise |
| BindCommands.RebindKnown | App/letter_binds.h:542-551 | a known kind binds the letter with its defaults before the pairs after it are read and applied |
| BindCommands.SetFirstKeyOfWord | App/letter_binds.h:552-567 | a key's value token is parsed first; if it fails nothing changes, else it goes in front of the pairs read after it |
| BindCommands.SetKindLine | App/letter_binds.h:524-551 | `set <c> <kind> ...` binds c to the kind's defaults, then collects and applies the rest |
| BindCommands.SetKindThenPairs | App/letter_binds.h:524-572 | `set <c> <kind> k1 v1 ... kn vn` binds c to the kind with its defaults and applies the pairs in order, stopping at the first error; a value token that does not parse stops it before any pair is applied, and the new binding stays |
| BindCommands.SetKeyThenPairs | App/letter_binds.h:524-572 | `set <c> <key> <v> k1 v1 ...` on a bound letter, the key naming no kind: a value token that does not parse changes nothing; otherwise all pairs, the first one included, are applied in order, stopping at the first error |
| BindCommands.SetUnknownNameOnUnbound | App/letter_binds.h:538-551 | `set <c> <name> ...` with a name that is no kind, on an unbound letter, fails as an unknown type and changes nothing, whatever follows |
| BindCommands.RebindKeptOnBadValue | App/letter_binds.h:542-551 | `set <c> <kind> <key> -`: the value fails to parse with invalid-argument, yet c stays bound to the kind with its defaults |
| Midi.Messages | App/midi_pulse.h:118 | the messages of a buffer, in order |
| Midi.IsNoteOn | App/oscillators.h:178 | no contract; JUCE's `isNoteOn`, which ignores a zero velocity, see `NoteOnOffRule` |
| Midi.IsNoteOff | App/oscillators.h:181 | no contract; JUCE's `isNoteOff`, which includes a note-on with velocity 0, see `NoteOnOffRule` |
| Midi.NoteOnOffRule | App/oscillators.h:178-181 | no message is both a note-on and a note-off; a note-on message is one of them according to whether its velocity is 0; other kinds are neither |
| Midi.NonNoteVelocity | App/oscillators.h:173 | a well-formed message that is not a note has velocity 0, so it matches only a receiver awaiting 0 |
| Midi.AddEvent | App/midi_pulse.h:142-184 | adding an event adds exactly one |
| Midi.AddEventMultiset | App/midi_pulse.h:142-184 | addEvent loses nothing and invents nothing |
| Midi.AddEventKeepsOrder | App/midi_pulse.h:142-184 | addEvent keeps a buffer sorted by position |
| Midi.AddEventAtEnd | App/midi_pulse.h:162 | an event no earlier than all others goes at the end |
| Midi.AddEvents | App/midi_pulse.h:182-186 | adding events adds exactly that many |
| Midi.AddEventsMultiset | App/midi_pulse.h:182-186 | the forwarding loop's output is the old buffer plus the added events |
| Midi.AddEventsKeepsOrder | App/midi_pulse.h:182-186 | the forwarding loop keeps the buffer sorted |
| Pulses.PulseSettings.IncConnections | App/midi_pulse.h:54-60 | the connection count grows by i; nothing else changes |
| Pulses.PulseSettings.WithGating | App/midi_pulse.h:194-197 | only the gating flag is set |
| Pulses.PulseSettings.WithListening | App/midi_pulse.h:66-68 | only the listening flag is set |
| Pulses.PulseSettings.WithListeningVelocity | App/midi_pulse.h:70-72 | the listened slot is the value modulo 256, the value itself when it fits a byte; nothing else changes |
| Pulses.ClampBeats | App/midi_pulse.h:34-35 | a positive beat count is kept, any other becomes 0 |
| Pulses.NewPulseSettings | App/midi_pulse.h:27-36 | the constructor clamps the beats, connects nothing, gates nothing, and listens to slot 1 |
| Pulses.SamplesPerBeat | App/midi_pulse.h:81-84 | 0 unless both bpm and sample rate are positive |
| Pulses.SamplesPerBeatTruncates | App/midi_pulse.h:82 | otherwise the beat length in samples rounded down |
| Pulses.SamplesPerBeatExample | App/midi_pulse.h:81-84 | 48000 Hz at 120 bpm gives 24000; bpm 0 gives 0 |
| Pulses.SlotInRange | App/midi_pulse.h:155 | with fewer than 256 connections the slot is 1 when none are counted, else loopCount mod n + 1, within 1..n |
| Pulses.SlotVelocity | App/midi_pulse.h:155 | no contract; reference definition of the slot, cast to `uint8`, see `SlotInRange` and `PulseProperties.RoundRobin` |
| Pulses.Prepared | App/midi_pulse.h:78-96 | no contract; reference definition of the state after `prepareToPlay`, see `PulseProperties.PrepareResets` |
| Pulses.GateAfter | App/midi_pulse.h:120-133 | no contract; reference definition of the parent gate after a message, see `GateAfterEffect` |
| Pulses.GateAfterEffect | App/midi_pulse.h:116-137 | without gating the gate is untouched; with gating a note-on opens it, a note-off or all-notes/all-sound-off closes it, and while listening a velocity other than the awaited slot closes it |
| Pulses.Consume | App/midi_pulse.h:116-137 | the inner loop reads forward within the buffer |
| Pulses.ConsumeReadsRun | App/midi_pulse.h:116-137 | the inner loop reads exactly the run of messages at the current sample, and leaves the gate alone without gating |
| Pulses.Transition | App/midi_pulse.h:147-179 | one boundary flips the cycle state, moves the next change by the phase's duration, and keeps durations, clock and gate |
| Pulses.TransitionEffect | App/midi_pulse.h:149-178 | on AWAITING: loopCount counts up except on the first cycle, velocity is the slot, a note-on goes out only with beats on, the gate permitting and no note sounding; on NOTE_IS_ON: a note-off only if our note sounds |
| Pulses.Boundaries | App/midi_pulse.h:147-179 | the boundary loop ends with no change due at this sample, does nothing when none was due, and keeps durations, clock and gate |
| Pulses.AfterSample | App/midi_pulse.h:113-180 | one sample reads forward in the buffer and keeps durations and clock |
| Pulses.SamplesFrom | App/midi_pulse.h:113-180 | the per-sample loop reads forward in the buffer and keeps durations and clock |
| Pulses.AfterBlock | App/midi_pulse.h:98-190 | the clock grows by blockSize; an inert pulse forwards the buffer untouched and makes nothing; otherwise the output is the generated notes plus every message not read |
| Pulses.MidiBeatPulse.constructor | App/midi_pulse.h:27-36 | settings as NewPulseSettings, the initial timing state, sample rate 44100 |
| Pulses.MidiBeatPulse.IncConnections | App/midi_pulse.h:54-60 | the count grows by i; the state is kept |
| Pulses.MidiBeatPulse.GetConnections | App/midi_pulse.h:62-64 | returns the count |
| Pulses.MidiBeatPulse.SetIsListeningVelocity | App/midi_pulse.h:66-68 | only the listening flag changes |
| Pulses.MidiBeatPulse.SetListeningVelocity | App/midi_pulse.h:70-72 | only the listened slot changes, truncated to 8 bits |
| Pulses.MidiBeatPulse.GetListeningVelocity | App/midi_pulse.h:74-76 | returns the listened slot |
| Pulses.MidiBeatPulse.SetMidiInputGatingEnabled | App/midi_pulse.h:194-197 | only the gating flag changes |
| Pulses.MidiBeatPulse.PrepareToPlay | App/midi_pulse.h:78-96 | sets the rate and samplesPerBeat, and the state becomes Prepared |
| Pulses.MidiBeatPulse.Restart | App/midi_pulse.h:86-95 | the durations and the counters as Prepared says |
| Pulses.MidiBeatPulse.SetDurations | App/midi_pulse.h:86-87 | only the durations change |
| Pulses.MidiBeatPulse.ResetCounters | App/midi_pulse.h:89-95 | clock, schedule, cycle, note, loop count and gate reset |
| Pulses.MidiBeatPulse.ResetClock | App/midi_pulse.h:89-91 | clock, schedule and cycle reset |
| Pulses.MidiBeatPulse.ResetNote | App/midi_pulse.h:92-95 | note, loop count, first-cycle flag and gate reset |
| Pulses.MidiBeatPulse.ConsumeAt | App/midi_pulse.h:116-137 | the message loop at one sample updates the gate as Consume says |
| Pulses.MidiBeatPulse.OpenCycle | App/midi_pulse.h:149-168 | the AWAITING boundary as Transition says |
| Pulses.MidiBeatPulse.TakeSlot | App/midi_pulse.h:151-155 | loopCount counts up except on the first cycle (wrapping at 2^64), and the velocity becomes its slot |
| Pulses.MidiBeatPulse.BeginNote | App/midi_pulse.h:157-167 | a note-on goes out exactly when beats are on, the gate permits and none sounds; the state becomes NOTE_IS_ON |
| Pulses.MidiBeatPulse.CloseCycle | App/midi_pulse.h:169-178 | the NOTE_IS_ON boundary as Transition says |
| Pulses.MidiBeatPulse.RunSchedule | App/midi_pulse.h:147-179 | the boundary loop as Boundaries says |
| Pulses.MidiBeatPulse.ProcessSample | App/midi_pulse.h:115-179 | one pass of the per-sample loop as AfterSample says |
| Pulses.MidiBeatPulse.ProcessBlock | App/midi_pulse.h:98-190 | the new state and the output buffer are AfterBlock's |
| Pulses.ForwardUnread | App/midi_pulse.h:182-186 | every message not read is added, in order, to the generated ones |
| PulseProperties.GeneratedNotesAlternate | App/midi_pulse.h:139-179 | within a block the generated notes strictly alternate, starting from whether our note sounded, end agreeing with the note flag, are in time order and lie inside the block, at samples 0 to n - 1 of a block of n samples |
| PulseProperties.ScheduleKept | App/midi_pulse.h:147-179 | the next boundary is never behind the clock, so each boundary fires exactly at its sample, from block to block |
| PulseProperties.PrepareResets | App/midi_pulse.h:86-95 | durations are beats times samplesPerBeat; counters, cycle, first-cycle flag and gate restart; the schedule is sound; inert exactly when no beats are set or a beat has no samples |
| PulseProperties.PrepareExample | App/midi_pulse.h:78-87 | 120 bpm, one beat on, at 48000 Hz: 24000 samples on; a negative off count gives 0 samples off |
| PulseProperties.ClosedGateSilences | App/midi_pulse.h:139-179 | after any sample a gated pulse whose gate is closed has no note sounding |
| PulseProperties.ForcedOffAtGateClose | App/midi_pulse.h:139-144 | a sounding note is forced off at the very sample the gate closes on it |
| PulseProperties.MidiThru | App/midi_pulse.h:113-186 | the output is the generated notes plus exactly the unread input, and only messages inside the block are read |
| PulseProperties.InBlockMessagesConsumed | App/midi_pulse.h:113-186 | a sorted buffer lying inside the block is entirely consumed by an active pulse: only generated notes leave |
| PulseProperties.Slots | App/midi_pulse.h:155 | the slots of consecutive cycles |
| PulseProperties.SlotPeriodic | App/midi_pulse.h:155 | the slot repeats with period n |
| PulseProperties.SlotComesUp | App/midi_pulse.h:155 | each slot 1..n comes up within n consecutive cycles |
| PulseProperties.RoundRobin | App/midi_pulse.h:155 | over n consecutive cycles each slot 1..n comes up exactly once |
| Oscillators.Clamp | App/oscillators.h:66 | `jlimit`: within bounds unchanged, below gives the low bound, above the high bound |
| Oscillators.OscGate.WithMidiTriggered | App/oscillators.h:38-56 | no-op when unchanged; otherwise un-triggering starts playing and triggering stops it |
| Oscillators.OscGate.WithFixedMidiNote | App/oscillators.h:63-71 | the note is clamped to 0..127 |
| Oscillators.OscGate.WithVelocity | App/oscillators.h:73-75 | the answered slot is the value modulo 256 |
| Oscillators.OscGate.WithOpenOnAllChannels | App/oscillators.h:77-79 | only the open-on-all flag is set |
| Oscillators.OscGate.Prepared | App/oscillators.h:107-113 | it plays exactly when not MIDI-triggered |
| Oscillators.OscGate.AfterMessage | App/oscillators.h:172-188 | a message is ignored unless triggered and (matching velocity or open on all); then note-on plays and note-off/all-notes-off/all-sound-off stops |
| Oscillators.OscGate.Accepts | App/oscillators.h:173 | no contract; the guard of `handleMidi`, see `SlotSelectivity` and `AfterMessage` |
| Oscillators.OscGate.Audible | App/oscillators.h:197-202 | no contract; `shouldProcessAudio`, see `FreeRunningIsAudible` and `TriggeredSilentIsCleared` |
| Oscillators.NewOscGate | App/oscillators.h:27-34 | a new oscillator has the clamped note, is free-running and not playing, answers slot 1 |
| Oscillators.FreeRunningIsAudible | App/oscillators.h:173-199 | an untriggered oscillator always sounds and ignores every message |
| Oscillators.TriggeredSilentIsCleared | App/oscillators.h:200-209 | a triggered oscillator that is not playing is silent unless the gain is ramping |
| Oscillators.SlotSelectivity | App/oscillators.h:173 | a triggered oscillator not open on all channels reacts exactly to its own velocity |
| Oscillators.AllOffNeedsOpenChannels | App/oscillators.h:172-188 | a well-formed all-notes-off or all-sound-off stops a playing triggered oscillator on a nonzero slot exactly when it is open on all channels |
| Oscillators.Renders | App/oscillators.h:190-210 | the render steps of a trace |
| Oscillators.BlockTraceHandlesAll | App/oscillators.h:130-140 | every message is handled, in buffer order |
| Oscillators.BlockTraceTiles | App/oscillators.h:126-144 | with sorted positions the rendered segments are non-empty, contiguous and cover [current, numSamples) |
| Oscillators.BlockTraceHandlesInPlace | App/oscillators.h:130-140 | each message is handled exactly when rendering has reached its clamped position |
| Oscillators.BlockSegmentation | App/oscillators.h:118-145 | on a non-empty block with a sorted buffer: the segments tile [0, numSamples), each message is handled where it cuts the block, in buffer order |
| Oscillators.BlockTrace | App/oscillators.h:118-145 | no contract; reference definition of the render and handle steps, see `BlockTraceTiles`, `BlockTraceHandlesInPlace` and `BlockSegmentation` |
| Oscillators.AfterEvents | App/oscillators.h:130-140 | no contract; the gate after every message is handled in order, see `Oscillator.ProcessBlock` |
| Oscillators.Oscillator.constructor | App/oscillators.h:27-34 | the gate of NewOscGate, rate 0 |
| Oscillators.Oscillator.SetMidiTriggered | App/oscillators.h:38-56 | the gate changes as WithMidiTriggered says |
| Oscillators.Oscillator.SetFixedMidiNote | App/oscillators.h:63-71 | the gate changes as WithFixedMidiNote says |
| Oscillators.Oscillator.SetVelocity | App/oscillators.h:73-75 | the gate changes as WithVelocity says |
| Oscillators.Oscillator.SetOpenOnAllChannels | App/oscillators.h:77-79 | the gate changes as WithOpenOnAllChannels says |
| Oscillators.Oscillator.PrepareToPlay | App/oscillators.h:91-116 | the rate is set and playing is reset as Prepared says |
| Oscillators.Oscillator.HandleMidi | App/oscillators.h:172-188 | the gate changes as AfterMessage says |
| Oscillators.Oscillator.RenderRange | App/oscillators.h:190-210 | an empty range renders nothing; otherwise one segment, audible as the gate decides |
| Oscillators.Oscillator.HandleEvent | App/oscillators.h:130-140 | one turn of the loop: render up to the clamped position, then handle the message there |
| Oscillators.Oscillator.ProcessBlock | App/oscillators.h:118-145 | without a positive rate nothing happens; otherwise the steps are BlockTrace's and the gate is the one after all messages |
| ParseLine.Pairs | App/parse_line.h:45-48 | two connections per source |
| ParseLine.LinkKeepsKinds | App/parse_line.h:115-122 | linking changes no processor's kind, the stack, the depth or the word's orphans and tail |
| ParseLine.PlaceKeepsInv | App/parse_line.h:124-142 | placing a node keeps the stack holding pulses |
| ParseLine.AddNodeKeepsInv | App/parse_line.h:113-142 | adding a node keeps the stack holding pulses |
| ParseLine.CharStepKeepsInv | App/parse_line.h:97-143 | every character keeps the stack holding pulses |
| ParseLine.Cleared | App/parse_line.h:38-43 | no contract; reference definition of `clear_graph`, see `ParseLineProperties.ClearKeepsStack` |
| ParseLine.MidiDirect | App/parse_line.h:49-60 | no contract; reference definition of `connect_midi_direct`, see `ParseLineProperties.DirectLinkAfterPulse` |
| ParseLine.MidiClaim | App/parse_line.h:62-84 | no contract; reference definition of `connect_midi`, see `ParseLineProperties.MidiClaimEffect` |
| ParseLine.Link | App/parse_line.h:115-122 | no contract; reference definition of the two MIDI links of a new node, see `ParseLineProperties.LinkClaims` |
| ParseLine.Place | App/parse_line.h:124-142 | no contract; it needs the node to exist; reference definition of the placement of a new node, see `PlaceKeepsInv` and `ParseLineProperties.EffectWiring` |
| ParseLine.AddNode | App/parse_line.h:113-142 | no contract; reference definition of adding a letter's node, see `ParseLineProperties.AddNodeClaims` |
| ParseLine.CharStep | App/parse_line.h:97-143 | no contract; reference definition of one character of `initialize_word`, see `CharStepKeepsInv` and `ParseLineProperties.CharStepKeepsAudioInv` |
| ParseLine.RunChars | App/parse_line.h:97-143 | no contract; the characters in order up to the first error, see `ParseLineProperties.RunCharsCountsNodes` |
| ParseLine.WordEnd | App/parse_line.h:144-148 | no contract; reference definition of the end of a word, see `ParseLineProperties.WordEndSafe` |
| ParseLine.WordResult | App/parse_line.h:86-149 | no contract; reference definition of `initialize_word`, see `Parser.InitializeWord` and `ParseLineProperties.WordKeepsAudioSafe` |
| ParseLine.WordsResult | App/parse_line.h:151-158 | no contract; the words in order up to the first error, see `ParseLineProperties.WordsKeepAudioSafe` |
| ParseLine.LineResult | App/parse_line.h:151-158 | no contract; reference definition of `parse_and_initialize`, see `Parser.ParseAndInitialize` and `ParseLineProperties.PulsesGetNoAudio` |
| ParseLine.Parser.constructor | App/parse_line.h:33-36 | a graph holding only the audio output |
| ParseLine.Parser.ClearGraph | App/parse_line.h:38-43 | the graph becomes Cleared |
| ParseLine.Parser.Connect | App/parse_line.h:45-48 | the left and the right channel are added |
| ParseLine.Parser.ConnectEach | App/parse_line.h:129-148 | a stereo pair from each source, in order |
| ParseLine.Parser.ConnectMidiDirect | App/parse_line.h:49-60 | the graph changes as MidiDirect says |
| ParseLine.Parser.ConnectMidi | App/parse_line.h:62-84 | the graph changes as MidiClaim says |
| ParseLine.Parser.AddLetter | App/parse_line.h:113-142 | the node is added, linked and placed, as AddNode says |
| ParseLine.Parser.LinkNode | App/parse_line.h:115-122 | the links as Link says |
| ParseLine.Parser.PlaceNode | App/parse_line.h:124-142 | the placement as Place says |
| ParseLine.Parser.Feed | App/parse_line.h:97-143 | one character as CharStep says; on an error nothing changes |
| ParseLine.Parser.InitializeWord | App/parse_line.h:86-149 | the graph after the word, or the error it stopped at, as WordResult says |
| ParseLine.Parser.ParseAndInitialize | App/parse_line.h:151-158 | every word of the line in order, as LineResult says |
| ParseLineProperties.LinkKeepsNodes | App/parse_line.h:115-122 | linking adds no node and keeps the new node's kind |
| ParseLineProperties.AddNodeAddsOneNode | App/parse_line.h:113 | adding a processor appends one node, the next in the arena, of its kind |
| ParseLineProperties.CharStepAddsOneNode | App/parse_line.h:98-113 | a letter adds exactly one node, of the letter's bound kind; parentheses add none |
| ParseLineProperties.RunCharsCountsNodes | App/parse_line.h:97-143 | a run that goes through adds one node per letter |
| ParseLineProperties.WordAddsOneNodePerLetter | App/parse_line.h:86-149 | a word that goes through adds one node per letter in it |
| ParseLineProperties.PairsShape | App/parse_line.h:45-48 | every pair is audio from one of the sources into the target |
| ParseLineProperties.PairsChannels | App/parse_line.h:45-48 | one pair per source, in order: channel 0 into 0, then 1 into 1 |
| ParseLineProperties.AddPairsSafe | App/parse_line.h:129-148 | audio pairs between non-pulse nodes keep the graph free of pulse audio |
| ParseLineProperties.LinkGrowsByMidi | App/parse_line.h:115-122 | linking appends only MIDI links |
| ParseLineProperties.MidiGrowthKeepsAudioInv | App/parse_line.h:49-84 | MIDI links keep the audio invariant |
| ParseLineProperties.PlaceKeepsAudioInv | App/parse_line.h:124-142 | placing keeps the audio invariant: pulses are never orphans or tails |
| ParseLineProperties.AddNodeKeepsAudioInv | App/parse_line.h:113-142 | adding a node keeps the audio invariant |
| ParseLineProperties.CharStepKeepsAudioInv | App/parse_line.h:97-143 | every character keeps the audio invariant |
| ParseLineProperties.RunCharsKeepsAudioInv | App/parse_line.h:97-143 | any run, even one stopped by an error, keeps it |
| ParseLineProperties.WordEndSafe | App/parse_line.h:144-148 | the end of a word adds only pulse-free audio and changes no processor |
| ParseLineProperties.WordKeepsAudioSafe | App/parse_line.h:86-149 | a word keeps pulse nodes free of audio |
| ParseLineProperties.WordsKeepAudioSafe | App/parse_line.h:151-158 | so do several words |
| ParseLineProperties.PulsesGetNoAudio | App/parse_line.h:151-158 | from a graph without pulse audio, no line, whatever its errors, gives a pulse an audio connection |
| ParseLineProperties.FreshGraphsAreAudioSafe | App/parse_line.h:33-43 | the constructor's and a cleared graph have no pulse audio |
| ParseLineProperties.MidiClaimEffect | App/parse_line.h:62-84 | connect_midi adds the link; an oscillator or pulse target raises the parent's count when a claim is due and answers to the count; an effect gets the link only; nothing else changes |
| ParseLineProperties.LinkClaims | App/parse_line.h:115-122 | the link step at depth > 0 claims on pulsers[depth-1] and uses the claim up |
| ParseLineProperties.PlaceKeepsProcs | App/parse_line.h:124-142 | placing changes no processor and only appends connections and stack entries |
| ParseLineProperties.CharStepOfLetter | App/parse_line.h:113 | a bound letter in range is added as its binding's processor |
| ParseLineProperties.AddNodeClaims | App/parse_line.h:113-142 | adding a node at depth > 0 claims the slot as MidiClaimEffect says |
| ParseLineProperties.LetterClaimsSlot | App/parse_line.h:62-122 | a letter in a group claims on the enclosing pulse; the count rises only for an oscillator or pulse with a claim due; an effect uses the claim up without counting |
| ParseLineProperties.SiblingsShareSlot | App/parse_line.h:119-122 | two oscillators in a row in one group answer to the same count |
| ParseLineProperties.LetterRun | App/parse_line.h:113-142 | a letter at the head of a run adds its processor and the run goes on |
| ParseLineProperties.OpenRun | App/parse_line.h:98-104 | `(` at the head of a run |
| ParseLineProperties.CloseRun | App/parse_line.h:106-111 | `)` at the head of a run with a pulse on the stack |
| ParseLineProperties.TopLevelAdd | App/parse_line.h:113-142 | at the top level with no pulse just before, a node is only placed, and a pulse is pushed |
| ParseLineProperties.PulsePushed | App/parse_line.h:139-142 | a top-level pulse is pushed with no slots claimed |
| ParseLineProperties.PulseOpenStep | App/parse_line.h:98-142 | "x(" pushes x and opens its group with a claim due |
| ParseLineProperties.ClaimStep | App/parse_line.h:119-122 | one oscillator in an open group claims a slot and answers to the count |
| ParseLineProperties.CloseStep | App/parse_line.h:106-111 | `)` pops and changes no processor |
| ParseLineProperties.WordEndKeepsProcs | App/parse_line.h:144-148 | the end of a word changes no processor, stack or depth |
| ParseLineProperties.WordOfRun | App/parse_line.h:86-149 | a word whose run goes through ends with the word's wiring |
| ParseLineProperties.GroupSharesOneSlot | App/parse_line.h:86-149 | "x(ab)": both oscillators answer to slot 1 and x counts one connection |
| ParseLineProperties.FirstWordClaims | App/parse_line.h:86-149 | "x(a": a takes slot 1 and the group stays open after the word |
| ParseLineProperties.SecondWordClaims | App/parse_line.h:88-122 | a new word re-arms the claim: its first oscillator takes the next slot |
| ParseLineProperties.WordsTakeSeparateSlots | App/parse_line.h:151-158 | "x(a b)": a answers slot 1, b slot 2, and x counts two connections |
| ParseLineProperties.SlotHearsItsLoop | App/parse_line.h:72-80 | a child on slot n of a parent with total connections hears the parent's note of loop L exactly when L mod total = n - 1 |
| ParseLineProperties.ClearKeepsStack | App/parse_line.h:38-43 | clear_graph empties the graph and adds a fresh output but keeps the stack, the depth and the processors the stack points to |
| ParseLineProperties.ParenChars | App/parse_line.h:98-111 | `(` raises the depth (wrapping at 2^64) and re-arms the claim; `)` pops and lowers it (wrapping below 0), or stops on an empty stack; neither touches nodes or connections |
| ParseLineProperties.LetterErrors | App/parse_line.h:113-120 | a letter goes through exactly when bound and the depth names a stack entry; otherwise the matching error |
| ParseLineProperties.LetterPushesPulse | App/parse_line.h:139-142 | every pulse letter is pushed on the stack; no other letter changes it |
| ParseLineProperties.DirectLinkAfterPulse | App/parse_line.h:49-117 | a letter right after a pulse, outside groups, gets a direct link: an oscillator becomes triggered and open on all channels, a pulse gates without listening |
| ParseLineProperties.EffectWiring | App/parse_line.h:128-138 | an effect takes a pair from every orphan, then from the old tail, becomes the tail with no orphans; prev_was_midi clears only when there were orphans |

## Left out

- Audio rendering. The waveform functions, `midiNoteToHz` and JUCE's `dsp::Oscillator`
  and `dsp::Gain` are out: they are floating point in a foreign library.
  - Whether the gain is still ramping is a parameter `smoothing` of the oscillator model.
  - The render steps record which segments would sound.
- Effects. App/effects.h is not part of this model: its filter, delay and reverb are
  floating-point DSP. An effect processor keeps only its kind and parameters.
- The JUCE graph. `AudioProcessorGraph` is a list of nodes and a list of connections.
  - Every `addConnection` is recorded: whether JUCE would refuse one (a duplicate, a
    missing channel) is not modelled.
  - `graph->clear()` and `rebuild()` only drop the nodes and connections.
- JUCE `MidiMessage` details. Velocity 0 on a note-on is modelled as a note-off, as JUCE
  does. Two details are not modelled:
  - JUCE clamps velocities above 127 when it builds a note;
  - the channel and note number (1 and 60) travel with the message, but nothing in the core
    reads them.
- Printing. `printBindings`, `printBindingsDetailed`, `print_params`, `param_printer`,
  `TypeCatalog` and the stored type names are left out. They are output only.
- `getName`, the JUCE boilerplate overrides and the getters `isMidiTriggered`,
  `getFixedMidiNote`, `getFixedFrequency` and `getLoopCount` are left out. They only read
  fields that `Gate()` and `State()` expose.
- The compile-time seed. `__TIME__` and `__DATE__` are inputs of `CompileTimeSeed`, and
  the random initialiser takes the seed as a parameter.
- Static storage. `TypeTable`'s static table is an object the caller passes in.
  `TypeTable.Standard` builds it as the static initialisers do.
- `Values.StoD`: only decimal literals are modelled, with their exact value. Hexadecimal
  floats, `inf`/`nan`, rounding to the nearest double and out-of-range results are not.
- `Pulses.SamplesPerBeat`: the quotient of doubles is the exact rational. Floating-point
  rounding before the truncation is not modelled.
- `Pulses.PulseSettings.IncConnections`: `num_connections` is an unbounded integer, not a
  wrapping 32-bit `int`.
- `Pulses.SlotInRange`: the range is stated for fewer than 256 connections. With more, the
  `uint8` cast wraps; `SlotVelocity` models the wrap, but no lemma describes it.
- `ParseLine.CharStep`: three operations are undefined behaviour in `initialize_word` and
  become errors that stop the word before anything changes. They are `pop_back` on an
  empty stack, `midi_pulsers[paren_depth - 1]` beyond the stack, and `back()` on an empty
  stack, which `WordInv` rules out.
- `BindCommands.SetFirstKey`: the "letter not bound to any processor type yet" throw cannot
  happen, because that branch is taken only for a bound letter. The model has no such
  branch.
- `Registry.Create`: the processor kinds are values, not objects. The oscillator waveform,
  and a pulse's `noteNumber`, sample rate and timing state, are not part of the processor
  made by `create`.
- Characters are Dafny `char`s and `std::isspace`/`std::isdigit` use the C locale's ASCII
  classes. Signed `char` promotion in the random initialiser and `hash_string` is taken
  for characters below 128.
- Threads. The command thread runs against the audio callback without synchronisation.
  The model is sequential.
