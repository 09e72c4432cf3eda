# Sawtooth Python SDK: a verified model

A Dafny 4.11 model of the stateful parts of the Sawtooth Python SDK and its two example
transaction families, with proofs about every input, every run and every interleaving.

- **XO family.** `XoPayload`, `XoRules`/`XoSafety` (the game), `XoCodec` (games as text),
  `XoSession`/`XoStateAccess` (the cached state access), `XoHandler` (`apply`), `XoRefinement`
  (the flat map it means), `XoHistory` (a game is the record of its takes).
- **intkey family.** `Intkey`, `IntkeyRefinement`, `IntkeyLedger`.
- **Both families over one state.** `Families`: refinement, decoding, absence of internal
  errors and noninterference for every interleaving. `Buckets` is the shared layout: names that
  collide share an address. `Validator` is the state behind `Context`, `Addresses` the hash.
- **Messaging and processor.** `Messaging` (the connection as a state machine), `Futures` and
  `Streams` (its objects), `Routing`, `Processing` (the loops and `start`), `Endings` (how they
  end), `Responses` (what the validator is told), `ProcessorOnStream`.
- **Consensus driver, workload generator, test comparator.** `ZmqDriver`, `Workload`,
  `MockValidator`.

`Common`, `Outcomes`, `Text`, `Sorting` and `Bags` hold what the others share.

Verify everything with `dafny verify dfyconfig.toml`.

## How the model is built

An object the source updates in place is a class. Each of its methods is proved to change the
object's abstract value (`Contents()` or `Settings()`) exactly as a function on values says, and
the properties are lemmas about those functions over whole runs. A Python dict is a `map`; where
the source iterates over one, the method takes entries in an arbitrary order, so its contract
also says that the order does not matter.

Each Python exception is a `Failure`: `InvalidTransaction` with one `Reason` for each `raise`,
`InternalError` with its `Fault`, `AuthorizationException`, `ValidatorConnectionError`,
`TimeoutPassed` for `FutureTimeoutError`, and `Uncaught` for anything the code does not raise on purpose (IndexError, KeyError, NameError).

What is assumed of the environment:

- The hash is any function from names to 128 characters; nothing says it is injective. Where a
  result needs the two family prefixes to differ it says so (`World.Sound`). They do: they are
  `5b7349` and `1cf126` (tests/sawtooth_integration/tests/test_two_families.py:38-39).
- A signer is a public key in hex: not empty, without `,` and `|` (`XoRefinement.ValidSigner`).
- `Context` returns data only for the address asked for. What becomes of each state request is
  an arbitrary `Reply`, in single transactions and in runs. The validator discards the state of a
  transaction that did not succeed (`Validator.Committed`).
- Loading what `cbor.dumps` wrote gives the same counters, in whatever order, and no such text is
  empty (`Codec.Faithful`). What is dumped is a dict with its order, so equal counters may have
  different texts.
- Python's `int()` is an arbitrary parser; only the round trip needs it to read the digits.
- Correlation ids of sends are fresh where a result says so (`Messaging.FreshIds`).

## Where the code differs from what it seems to intend

- A disconnect resolves the futures in the collection but leaves them there, so a late message
  still overwrites the error: `Messaging.BrokenMayBeAnswered` says exactly when,
  `Messaging.LateReply` is such a run.
- A send that passed its ready check before a disconnect stores its future afterwards, and nothing
  resolves it: `Messaging.SendRace` is such a run, `Messaging.UnresolvedWhileDown` says exactly
  which futures these are.
- An interrupt after a request was answered and before the next is received makes `start` process
  the same request again in its drain. `Responses.DrainAnswersAgain` says exactly when it is
  answered twice, `Responses.AnsweredTwiceRun` is such a run.
- If the main block of `start` is left before the first future was received, by an interrupt or by
  a wrong version, it drains without a future and goes round an empty loop until it is interrupted
  once more: `Processing.StartSpins` says exactly when, `Processing.SpinsOnEarlyInterrupt` gives two
  such inputs.
- A state request of the XO handler that is not answered in time raises `FutureTimeoutError`, which
  nothing in the handler or in `_process` catches, so it ends the process. So does a ping answered
  while the link is down, and a link that is down again when the handlers re-register:
  `Endings.StartEnds` says exactly when `start` crashes, stops, exits or spins,
  `Endings.CrashingTurns` gives these three inputs. The intkey handler sets no time limit, so for it
  a time-out does not come about.
- intkey catches `AttributeError` where a missing field raises `KeyError`, so the exception
  escapes: `Intkey.MissingFieldEscapes`, with `Intkey.EmptyMappingEscapes` as an input.
- `XoState` updates its cache before a set and after a delete, so a failed request can leave the
  cache wrong: `XoSession.StoreGamesCoherent` and `XoSession.DropGamesCoherent` say exactly when.
  `XoSession.StaleCache` is such an input: a declined set that reports success, after which the
  cache shows a game that the state does not hold.
- The XO handler ignores the answer to its write, so it reports success for a write that wrote
  nothing; `XoHandler.ApplyUnderFaults` says that this is the only such case.
- `_update_game_state` compares with `P1-WINS` and `P2-WINS` although the states are `P1-WIN` and
  `P2-WIN`. It does not matter because a game that has ended never gets there
  (`XoSafety.TakeExact`, `Families.OnlyInvalid`).
- An empty dict of games is written as text that cannot be read: `XoCodec.RoundTrip` is an
  if-and-only-if. It never is written (`Families.RunDecodes`).

## Model

| member | source | states |
|---|---|---|
| Families.RunRefines | examples/xo_python/sawtooth_xo/processor/handler.py:47-132 | For every run of both families from empty state, every hash, colliding or not, and every reply to the state requests, time-outs included: each transaction ends as it does on the two flat maps; in the final state the XO part is exactly the encoding of the final games, the text at each intkey address in use loads to the counters that share it, and there is nothing else |
| Families.RunDecodes | examples/xo_python/sawtooth_xo/processor/xo_state.py:117-162 | After any run each XO address reads back as a non-empty dict whose canonical text it is, all of whose names hash to it, and together these dicts are the flat map |
| Families.OnlyInvalid | examples/xo_python/sawtooth_xo/processor/handler.py:135-188 | In no run does an XO transaction meet InternalError, the unhandled-action branch or an exception of its own: it succeeds, is refused as invalid, or fails with the failure of one of its own state requests (refused, link lost, timed out) |
| Families.StepStands | examples/xo_python/sawtooth_xo/processor/handler.py:47-132 | One transaction of either family on a state that stands for two flat maps, under any faults: its outcome is that on its own map, and the state then stands for the new maps |
| Families.Noninterference | examples/xo_python/sawtooth_xo/processor/xo_state.py:21-26 | For every interleaving, any signers, any codec and any replies, if only the two prefixes differ: the outcomes of either family and its part of the state, byte for byte, are those of running its own transactions alone |
| Families.OnlyAlone | examples/intkey_python/sawtooth_intkey/processor/handler.py:38-44 | On the flat maps a family's outcomes and final map depend only on its own transactions |
| Families.XoStepKeeps | examples/xo_python/sawtooth_xo/processor/xo_state.py:97-115 | An XO transaction leaves the intkey part of the state as it was and writes only in its own namespace |
| Families.IntkeyStepKeeps | examples/intkey_python/sawtooth_intkey/processor/handler.py:141-149 | An intkey transaction leaves the XO part of the state as it was and writes only under its own prefix |
| Families.StepLocal | examples/xo_python/sawtooth_xo/processor/xo_state.py:21-26 | What a transaction does depends on its own family's part of the state alone: on two states that agree there it has the same outcome and leaves the same part |
| XoRefinement.StepRefines | examples/xo_python/sawtooth_xo/processor/handler.py:47-132 | One transaction on a state that encodes a flat map: same outcome as on the map, the state then encodes the map's successor, every other game is unchanged, and a refusal is always an InvalidTransaction |
| XoRefinement.ParsedStepRefines | examples/xo_python/sawtooth_xo/processor/xo_state.py:53-83 | The same for a parsed transaction: loading, changing and rewriting one shared address is one change of the flat map |
| XoRefinement.SeesBucket | examples/xo_python/sawtooth_xo/processor/xo_state.py:117-140 | What is read at a name's address is exactly the games whose names share that address |
| XoRefinement.AddressHolds | examples/xo_python/sawtooth_xo/processor/xo_state.py:117-140 | In an encoded state an address in use holds the readable text of its games and any other holds nothing |
| XoRefinement.DecodedIsFlat | examples/xo_python/sawtooth_xo/processor/xo_state.py:142-180 | Decoding every address of an encoded state gives the flat map back, each name at its own address, each text canonical |
| Addresses.XoShared | examples/xo_python/sawtooth_xo/processor/xo_state.py:21-26 | An XO address is 70 characters, starts with the first six of the digest of xo, and is shared by two names exactly if the first 64 characters of their digests agree |
| Addresses.IntkeyShared | examples/intkey_python/sawtooth_intkey/processor/handler.py:38-44 | An intkey address likewise, with the digest of intkey and the last 64 characters |
| XoRefinement.FlatTouchesOne | examples/xo_python/sawtooth_xo/processor/handler.py:56-118 | A transaction changes no game but the one it names |
| XoRefinement.FlatKeepsGood | examples/xo_python/sawtooth_xo/processor/handler.py:56-118 | Every stored game stays well formed, under its own valid name, with separator-free players |
| Buckets.EncodeSet | examples/xo_python/sawtooth_xo/processor/xo_state.py:71-83 | Setting one name changes the encoding at its address only, to the text of that address's values with the new one |
| Buckets.EncodeRemove | examples/xo_python/sawtooth_xo/processor/xo_state.py:63-69 | Removing one name rewrites its address, or frees it exactly when no other name is left there |
| XoHistory.GamesAreHistories | examples/xo_python/sawtooth_xo/processor/handler.py:56-118 | On the flat maps of every run a game exists exactly when the last accepted create or delete of its name was a create, and it is then exactly the game that its accepted takes since then leave; those takes form a legal record (accepted here means carried out, too) |
| XoHistory.StoredGamesAreHistories | examples/xo_python/sawtooth_xo/processor/handler.py:56-118 | The same of the validator's state after every run of both families: what is read at the name's address has the game exactly then, and it is exactly that game |
| XoHistory.AcceptedIffAllowed | examples/xo_python/sawtooth_xo/processor/handler.py:56-118 | On the flat maps, after every run, the next transaction is accepted exactly when it parses and the record allows it: create what is not there, delete what is, take where the record stays legal |
| XoHistory.AppliedIffAllowed | examples/xo_python/sawtooth_xo/processor/handler.py:47-132 | The same of apply on the validator's state, under any replies: it returns exactly when both requests are answered, the payload parses and the record allows it |
| XoHistory.CreateApplied | examples/xo_python/sawtooth_xo/processor/handler.py:65-79 | After every run the text `name,create,` goes through exactly when both requests are answered and the record has no such game; else it is refused because the game exists |
| XoHistory.DeleteApplied | examples/xo_python/sawtooth_xo/processor/handler.py:56-63 | After every run the text `name,delete,` goes through exactly when both requests are answered and the record has the game; else it is refused because there is none |
| XoHistory.TakeApplied | examples/xo_python/sawtooth_xo/processor/handler.py:81-118 | After every run the text `name,take,space` goes through exactly when both requests are answered, the record has the game and stays legal with the take; without a game it is refused because it needs one |
| XoHistory.Refused | examples/xo_python/sawtooth_xo/processor/handler.py:52-86 | After every run a payload that does not parse is refused for the parser's reason, and a create, delete or take on the wrong record for its own |
| XoHistory.TakeIffLegal | examples/xo_python/sawtooth_xo/processor/handler.py:81-118 | A take is accepted exactly when the longer record is legal, and leaves the longer record's game |
| XoHistory.LegalMarks | examples/xo_python/sawtooth_xo/processor/handler.py:98-111 | In a legal record every X is by player1 and every O by player2, marks alternate, none is overwritten, and no other space is marked |
| XoHistory.LegalLength | examples/xo_python/sawtooth_xo/processor/handler.py:88-116 | A legal record has at most nine takes; P1 wins no earlier than the fifth, P2 no earlier than the sixth, a tie comes exactly at the ninth |
| XoHistory.TurnOf | examples/xo_python/sawtooth_xo/processor/handler.py:91-96 | While a game goes on, its state names the player whose seat and letter the next take has |
| XoSafety.TakeExact | examples/xo_python/sawtooth_xo/processor/handler.py:88-116 | On a well-formed game a take is refused for the first of the three reasons that applies, the first being that a line is complete or the board is full, and otherwise accepted, adding only the mover's mark and filling only the mover's seat; the game stays well formed |
| XoSafety.ActExact | examples/xo_python/sawtooth_xo/processor/handler.py:56-79 | Creating gives the empty board, first player to move, no players; creating what is there and deleting what is not are refused, each for its reason |
| XoSafety.MarkedState | examples/xo_python/sawtooth_xo/processor/handler.py:135-175 | After a mark on a game still going on, the new state is the one its board has; only the mover can have won |
| XoSafety.StateExact | examples/xo_python/sawtooth_xo/processor/handler.py:150-175 | Each of the five states holds exactly in its own situation of the board |
| XoSafety.UpdateExact | examples/xo_python/sawtooth_xo/processor/handler.py:150-175 | The new state for any nine spaces and any old state: two winners and an unhandled state fail internally, a line wins, a full board ties, the turn passes, and the misspelt win states stay |
| XoSafety.ActSafe | examples/xo_python/sawtooth_xo/processor/handler.py:135-175 | On well-formed games no transaction fails internally, crashes or reaches the unhandled action |
| XoRules.IsWinSound | examples/xo_python/sawtooth_xo/processor/handler.py:178-188 | The search over the eight lines finds a win exactly when a row, column or diagonal holds the letter |
| XoCodec.RoundTrip | examples/xo_python/sawtooth_xo/processor/xo_state.py:142-180 | Reading back a written dict of separator-free games gives the dict, if and only if it is not empty |
| XoCodec.SerializeText | examples/xo_python/sawtooth_xo/processor/xo_state.py:164-180 | The text is one line for each game between bars, ordered by their characters, each with name, board, state, first and second player between commas |
| XoCodec.UnreadableIff | examples/xo_python/sawtooth_xo/processor/xo_state.py:142-162 | A text cannot be read exactly if some line of it has not five fields |
| XoCodec.CanonicalText | examples/xo_python/sawtooth_xo/processor/xo_state.py:142-180 | A readable text is what its games are written as exactly when its lines are sorted and no name occurs twice |
| XoCodec.ReadBag | examples/xo_python/sawtooth_xo/processor/xo_state.py:153-162 | The lines of a dict, in any order, read as the dict |
| XoCodec.DeserializeData | examples/xo_python/sawtooth_xo/processor/xo_state.py:142-162 | The loop reads all lines or fails with InternalError, as the recursive definition does |
| XoCodec.SerializeGames | examples/xo_python/sawtooth_xo/processor/xo_state.py:164-180 | Whatever order the dict is iterated in, the text is the same: its lines in order |
| XoCodec.LineReadBack | examples/xo_python/sawtooth_xo/processor/xo_state.py:155-158 | A line that reads as a game is the line that game is written as |
| Sorting.SortCorrect | examples/xo_python/sawtooth_xo/processor/xo_state.py:180 | Sorting by a total order sorts and keeps every element as often as it was there |
| Sorting.SortedUnique | examples/xo_python/sawtooth_xo/processor/xo_state.py:180 | A sorted sequence is determined by its elements |
| Sorting.SortIsCanonical | examples/xo_python/sawtooth_xo/processor/xo_state.py:180 | Sorting text depends only on which lines there are |
| Sorting.LexTotalOrder | examples/xo_python/sawtooth_xo/processor/xo_state.py:180 | Order by code point is a total order on text |
| Sorting.LexMeans | examples/xo_python/sawtooth_xo/processor/xo_state.py:180 | One text comes before another exactly if it is a beginning of it or has the lower character at the first difference |
| Text.SplitJoin | examples/xo_python/sawtooth_xo/processor/xo_state.py:155-156 | Splitting what was joined gives the parts back when there are some and none holds the separator |
| Text.JoinSplit | examples/xo_python/sawtooth_xo/processor/xo_state.py:155-156 | Joining what was split gives any text back |
| XoSession.CacheCoherence | examples/xo_python/sawtooth_xo/processor/xo_state.py:53-140 | After any sequence of get, set and delete, whatever becomes of its requests, no address is asked for again once it was fetched; if every set was carried out and every deletion just if it was answered, the cache says what the state holds and the next read returns what an uncached one would, or the failure of its own request |
| XoSession.GetGameCoherent | examples/xo_python/sawtooth_xo/processor/xo_state.py:85-95 | A read keeps the cache coherent and returns what a fresh read would, or the failure of its request |
| XoSession.StoreGamesCoherent | examples/xo_python/sawtooth_xo/processor/xo_state.py:97-106 | A set leaves the cache coherent exactly when it was carried out or the state already held the text |
| XoSession.DropGamesCoherent | examples/xo_python/sawtooth_xo/processor/xo_state.py:108-115 | A deletion leaves the cache coherent exactly when it was not answered without effect and not carried out unanswered |
| XoSession.StaleCache | examples/xo_python/sawtooth_xo/processor/xo_state.py:97-106 | A set from an empty session whose write is declined returns without an error, and the next read finds a game that an uncached read would not |
| XoStateAccess.XoState.GetGame | examples/xo_python/sawtooth_xo/processor/xo_state.py:85-95 | The method does to the cache, the state and the requests exactly what the session function says |
| XoStateAccess.XoState.SetGame | examples/xo_python/sawtooth_xo/processor/xo_state.py:71-83 | Likewise, for every reply to its requests |
| XoStateAccess.XoState.DeleteGame | examples/xo_python/sawtooth_xo/processor/xo_state.py:53-69 | Likewise; a missing name is KeyError, an emptied dict deletes the address |
| XoStateAccess.XoState.StoreGame | examples/xo_python/sawtooth_xo/processor/xo_state.py:97-106 | Caches the text before the request, whatever becomes of it |
| XoStateAccess.XoState.DropGame | examples/xo_python/sawtooth_xo/processor/xo_state.py:108-115 | Caches the absence only after the request returned |
| XoStateAccess.XoState.LoadGames | examples/xo_python/sawtooth_xo/processor/xo_state.py:117-140 | Asks for an address only if it is not cached, and caches what it got |
| XoHandler.XoTransactionHandler.Apply | examples/xo_python/sawtooth_xo/processor/handler.py:47-132 | Outcome, new state and requests are those of the effect of one transaction: one read, one decision, one write, for every payload, signer, state and reply |
| XoHandler.XoTransactionHandler.TakeSpace | examples/xo_python/sawtooth_xo/processor/handler.py:88-116 | Updating the game step by step gives the game, or the failure, that Take defines |
| XoHandler.ReadThenAct | examples/xo_python/sawtooth_xo/processor/handler.py:54-118 | A get followed by a set or delete through the cache costs one read and one write and decides on what the read saw |
| XoHandler.ApplyAtomic | examples/xo_python/sawtooth_xo/processor/handler.py:47-132 | For all replies: an InvalidTransaction has written nothing, a return has written exactly once, last, at the address read; no other address is touched |
| XoHandler.ApplyUnderFaults | examples/xo_python/sawtooth_xo/processor/xo_state.py:97-115 | A refused, lost or timed-out request makes the transaction fail with AuthorizationException, ValidatorConnectionError or FutureTimeoutError, the read before anything the transaction decides and the write after it, and leaves the state as it was; success without effect happens exactly when the write was answered but not carried out |
| XoHandler.UnreadableFails | examples/xo_python/sawtooth_xo/processor/xo_state.py:142-162 | State that cannot be read makes every transaction at its address an InternalError that writes nothing |
| XoPayload.PrintParse | examples/xo_python/sawtooth_xo/xo_client.py:194-195 | The client's payload parses to the same name, action and space |
| XoPayload.PrintText | examples/xo_python/sawtooth_xo/xo_client.py:194-195 | The client sends the name, the action and the digit of the space, or nothing, between commas |
| XoPayload.ParsePrint | examples/xo_python/sawtooth_xo/processor/xo_payload.py:21-55 | An accepted payload is the join of what it parsed to, up to the spelling of the space |
| XoPayload.ParsedIsValid | examples/xo_python/sawtooth_xo/processor/xo_payload.py:28-51 | What is accepted has a valid name, one of the actions create, take and delete and, for a take alone, a space from 1 to 9; what is not is an InvalidTransaction |
| XoPayload.ParseExact | examples/xo_python/sawtooth_xo/processor/xo_payload.py:21-55 | A text that is three fields between two commas is refused for the first reason that applies or parsed to those fields, each reason and action written out; any other text is a bad payload |
| XoPayload.ParseAccepts | examples/xo_python/sawtooth_xo/processor/xo_payload.py:21-55 | A payload is accepted exactly if it is a name without bar, one of create, take and delete, and a space that for a take reads as 1 to 9, between two commas |
| XoPayload.WrittenParses | examples/xo_python/sawtooth_xo/xo_client.py:68-91 | The three texts the client writes, for any valid name, parse to a create, a delete and a take of it |
| XoPayload.BadNameRejected | examples/xo_python/sawtooth_xo/processor/xo_payload.py:22-32 | A payload printed for an empty name or one with a separator is always rejected, for the reason that goes with it |
| Validator.Context.GetState | sawtooth_sdk/processor/context.py:38-68 | Gives the data at the address, absent if empty, or the failure the reply stands for; changes nothing |
| Validator.VisibleMeans | sawtooth_sdk/processor/context.py:54-68 | Data is given exactly if it is stored and not empty |
| Validator.Context.Write | sawtooth_sdk/processor/context.py:70-132 | Changes the state at the address if the request was carried out, and reports what the answer says |
| Validator.ExecuteAtomic | sawtooth_sdk/processor/context.py:38-132 | Reading one address, deciding and writing it once is failure atomic for all replies |
| Intkey.IntkeyTransactionHandler.Apply | examples/intkey_python/sawtooth_intkey/processor/handler.py:63-70 | Outcome, new state and requests are those of the effect of one transaction, for every payload, state and reply |
| Intkey.IntkeyTransactionHandler.GetStateData | examples/intkey_python/sawtooth_intkey/processor/handler.py:128-138 | The counters at the address, none if it is absent, InternalError if they cannot be loaded |
| Intkey.IntkeyTransactionHandler.SetStateData | examples/intkey_python/sawtooth_intkey/processor/handler.py:141-149 | Writes the dump of the dict, in its own order, once; an answer that names no address is InternalError |
| Intkey.ApplyAtomic | examples/intkey_python/sawtooth_intkey/processor/handler.py:63-149 | For all replies: an InvalidTransaction has written nothing, a return has written exactly once, last, at the address read |
| Intkey.ApplyUnderFaults | examples/intkey_python/sawtooth_intkey/processor/handler.py:128-149 | A refused, lost or timed-out request makes the transaction fail with AuthorizationException, ValidatorConnectionError or FutureTimeoutError, a write whose answer names no address with InternalError, and leaves the state as it was |
| Intkey.UnpackedIsValid | examples/intkey_python/sawtooth_intkey/processor/handler.py:73-125 | What is accepted is one of three verbs, a name of at most 20 characters and a value from 0 to 4294967295; what is not is invalid or an incomplete payload |
| Intkey.UnpackExact | examples/intkey_python/sawtooth_intkey/processor/handler.py:73-125 | A payload unpacks to a command exactly if it loads to a mapping whose Verb, Name and Value fields are that verb, name and value, the verb is set, inc or dec, the name has at most 20 characters and the value is from 0 to 4294967295 |
| Intkey.UnpackRefuses | examples/intkey_python/sawtooth_intkey/processor/handler.py:83-125 | A payload that cannot be loaded, or the first of verb, name and value that is wrong, gives the reason |
| Intkey.BrokenStateFails | examples/intkey_python/sawtooth_intkey/processor/handler.py:128-138 | State that cannot be loaded makes every command at its address an InternalError that writes nothing |
| Intkey.AssignMaps | examples/intkey_python/sawtooth_intkey/processor/handler.py:166-223 | Read as a map, assigning a key of an ordered dict is one update |
| Intkey.AssignKeepsPlaces | examples/intkey_python/sawtooth_intkey/processor/handler.py:176-221 | A key that is there keeps its place and a new one comes last |
| Intkey.MissingFieldEscapes | examples/intkey_python/sawtooth_intkey/processor/handler.py:83-104 | A KeyError or TypeError leaves the handler exactly when the payload loads but not as a mapping with all three fields |
| Intkey.EmptyMappingEscapes | examples/intkey_python/sawtooth_intkey/processor/handler.py:89-92 | A mapping without fields is such a payload |
| IntkeyRefinement.StepRefines | examples/intkey_python/sawtooth_intkey/processor/handler.py:63-149 | One transaction on a state whose texts load to the buckets of a flat map of counters, for any texts that do: same outcome as on the map, the state then stands for its successor in the same way, every value stays in range, every other name is unchanged |
| IntkeyRefinement.DoesTheSame | examples/intkey_python/sawtooth_intkey/processor/handler.py:166-223 | A command does to the ordered dict at one address what it does to the flat map: same refusal, or a dict whose contents are the address's share of the new map |
| IntkeyRefinement.HoldsAfterSet | examples/intkey_python/sawtooth_intkey/processor/handler.py:141-149 | Replacing the text at a name's address by one that loads to the new bucket, in whatever order, makes the state stand for the map with that name set |
| IntkeyRefinement.KeepsRange | examples/intkey_python/sawtooth_intkey/processor/handler.py:182-223 | Whatever is accepted keeps all values in 0..4294967295 and changes one name |
| IntkeyLedger.Conservation | examples/intkey_python/sawtooth_intkey/processor/handler.py:166-223 | On the flat maps of every run a counter exists exactly when one payload with verb set and its name was accepted, at most one ever is, its value is the value field of that one plus those of the accepted incs minus those of the accepted decs, and nothing is accepted for a name never set |
| IntkeyLedger.StoredConservation | examples/intkey_python/sawtooth_intkey/processor/handler.py:128-223 | The same of the validator's state after every run of both families: what loads at the name's address has the name exactly then, with that value, which is in range |
| IntkeyLedger.AcceptedIffAllowed | examples/intkey_python/sawtooth_intkey/processor/handler.py:166-223 | On the flat maps, after every run, the next payload is accepted exactly when its fields are a command that the ledger allows: a first set, an inc that stays at most 4294967295, a dec that stays at least 0 |
| IntkeyLedger.AppliedIffAllowed | examples/intkey_python/sawtooth_intkey/processor/handler.py:63-149 | The same of apply on the validator's state, under any replies: it returns exactly when the read is answered, the write is carried out and answered, and the payload's fields are a command that the ledger allows |
| IntkeyLedger.RefusedBecause | examples/intkey_python/sawtooth_intkey/processor/handler.py:166-223 | After every run a command that the ledger does not allow is refused for its own reason: already set, not set, too large, too small |
| Messaging.RunAgrees | sawtooth_sdk/messaging/stream.py:82-171 | In every interleaving the link, the collection and every future are what the history of events alone says they must be |
| Messaging.AnswerIsOwn | sawtooth_sdk/messaging/stream.py:90-98 | A future that holds a result was stored by a step p, no step after p stored it anew, and the result is that of the first message with its id to come in after p |
| Messaging.AnswerComes | sawtooth_sdk/messaging/stream.py:90-98 | Conversely, the first message with its id to come in after a future was stored is what it holds at the end of every longer run that does not store it anew |
| Messaging.AwaitedMeans | sawtooth_sdk/messaging/stream.py:90-98 | A future is in the collection's waiting set exactly if some step stored it and no message with its id has come in since; there is a last such step |
| Messaging.AnswerIsFinal | sawtooth_sdk/messaging/future.py:85-106 | With fresh ids, a future that holds a result keeps it for ever and stays out of the collection |
| Messaging.GoneIffAnswered | sawtooth_sdk/messaging/stream.py:93-98 | A future is out of the collection exactly when it holds a result |
| Messaging.BrokenMayBeAnswered | sawtooth_sdk/messaging/stream.py:147-148 | A future broken by a disconnect changes exactly when a message with its id arrives while connected |
| Messaging.LateReply | sawtooth_sdk/messaging/stream.py:145-148 | A run after which the link is up again, the future still broken and still in the collection, so that a late message overwrites the error |
| Messaging.AllDoneAtDisconnect | sawtooth_sdk/messaging/stream.py:136-154 | Right after a disconnect every future in the collection is done |
| Messaging.UnresolvedWhileDown | sawtooth_sdk/messaging/stream.py:285-304 | While the link is down the unresolved futures are exactly those stored since it went down by sends let through before |
| Messaging.SendRace | sawtooth_sdk/messaging/stream.py:294-303 | A run in which a send leaves an unresolved future behind a disconnect |
| Messaging.OneDestination | sawtooth_sdk/messaging/stream.py:90-103 | While ready each message goes either to its waiting future or to the end of the receive queue, never to both |
| Messaging.QueueIsArrivals | sawtooth_sdk/messaging/stream.py:99-103 | For every connection: what the client took from it is a beginning of what arrived on it, in order; on the present connection what is queued is the rest |
| Messaging.ArrivedStarts | sawtooth_sdk/messaging/stream.py:227-230 | What arrived on a connection starts with a reconnect event exactly if it is not the first; it holds no other |
| Messaging.TakenStarts | sawtooth_sdk/messaging/stream.py:125-133 | In all the client takes, connections come in order and an item is a reconnect event exactly when it is the first of a later connection |
| Messaging.SentInOrder | sawtooth_sdk/messaging/stream.py:106-122 | For every connection: what left on it is a beginning of what was queued on it, in order, without gap or repetition; on the present connection what is queued is the rest |
| Futures.Future.SetResult | sawtooth_sdk/messaging/future.py:66-69 | The future holds the new result |
| Futures.FutureCollection.Put | sawtooth_sdk/messaging/future.py:85-87 | The collection waits for the future, under its own id |
| Futures.FutureCollection.SetResult | sawtooth_sdk/messaging/future.py:89-99 | Resolves the future with that id and no other, or reports that there is none |
| Futures.FutureCollection.Remove | sawtooth_sdk/messaging/future.py:101-106 | The collection no longer waits for the id; no future changes |
| Futures.FutureCollection.ResolveAll | sawtooth_sdk/messaging/stream.py:147-148 | Every future in the collection gets the value, no other future changes, and all stay in the collection |
| Streams.SendReceiveThread.Receive | sawtooth_sdk/messaging/stream.py:87-103 | The method is the receive step |
| Streams.SendReceiveThread.Disconnect | sawtooth_sdk/messaging/stream.py:139-154 | The method is the disconnect step |
| Streams.SendReceiveThread.Connect | sawtooth_sdk/messaging/stream.py:220-255 | The method is the connect step, with its reconnect event |
| Streams.SendReceiveThread.constructor | sawtooth_sdk/messaging/stream.py:207-247 | The first connection starts ready with empty queues and no reconnect event |
| Streams.SendReceiveThread.PutMessage | sawtooth_sdk/messaging/stream.py:156-171 | The method is the enqueue step; nothing happens when not ready |
| Streams.SendReceiveThread.SendMessage | sawtooth_sdk/messaging/stream.py:106-114 | The method is the transmit step; it sends the first message queued exactly if the link is ready and there is one |
| Streams.SendReceiveThread.GetMessage | sawtooth_sdk/messaging/stream.py:125-133 | The method is the take step and gives the first item queued |
| Streams.Stream.Send | sawtooth_sdk/messaging/stream.py:285-304 | Without interference a send is its check, its put and its enqueue, and the future it returns is the one the registry holds under its id; when not ready it fails and changes nothing |
| Streams.Stream.SendBack | sawtooth_sdk/messaging/stream.py:306-320 | Enqueues when ready, fails otherwise |
| Routing.RoutedIffRegistered | sawtooth_sdk/processor/core.py:99-131 | A header finds a handler exactly when some registration request has its family and version, and it is the earliest added that matches |
| Routing.RequestsInOrder | sawtooth_sdk/processor/core.py:116-131 | There is one request for each handler and version, in the order added and listed |
| Routing.AddingKeepsRoutes | sawtooth_sdk/processor/core.py:80-131 | Adding a handler changes no route there was, routes to it what only it matches, and registers it last |
| Processing.TransactionProcessor.ProcessMessage | sawtooth_sdk/processor/core.py:142-225 | What is applied and sent is what Process defines, for every way apply and the link can behave |
| Processing.TransactionProcessor.RegisterAll | sawtooth_sdk/processor/core.py:252-281 | Sends all requests, then judges the replies in order; a send that fails or an interrupt ends it there |
| Processing.TransactionProcessor.ProcessFuture | sawtooth_sdk/processor/core.py:227-250 | One turn of either loop: a reconnect event registers unless draining, a ping is answered, a request processed |
| Processing.TransactionProcessor.ProcessAll | sawtooth_sdk/processor/core.py:306-311 | The loop handles turns in order until one ends it |
| Processing.TransactionProcessor.StartAll | sawtooth_sdk/processor/core.py:298-335 | The phases of start, with an interrupt at any point of them: registration, main loop, unregistration, drain |
| Processing.TransactionProcessor.SetHeaderStyle | sawtooth_sdk/processor/core.py:87-97 | Sets the style; the requested feature becomes the one that has styles if none was requested, and else stays |
| Processing.RegistrationMeaning | sawtooth_sdk/processor/core.py:252-281 | A registration is accepted exactly when all requests are sent and no reply objects; else the first request not sent, or the first reply that stops it, decides between version error, failure, interrupt and escape; what was sent is all requests, or those before the failing one |
| Processing.RoutedByHeader | sawtooth_sdk/processor/core.py:153-164 | Unless raw headers were asked for, a request is applied exactly when the link is ready and some registration request asks for its header, once, by the earliest handler that matches, whatever its raw header; if they were, the same with the two exchanged |
| Responses.ReplyMeaning | sawtooth_sdk/processor/core.py:158-250 | A turn has a response, with its own id, exactly when it is a ping or a request that a handler matches and apply ends in one of the four answered ways, with the link up; a ping gets a ping response, a request the status OK, internal error or invalid exactly for the ends that go with it; the loop goes on after it |
| Responses.TwoHeaders | sawtooth_sdk/processor/core.py:153-164 | Requests whose two headers differ: the handler of the one that counts answers, and nobody where that one is unknown |
| Responses.RepliesInOrder | sawtooth_sdk/processor/core.py:306-311 | Responses come in the order of the requests, and no begun request that has one is skipped |
| Responses.NoRequestAnsweredTwice | sawtooth_sdk/processor/core.py:306-311 | A loop over requests with distinct ids answers none twice |
| Responses.DrainAnswersAgain | sawtooth_sdk/processor/core.py:312-323 | For every run of start and everything its environment may do: some request is answered twice exactly when the registration was accepted, every turn let the main loop go on, the user interrupted it then, unregistration settled, the last turn was a message that is answered, and it is answered again when the drain takes up its future once more; each condition is one on the inputs |
| Responses.AnsweredTwiceRun | sawtooth_sdk/processor/core.py:312-323 | A run in which one request is answered OK twice |
| Endings.LoopGoesOn | sawtooth_sdk/processor/core.py:306-311 | A loop gets through its turns exactly when each of them, by its own inputs, lets it go on |
| Endings.TurnEnds | sawtooth_sdk/processor/core.py:227-281 | For each way a turn can end, the inputs under which it ends so: it goes on, times out, escapes, fails with a RuntimeError, or leaves by an interrupt or a version error |
| Endings.LoopEnds | sawtooth_sdk/processor/core.py:306-323 | A loop ends as the first turn that does not let it go on ends, having handled exactly the turns before it |
| Endings.StartEnds | sawtooth_sdk/processor/core.py:298-335 | For every run of start, exactly when it crashes, stops, exits or spins, in what its environment does: first registration, turns, unregistration and drain |
| Endings.StartTells | sawtooth_sdk/processor/core.py:298-323 | start registers first, sends one unregister request after its main block and before its drain exactly when it is left by an interrupt or a version error and the link lets it, and registers nothing in the drain |
| Endings.CrashingTurns | sawtooth_sdk/processor/core.py:234-258 | Three inputs that end the process: a state request of apply that times out, a ping while the link is down, a link that is down again at the re-registration |
| Responses.RepliesOfStart | sawtooth_sdk/processor/core.py:303-323 | The responses of start are those of its main loop followed, exactly if the drain is reached with a future to look at, by those of its drain |
| Processing.StartSpins | sawtooth_sdk/processor/core.py:303-323 | start never returns by itself exactly when unregistration settles and the main block was left before the first future was received: by an interrupt of a registration send, by the first reply that stops it being a wrong version or an interrupt, or by an interrupt right after an accepted registration |
| Processing.SpinsOnEarlyInterrupt | sawtooth_sdk/processor/core.py:303-323 | Two such inputs: an interrupt while the first registration waits for its reply, and one right after it |
| ProcessorOnStream.RegisteredFirst | sawtooth_sdk/processor/core.py:235-250 | In every interleaving, with turns cancelled by disconnects anywhere, a message of a later connection is handled by the main loop only after an accepted registration of all handlers that began with that connection's reconnect event |
| ZmqDriver.Driver.DriverLoop | sawtooth_sdk/consensus/zmq_driver.py:74-99 | For every placement of timeouts: one item is served for each resolved future, without gap or repetition; updates and acks are exactly theirs, in order; the loop fails only at an item that raises and exits only when told to, and then it stops the engine |
| ZmqDriver.Driver.Process | sawtooth_sdk/consensus/zmq_driver.py:184-254 | A message is acked with its id and gives its kind and data exactly if it is one of the seven notifications and can be parsed, the deactivation or a ping, and the link is up; an activation or an unknown kind is reported, anything else raises; deactivation sets the exit flag, stops the engine and closes the stream before the ack |
| ZmqDriver.ServedMeans | sawtooth_sdk/consensus/zmq_driver.py:82-96 | For each kind written out: the seven notifications give their kind and parsed data, the deactivation empty data, a ping no update; these nine are acknowledged with their own ids unless one fails; all others give and acknowledge nothing |
| ZmqDriver.Driver.WaitUntilActive | sawtooth_sdk/consensus/zmq_driver.py:147-182 | For every placement of timeouts: drops one message unacknowledged for each resolved future until the activation, acks it, gives its data and leaves the stream right after it; breaks off only at an item that is no message or an activation that fails |
| ZmqDriver.ServedInPieces | sawtooth_sdk/consensus/zmq_driver.py:74-99 | Cutting the stream anywhere, the updates and acks of the pieces are those of the whole |
| Workload.RunConserves | examples/intkey_python/sawtooth_intkey/client_cli/workload/workload_generator.py:74-197 | In every interleaving, exceptions included: every announced batch is pending, in a check, committed, dropped or lost with a dead thread, as often as it was announced; the counter is the checks under way plus the dead threads; the windows have equal length of at most ten |
| Workload.RunLosesNothing | examples/intkey_python/sawtooth_intkey/client_cli/workload/workload_generator.py:139-170 | Without an exception nothing is lost and the counter is the number of checks under way |
| Workload.CheckedInOrder | examples/intkey_python/sawtooth_intkey/client_cli/workload/workload_generator.py:120-127 | As long as no batch was put back, batches are checked in the order they were announced |
| Workload.WindowIsLatest | examples/intkey_python/sawtooth_intkey/client_cli/workload/workload_generator.py:81-101 | The window of submission rates and the window of commit rates each hold the latest ten samples taken of their rate, each sample being what was announced, or seen committed, since the sample before over the time since then |
| Workload.RateMeans | examples/intkey_python/sawtooth_intkey/client_cli/workload/workload_generator.py:82-91 | A rate times the time it was taken in is the count |
| Workload.RatesAreCounts | examples/intkey_python/sawtooth_intkey/client_cli/workload/workload_generator.py:116-118 | In every run the two counters are the batches announced with an id, and those seen committed, since the last sample, and the time kept is that of the last sample |
| Workload.LedgerIsHistory | examples/intkey_python/sawtooth_intkey/client_cli/workload/workload_generator.py:148-167 | In every run a batch is recorded as committed or dropped as often as it was answered so |
| Workload.StatusDecides | examples/intkey_python/sawtooth_intkey/client_cli/workload/workload_generator.py:148-167 | After its callback a batch answered as pending goes back to the front of the queue, and no other does |
| Workload.NeverInTwoPlaces | examples/intkey_python/sawtooth_intkey/client_cli/workload/workload_generator.py:139-197 | A batch announced once is in exactly one place |
| Workload.WorkloadGenerator.SimulatorTick | examples/intkey_python/sawtooth_intkey/client_cli/workload/workload_generator.py:75-127 | The method is the tick step: sample, trim both windows, count and dispatch one check with the first pending batch; nothing is dispatched exactly if the division by zero ends the loop |
| Workload.WorkloadGenerator.OnNewBatch | examples/intkey_python/sawtooth_intkey/client_cli/workload/workload_generator.py:181-197 | The method is the announcement step; nothing happens without an id |
| Workload.WorkloadGenerator.CheckAnswered | examples/intkey_python/sawtooth_intkey/client_cli/workload/workload_generator.py:148-167 | The method is the step of a check that got its answer |
| Workload.WorkloadGenerator.CheckPutBack | examples/intkey_python/sawtooth_intkey/client_cli/workload/workload_generator.py:157-160 | The method is the step that puts a pending batch back at the front |
| Workload.WorkloadGenerator.CheckFinished | examples/intkey_python/sawtooth_intkey/client_cli/workload/workload_generator.py:169-170 | The method is the last step of a check |
| MockValidator.ComparesMultisets | sawtooth_processor_test/mock_validator.py:286-295 | Two set requests compare equal exactly when they have the same entries the same number of times |
| MockValidator.PairTotalOrder | sawtooth_processor_test/mock_validator.py:290-291 | Python's order on pairs of address and data is total |

## Left out

- Streams.SendReceiveThread.Disconnect: sockets, asyncio tasks and locks; a step is atomic, so a send that stores its future while a disconnect iterates over the live view of the dict, which can make that loop raise, is not modelled.
- Streams.Stream.Send: blocking waits; put_message is one step that finds the link ready or not.
- XoHandler.XoTransactionHandler.TakeSpace: the game object is a value that the method rebinds, so sharing of one object between dicts is not modelled; it is the middle of apply, and has no counterpart of its own in the source.
- Intkey.UnpackedIsValid: Python's True and False, which pass for integers, are not told apart from 1 and 0.
- ZmqDriver.Driver.Process: the fields of each notification; a parser gives the data of a message or fails.
- Bytes are character sequences: UTF-8 is not modelled, and bytes that do not decode take the same branches as text with the wrong number of fields.
- SHA-512, CBOR, protobuf and secp256k1 are parameters or assumptions.
- Python's text quirks of `int()`; `_display`, `_game_data_to_str` and logging.
- How long anything takes: waits for the link to come up, the length of a timeout, and liveness of any kind. A timeout that passes is an input.
- Receipts and events of `Context`, and requests for several addresses at once: neither handler uses them.
- `ZmqDriver._register`, `ZmqService`, the engine and the driver's start-up thread.
- `MockValidator` itself, `compare_tp_process_response_status_only`, the message factories, clients, command lines and configuration.
- The moving averages the workload generator displays, and what the workload does in its callbacks, which return or raise.
