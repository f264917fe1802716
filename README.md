# Elements raw-transaction helpers, modelled in Dafny

This project models `src/rpc/rawtransaction_util.cpp` of Elements. The file holds the helpers behind the raw-transaction RPCs:

- **Peg-in output matcher** (`GetPeginTxnOutputIndex`): finds the parent-chain output that pays a claim script under one of the federation's peg-in scripts.
- **Peg-in input materialiser** (`CreatePegInInputInner` and its `CreatePegInInput` forwarders): checks a parent-chain transaction and its SPV proof. It then writes a peg-in input and its peg-in witness into a transaction, in place.
- **`ConstructTransaction`**: builds a transaction from typed input references and output entries. It applies the BIP 125 sequence policy, the `data`/`vdata`/`burn`/`fee` special outputs, the duplicate checks, the fee-last rule and the opt-in RBF check.
- **`ParsePrevouts`**: turns the caller's previous outputs into the coin map. With a keystore, it also checks and records the redeem and witness scripts.
- **Signing path**: the peg-in audit (`ValidateTransactionPeginInputs`), the `SignTransaction` wrapper and the result assembly (`SignTransactionResultToJSON`).

## How it is modelled

Files and modules:

| file | module | contents |
|---|---|---|
| `wrappers.dfy` | `Wrappers` | `Option` and `Result` |
| `scripts.dfy` | `Scripts` | script pushes, OP_RETURN scripts, the P2SH/P2WSH/witness-program shapes |
| `primitives.dfy` | `Primitives` | transactions, parent-chain objects, the chain record, one `Error` constructor per throw site |
| `pegin_match.dfy` | `PeginMatch` | the output matcher |
| `pegin_input.dfy` | `PeginInput` | the peg-in materialiser |
| `build_inputs.dfy`, `build_outputs.dfy`, `construct.dfy` | `BuildInputs`, `BuildOutputs`, `Construct` | `ConstructTransaction` |
| `prevouts.dfy` | `Prevouts` | `ParsePrevouts` |
| `signing.dfy` | `Signing` | the signing path |

Code that updates state in place is imperative Dafny:

- A `MutableTransaction` class has `vin`, `vout`, `vtxinwit` and `nLockTime` fields. `CreatePegInInput`, `ConstructTransaction` and the signing wrapper change it.
- A `SigningContext` class holds the coin map and the keystore's scripts for `ParsePrevouts`.
- Every loop of the source that updates state is a `while` loop. Its invariant ties the local state to a prefix fold (`AddInputs`, `EmitUpTo`, `ParseUpTo`, `AuditUpTo`, `EntriesUpTo`), and the properties are proved about those folds. The vdata push loop only builds a script value, so it is the recursive function `Scripts.Pushes`.

Error handling:

- Every `throw` becomes a `Failure` with its own `Error` constructor.
- `CHECK_NONFATAL` also becomes a failure. The empty witness script gives `EmptyWitnessScript`, and an unexpected peg-in reason gives `UnexpectedPeginReason`.
- `std::out_of_range` from `.at()` gives `IndexOutOfRange`.

Collaborators whose code is not part of this model are function-typed fields of records: `Crypto`, `Chain`, `OutputContext`/`Node` and `Signer`. This covers:

- hashing and `calculate_contract`;
- the parent-chain deserialisers, with the merkle-block extraction result carried in the decoded block;
- `IsValidPeginWitness`, `CheckParentProofOfWork` and `CheckProofSignedParent`;
- the federation scripts at the tip;
- address decoding;
- the inner signer and `ParseSighashString`.

UniValue objects are sequences of key/value pairs. Duplicate keys are kept, and lookups return the first match, as `find_value` and `operator[]` do. So a second `fee`, `burn` or `vdata` key reuses the first key's value. `std::set<CScript>` is a sequence with no repeats, in iteration order. `std::map<int, std::string>` is an ascending association list (`Signing.ErrorMap`).

Behaviour of the code, as written, that the model keeps:

- The input slot is overwritten before the peg-in witness self-check. A failing self-check therefore leaves a changed input behind (`PeginInput.SelfCheckFailureChangesInputs`).
- `ParsePrevouts` writes the coin before the keystore checks. A keystore error leaves the new coin in place (`Prevouts.PrevoutStep`).
- When the redeem and witness scripts are both given, they are compared as hex text. The same script written in different letter case takes the mismatch path.
- A peg-in input always gets the final sequence number. So an RBF request whose inputs are all peg-ins always fails the final RBF check (`Construct.RbfWithOnlyPeginsFails`).

## Model

| member | source | states |
|---|---|---|
| Scripts.PushDataRoundTrip | src/rpc/rawtransaction_util.cpp:286-288 | a data push read back gives the pushed bytes and the rest of the script, for every push form |
| Scripts.PushesRoundTrip | src/rpc/rawtransaction_util.cpp:296-300 | the pushes of a list of items read back as exactly that list |
| Scripts.NullDataScript | src/rpc/rawtransaction_util.cpp:311-312 | the script of a data, vdata or burn output starts with OP_RETURN |
| Scripts.NullDataRoundTrip | src/rpc/rawtransaction_util.cpp:286-302 | the payload of an OP_RETURN output reads back as the items pushed into it |
| Scripts.WitnessProgram | src/rpc/rawtransaction_util.cpp:99-103 | a witness program is a version opcode plus one direct push of 2 to 40 bytes that ends the script |
| Scripts.P2WSH | src/rpc/rawtransaction_util.cpp:452-453 | the P2WSH script of a script is P2WSH-shaped and is a version-0 witness program over its SHA-256 |
| Scripts.P2SH | src/rpc/rawtransaction_util.cpp:471-472 | the P2SH script of a script is P2SH-shaped and is no witness program |
| Primitives.Grow | src/rpc/rawtransaction_util.cpp:111-112 | resizing keeps the existing prefix and pads with the default element up to the new length |
| PeginMatch.DerivedScript | src/rpc/rawtransaction_util.cpp:31-34 | the parent-chain script is P2SH-shaped when the pair's template is P2SH, and P2WSH-shaped otherwise |
| PeginMatch.OutputIndex | src/rpc/rawtransaction_util.cpp:28-42 | the result is an output index or the number of outputs |
| PeginMatch.FirstOutputFromSpec | src/rpc/rawtransaction_util.cpp:35-39 | the inner scan returns the first output from n on that pays the script, or the number of outputs when none does |
| PeginMatch.OutputIndexFromSpec | src/rpc/rawtransaction_util.cpp:30-41 | the pair scan returns the first match of the first pair that matches at all, or the number of outputs |
| PeginMatch.OutputIndexIsFirstMatch | src/rpc/rawtransaction_util.cpp:28-42 | the search answers the first output of the first matching pair (pairs outrank outputs), or reports that nothing matches |
| PeginMatch.UniqueMatchIsFound | src/rpc/rawtransaction_util.cpp:28-42 | when exactly one pair and output match, the search finds that output |
| PeginMatch.GetPeginTxnOutputIndex | src/rpc/rawtransaction_util.cpp:28-42 | the nested loops return the first match in that priority order, equal to the functional search |
| PeginMatch.SelectClaim | src/rpc/rawtransaction_util.cpp:83-89 | a selected claim comes with a valid output index of the parent transaction |
| PeginMatch.SelectClaimSpec | src/rpc/rawtransaction_util.cpp:83-89 | the selected claim is the first claim script, in iteration order, whose search succeeds; none is selected iff every search fails |
| PeginMatch.SelectClaimNone | src/rpc/rawtransaction_util.cpp:83-89 | no claim script is selected iff none of them matches an output |
| PeginMatch.SelectClaimSome | src/rpc/rawtransaction_util.cpp:83-89 | a selected claim script is the first one, in iteration order, that matches, paired with its output index |
| PeginMatch.FindClaimedOutput | src/rpc/rawtransaction_util.cpp:80-89 | the claim loop returns the selected claim and its output, or an empty script and the number of outputs |
| PeginInput.CheckPegIn | src/rpc/rawtransaction_util.cpp:48-108 | the checks run in source order, before any write; the result is the plan or the first failing check's error |
| PeginInput.CreatePegInInput | src/rpc/rawtransaction_util.cpp:46-144 | the new inputs and witnesses and the result are those of the materialisation; the outputs and the locktime are unchanged |
| PeginInput.ErrorsBeforeMutation | src/rpc/rawtransaction_util.cpp:48-108 | every failure of the checks leaves both vectors untouched |
| PeginInput.ProofChecks | src/rpc/rawtransaction_util.cpp:60-78 | leftover proof bytes or a merkle-root mismatch fail as an invalid proof; a successful plan's proof matches exactly the parent transaction |
| PeginInput.ClaimSearchError | src/rpc/rawtransaction_util.cpp:90-96 | when no claim script matches, the error depends on whether one claim script or several were given |
| PeginInput.PlanClaimsFirstMatch | src/rpc/rawtransaction_util.cpp:80-108 | a plan claims the first matching output for the first matching claim script; that script is a v0 witness program; the amount is the output's explicit value |
| PeginInput.PlanSelects | src/rpc/rawtransaction_util.cpp:48-108 | a successful plan carries the decoded transaction, the selected claim script and output, a v0 witness program, and the output's explicit amount, whose asset is absent or the parent pegged asset |
| PeginInput.ForeignAmountRequired | src/rpc/rawtransaction_util.cpp:105-108 | once the proof and claim checks pass, a claimed output with a non-explicit value or another asset fails with the no-explicit-amount error |
| PeginInput.SuccessfulWrite | src/rpc/rawtransaction_util.cpp:110-134 | the slot holds a final-sequence peg-in input for the claimed outpoint and the peg-in witness; the other slots are unchanged or new defaults |
| PeginInput.SecondPegInFails | src/rpc/rawtransaction_util.cpp:48-134 | materialising a second peg-in into the same slot fails with the slot-in-use error and changes nothing |
| PeginInput.SelfCheckFailureChangesInputs | src/rpc/rawtransaction_util.cpp:110-124 | a failed self-check still leaves the slot overwritten with a final-sequence, non-peg-in input; the witnesses are untouched |
| BuildInputs.DefaultSequence | src/rpc/rawtransaction_util.cpp:189-196 | under RBF the default signals replaceability; otherwise it does not, and with a locktime it is below final |
| BuildInputs.InputFailureSticks | src/rpc/rawtransaction_util.cpp:176-247 | the first failing reference decides the loop's error |
| BuildInputs.AddInputsPlaces | src/rpc/rawtransaction_util.cpp:176-247 | one input per reference, in order. Every reference has a non-negative vout and any explicit sequence in [0, SEQUENCE_FINAL]. A plain input has its outpoint and sequence. A peg-in slot holds the final-sequence input for the outpoint its own plan claims, and that plan's peg-in witness, and its parent block passed the proof check |
| BuildInputs.PeginFieldsAllOrNone | src/rpc/rawtransaction_util.cpp:216-246 | the loop fails on a reference with some but not all peg-in fields, or with any of them when peg-ins are not allowed |
| BuildInputs.NegativeVoutFails | src/rpc/rawtransaction_util.cpp:185-187 | after a successful prefix, a reference with a negative vout makes the loop fail with the negative-vout error |
| BuildInputs.SequenceOutOfRangeFails | src/rpc/rawtransaction_util.cpp:199-204 | after a successful prefix, an explicit sequence outside [0, SEQUENCE_FINAL] makes the loop fail with the sequence-range error |
| BuildInputs.RejectedReferenceFails | src/rpc/rawtransaction_util.cpp:185-246 | the loop fails if any reference is out of range, or is a peg-in whose plan fails or whose parent block fails the proof check |
| BuildOutputs.Lookup | src/rpc/rawtransaction_util.cpp:276-277 | a lookup finds the value of the first entry with that key, and nothing iff no entry has it |
| BuildOutputs.EntryOutput | src/rpc/rawtransaction_util.cpp:271-345 | data, vdata and burn outputs start with OP_RETURN. Data and vdata are worth 0, fee and burn amounts are in range, and the fee script is empty. An address output pays its script; the blinding key goes into the nonce only when keys are not returned. The asset is the requested one |
| BuildOutputs.EntryOutputSpec | src/rpc/rawtransaction_util.cpp:281-345 | fee, burn and address outputs are worth exactly the requested amount, which is in range; data and vdata outputs are the OP_RETURN script of the requested bytes or items |
| BuildOutputs.EntryPayload | src/rpc/rawtransaction_util.cpp:284-302 | the payload read back from a data or vdata output is exactly the requested data, or the requested items |
| BuildOutputs.SameNameSameOutput | src/rpc/rawtransaction_util.cpp:276-330 | two entries with the same key yield the same output |
| BuildOutputs.EmitUpToSpec | src/rpc/rawtransaction_util.cpp:271-346 | after the loop: the outputs are the expected ones in key order; the keys match them one for one; the data flag, destination set and pending fee match the keys seen |
| BuildOutputs.OutputsSeen | src/rpc/rawtransaction_util.cpp:271-346 | after a successful loop prefix, the outputs and keys are the expected ones for the keys seen |
| BuildOutputs.DataSeen | src/rpc/rawtransaction_util.cpp:281-285 | after a successful loop prefix, the data flag is set iff a data key was seen |
| BuildOutputs.DestinationsSeen | src/rpc/rawtransaction_util.cpp:320-327 | after a successful loop prefix, the destination set is exactly the decoded addresses seen |
| BuildOutputs.FeeSeen | src/rpc/rawtransaction_util.cpp:307-310 | after a successful loop prefix, a fee is pending iff a fee key was seen, and it is that key's output |
| BuildOutputs.FailureSticks | src/rpc/rawtransaction_util.cpp:271-346 | once the output loop fails, its result stays that failure |
| BuildOutputs.DuplicateDataFails | src/rpc/rawtransaction_util.cpp:281-285 | a second data key always fails |
| BuildOutputs.DuplicateDestinationFails | src/rpc/rawtransaction_util.cpp:320-327 | two keys that decode to the same address always fail |
| BuildOutputs.SeenDestinationFails | src/rpc/rawtransaction_util.cpp:320-327 | an address already in the destination set makes the step fail with a duplicate-address error |
| BuildOutputs.StepFailureSticks | src/rpc/rawtransaction_util.cpp:271-346 | a failing step after a successful prefix fails the whole loop |
| Construct.AddInputsTo | src/rpc/rawtransaction_util.cpp:176-247 | the input loop leaves exactly the inputs and witnesses of the fold, or returns its error |
| Construct.AddInput | src/rpc/rawtransaction_util.cpp:177-246 | one pass appends the input the step function names, or returns the step's error |
| Construct.EmitOutputsTo | src/rpc/rawtransaction_util.cpp:264-346 | the output loop's outcome is the fold's, and the outputs written are the fold's |
| Construct.EmitEntry | src/rpc/rawtransaction_util.cpp:272-345 | one entry's outcome is the step function's, and the outputs written are the step's |
| Construct.AppendFee | src/rpc/rawtransaction_util.cpp:348-354 | the fee output is appended last, with an empty key, iff its amount is positive |
| Construct.ConstructTransaction | src/rpc/rawtransaction_util.cpp:146-361 | the result is the staged specification: locktime, inputs, outputs, fee, RBF check |
| Construct.ConstructSuccess | src/rpc/rawtransaction_util.cpp:164-358 | a built transaction has the locktime and one placed input per reference (vout and sequence in range, peg-ins tied to their own plan). It has the expected outputs, with the fee last iff positive, and keys parallel to the outputs when asked. It signals RBF when RBF is requested |
| Construct.LockTimeChecked | src/rpc/rawtransaction_util.cpp:164-169 | a locktime below 0 or above LOCKTIME_MAX fails with the locktime error |
| Construct.PeginsNeverSignal | src/rpc/rawtransaction_util.cpp:114 | placed peg-in inputs never signal replaceability |
| Construct.RbfWithOnlyPeginsFails | src/rpc/rawtransaction_util.cpp:356-358 | an RBF request whose inputs are all peg-ins always fails |
| Construct.RbfDefaultSequenceSignals | src/rpc/rawtransaction_util.cpp:190-191 | with a plain input on the default sequence, an RBF request succeeds iff the locktime and both loops do |
| Construct.DuplicateOutputsRejected | src/rpc/rawtransaction_util.cpp:281-327 | two data keys, or two keys for the same address, make the whole construction fail |
| Prevouts.KeystoreStep | src/rpc/rawtransaction_util.cpp:433-499 | the keystore part succeeds iff no script is needed, or a script is given, the two scripts agree and the output script derives from the chosen one; coins untouched |
| Prevouts.PrevoutStep | src/rpc/rawtransaction_util.cpp:401-429 | a negative vout fails at once. An unspent coin already held for the outpoint with another script fails with the mismatch error. A stated amount out of range fails with the amount error. All three leave the state as it was. Past those checks the entry's new coin is written, even when the keystore checks then fail |
| Prevouts.ParseStopsAtFirstError | src/rpc/rawtransaction_util.cpp:385-502 | the first rejected entry decides the outcome and the state left behind |
| Prevouts.ParsedCoins | src/rpc/rawtransaction_util.cpp:410-429 | after a parse every entry's outpoint holds an unspent coin at height 1 with that entry's script; the last entry for an outpoint decides its coin; other coins are untouched |
| Prevouts.ParsedScripts | src/rpc/rawtransaction_util.cpp:435-499 | with a keystore, every P2SH/P2WSH entry gave a script whose P2SH, P2SH-P2WSH or P2WSH is its output; the keystore holds it and its P2WSH and learned nothing else |
| Prevouts.NoKeystoreNoScripts | src/rpc/rawtransaction_util.cpp:435 | without a keystore no script is recorded |
| Prevouts.ConflictingEntriesRejected | src/rpc/rawtransaction_util.cpp:411-418 | two entries for one outpoint with different scripts always fail |
| Prevouts.ExistingCoinConflictRejected | src/rpc/rawtransaction_util.cpp:411-417 | an entry that conflicts with an unspent coin of the starting view, and whose outpoint no earlier entry names, always fails the parse, with the mismatch error when it is reached |
| Prevouts.ParsedAgreesWithView | src/rpc/rawtransaction_util.cpp:411-417 | after a successful parse, the first entry naming each outpoint agreed with any unspent coin the starting view held there |
| Prevouts.CoinUntouched | src/rpc/rawtransaction_util.cpp:410-429 | a starting coin whose outpoint no entry names survives a successful parse unchanged |
| Prevouts.AmountOutOfRangeRejected | src/rpc/rawtransaction_util.cpp:420-421 | an entry with a stated amount outside the money range always fails the parse |
| Prevouts.SigningContext.ParsePrevouts | src/rpc/rawtransaction_util.cpp:381-503 | the loop leaves the coins and scripts of the fold and returns its error; an absent list changes nothing |
| Prevouts.SigningContext.ParseOne | src/rpc/rawtransaction_util.cpp:386-499 | one entry's checks and writes, as the step function |
| Prevouts.SigningContext.LearnScripts | src/rpc/rawtransaction_util.cpp:433-499 | the keystore part of one entry: the script learned, or the error raised, as the keystore step function says |
| Signing.Put | src/rpc/rawtransaction_util.cpp:516 | after setting a key, that key maps to the message and every other key is unchanged |
| Signing.AuditFailure | src/rpc/rawtransaction_util.cpp:519-522 | the audit fails iff some immature peg-in fails for another reason than missing confirmations, and then with the first one's reason |
| Signing.AuditSuccess | src/rpc/rawtransaction_util.cpp:506-526 | exactly the peg-in inputs with no witness slot or a failing depth-free check get the invalid-proof message; other entries are kept; the flag is set iff some input is immature |
| Signing.OnlyPeginsFlagged | src/rpc/rawtransaction_util.cpp:515-517 | a non-peg-in input's entry is never changed by the audit |
| Signing.ValidateTransactionPeginInputs | src/rpc/rawtransaction_util.cpp:506-526 | the loop's result is the audit's |
| Signing.EntriesSpec | src/rpc/rawtransaction_util.cpp:544-550 | the entries succeed iff every error is not a missing amount and names an input and a witness; they list the errors in index order |
| Signing.MissingAmountThrows | src/rpc/rawtransaction_util.cpp:545-548 | any missing-amount error makes the assembly fail |
| Signing.ResultSpec | src/rpc/rawtransaction_util.cpp:540-563 | the report carries the transaction and the complete flag, new errors ahead of earlier ones (only when there are new ones), and the warning iff a peg-in is immature |
| Signing.SignTransactionResultToJSON | src/rpc/rawtransaction_util.cpp:540-563 | the loop's result is the assembly's |
| Signing.SignReportsAudit | src/rpc/rawtransaction_util.cpp:528-538 | a consistency failure in the audit stops before signing and leaves the transaction as it was; a report warns iff the unsigned transaction has an immature peg-in |
| Signing.SignTransaction | src/rpc/rawtransaction_util.cpp:528-538 | the report and the signed transaction are the composition of sighash parsing, audit, signer and assembly |

## Left out

- JSON typing: UniValue type checks, `ParseHashO`, `ParseHex`/`IsHex`, the conversion of `outputs` from an array of one-key objects, and the fractional-digit rules of `AmountFromValue`. Requests arrive typed. Amounts are integers, and the range check of `AmountFromValue` is kept.
- The `outputs must be non-null` check and the non-object checks in `ParsePrevouts` are JSON typing and are left out with it.
- Byte-level deserialisation of the parent transaction and merkle block is an oracle. It returns the decoded value and the count of leftover bytes.
- BIP 37 merkle extraction and all hashing are uninterpreted functions.
- The chain tip, `Params()` and `GetValidFedpegScripts` are fields of the `Chain` record.
- Address decoding (`DecodeDestination`, `IsBlindDestination`, `GetDestinationBlindingKey`) is a function from the key to an optional destination.
- `EncodeHexTx`, `HexStr`, `ScriptToAsmStr` and the layout of `TxInErrorToJSON` are not modelled.
- An error entry keeps only its input index and message. The report keeps the transaction itself, not its hex.
- Error messages are not modelled beyond their constructors. The missing-amount error carries the outpoint, not the rendered coin.
- Prevouts.SigningContext.ParsePrevouts: the amount commitment bytes are stored as a commitment without being decoded, so a commitment that encodes an explicit value stays a commitment.
- The keystore is the set of scripts added. Lookups by script id and the keys themselves are not modelled.
- Signing.ResultSpec: earlier `errors` in the result are modelled as a list of error entries. The failure of `getValues` on an `errors` value that is neither array nor object is not modelled.
- The inner signer and `ParseSighashString` are oracles. Nothing is claimed about which errors the signer adds or removes.
- Integer widths: locktime and sequence are checked against the source's ranges before use, so no wrap-around occurs in the modelled paths.
- InputRef.vout and Prevout.vout are unbounded integers. `get_int()` rejects a vout outside the 32-bit signed range as part of JSON typing; the model accepts such a vout (2^31, say), where the source throws. A sequence outside the 64-bit range fails in the model with the sequence-range error, not with the JSON error `get_int64()` raises.
- GetAmountFromParentChainPegin is not part of this model. `PeginInput.ForeignAmount` states the rule it is taken to apply: the value must be explicit, and the asset absent (a parent chain without assets) or the parent pegged asset.
