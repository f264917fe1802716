/** ConstructTransaction: builds a transaction from a typed request, inputs
    first, then outputs, then the fee output, then the opt-in RBF check. */
module Construct {
  import opened Wrappers
  import opened Scripts
  import opened Primitives
  import opened PeginInput
  import opened BuildInputs
  import opened BuildOutputs

  /** A construction request, already typed. */
  datatype Request = Request(
    inputs: seq<InputRef>,
    outputs: Entries,
    lockTime: Option<int>,
    rbf: bool,
    assets: seq<(string, Hash256)>,
    allowPegIn: bool)

  /** The node-wide context: chain parameters and collaborators, the policy
      asset, and the address decoder. */
  datatype Node = Node(chain: Chain, policyAsset: Hash256, decodeDestination: string -> Option<Destination>)

  /** The built transaction and, when the caller asked for them, the
      blinding public keys of its outputs. */
  datatype Built = Built(tx: Tx, pubkeys: Option<seq<Bytes>>)

  function OutputsContext(node: Node, req: Request, wantPubkeys: bool): OutputContext
  {
    OutputContext(req.assets, node.policyAsset, node.decodeDestination, wantPubkeys)
  }

  predicate LockTimeInRange(req: Request)
  {
    req.lockTime.None? || 0 <= req.lockTime.value <= LOCKTIME_MAX
  }

  function LockTimeOf(req: Request): nat
    requires LockTimeInRange(req)
  {
    if req.lockTime.Some? then req.lockTime.value else 0
  }

  /** The outcome of ConstructTransaction, stage by stage. */
  function ConstructSpec(node: Node, req: Request, wantPubkeys: bool): Result<Built, Error>
  {
    if !LockTimeInRange(req) then Failure(LocktimeOutOfRange)
    else
      var lockTime := LockTimeOf(req);
      match AddInputs(node.chain, req.rbf, lockTime, req.allowPegIn, req.inputs, |req.inputs|)
      case Failure(e) => Failure(e)
      case Success((vin, wit)) =>
        var ctx := OutputsContext(node, req, wantPubkeys);
        match EmitUpTo(ctx, req.outputs, |req.outputs|)
        case Failure(e) => Failure(e)
        case Success(st) =>
          var fin := Finish(ctx, st);
          if req.rbf && |vin| > 0 && !SignalsOptInRBF(vin) then Failure(RbfContradiction)
          else Success(Built(Tx(vin, fin.vout, wit, lockTime), if wantPubkeys then Some(fin.pubkeys) else None))
  }

  /** The input loop of ConstructTransaction: appends one input per
      reference to rawTx and materialises the peg-ins; the error, if any,
      is the one the loop raises. */
  method AddInputsTo(rawTx: MutableTransaction, chain: Chain, rbf: bool, ghost lockTime: nat, allowPegIn: bool,
                     inputs: seq<InputRef>)
    returns (err: Option<Error>)
    requires rawTx.vin == [] && rawTx.vtxinwit == [] && rawTx.vout == [] && rawTx.nLockTime == lockTime
    modifies rawTx
    ensures rawTx.vout == [] && rawTx.nLockTime == lockTime
    ensures match AddInputs(chain, rbf, lockTime, allowPegIn, inputs, |inputs|)
      case Failure(e) => err == Some(e)
      case Success((vin, wit)) => err == None && rawTx.vin == vin && rawTx.vtxinwit == wit
  {
    var idx := 0;
    while idx < |inputs|
      invariant 0 <= idx <= |inputs|
      invariant AddInputs(chain, rbf, lockTime, allowPegIn, inputs, idx) == Success((rawTx.vin, rawTx.vtxinwit))
      invariant rawTx.vout == [] && rawTx.nLockTime == lockTime
    {
      AddInputsLength(chain, rbf, lockTime, allowPegIn, inputs, idx);
      err := AddInput(rawTx, chain, rbf, lockTime, allowPegIn, inputs[idx], idx);
      if err.Some? {
        InputFailureSticks(chain, rbf, lockTime, allowPegIn, inputs, idx + 1, |inputs|);
        return err;
      }
      idx := idx + 1;
    }
    return None;
  }

  /** One pass of the input loop: appends the input for reference `input`
      at position idx and, for a peg-in, materialises it in place. */
  method AddInput(rawTx: MutableTransaction, chain: Chain, rbf: bool, ghost lockTime: nat, allowPegIn: bool,
                  input: InputRef, idx: nat)
    returns (err: Option<Error>)
    requires |rawTx.vin| == idx && rawTx.nLockTime == lockTime
    modifies rawTx
    ensures rawTx.vout == old(rawTx.vout) && rawTx.nLockTime == lockTime
    ensures match InputStep(chain, rbf, lockTime, allowPegIn, old(rawTx.vin), old(rawTx.vtxinwit), input)
      case Failure(e) => err == Some(e)
      case Success((vin, wit)) => err == None && rawTx.vin == vin && rawTx.vtxinwit == wit
  {
    if input.vout < 0 {
      return Some(NegativeVout);
    }
    var nSequence: nat;
    if rbf {
      nSequence := MAX_BIP125_RBF_SEQUENCE;
    } else if rawTx.nLockTime != 0 {
      nSequence := SEQUENCE_FINAL - 1;
    } else {
      nSequence := SEQUENCE_FINAL;
    }
    if input.sequence.Some? {
      var seqNr := input.sequence.value;
      if seqNr < 0 || seqNr > SEQUENCE_FINAL {
        return Some(SequenceOutOfRange);
      }
      nSequence := seqNr;
    }
    rawTx.vin := rawTx.vin + [TxIn(OutPoint(input.txid, input.vout), [], nSequence, false)];

    if input.AllPegin() && allowPegIn {
      var claims := [input.peginClaimScript.value];
      var res := CreatePegInInput(rawTx, idx, claims, input.peginTx.value, input.peginProof.value, chain);
      if res.Failure? {
        return Some(res.error);
      }
      var header := res.value.block.header;
      if chain.parentHasPow {
        if !chain.checkParentPow(header) {
          return Some(InvalidTxOutProof);
        }
      } else {
        if !chain.checkProofSignedParent(header) {
          return Some(InvalidTxOutProof);
        }
      }
    } else if input.AnyPegin() {
      if allowPegIn {
        return Some(PartialPeginArguments);
      } else {
        return Some(PeginNotSupported);
      }
    }
    return None;
  }

  /** One pass of the output loop: the entry at position i, given the
      loop's running state; on success the new state, with rawTx.vout
      extended by the entry's output, if any. */
  method EmitEntry(rawTx: MutableTransaction, ctx: OutputContext, outputs: Entries, i: nat,
                   pubkeys0: seq<Bytes>, destinations0: set<Destination>, hasData0: bool, feeOut0: Option<TxOut>)
    returns (r: Result<Emitted, Error>)
    requires i < |outputs|
    modifies rawTx
    ensures rawTx.vin == old(rawTx.vin) && rawTx.vtxinwit == old(rawTx.vtxinwit) && rawTx.nLockTime == old(rawTx.nLockTime)
    ensures r == OutputStep(ctx, outputs, Emitted(old(rawTx.vout), pubkeys0, destinations0, hasData0, feeOut0), i)
    ensures r.Success? ==> rawTx.vout == r.value.vout
  {
    var wantPubkeys := ctx.wantPubkeys;
    var pubkeys, destinations, hasData, feeOut := pubkeys0, destinations0, hasData0, feeOut0;
    var name := outputs[i].0;
    var value := Lookup(outputs, name).value;
    var asset := AssetFor(ctx, name);
    if name == "data" {
      if hasData {
        return Failure(DuplicateData);
      }
      hasData := true;
      if !value.HexData? {
        return Failure(WrongValueType(name));
      }
      rawTx.vout := rawTx.vout + [TxOut(asset, Explicit(0), [], NullDataScript([value.data]))];
      if wantPubkeys {
        pubkeys := pubkeys + [[]];
      }
    } else if name == "vdata" {
      if !value.HexList? {
        return Failure(WrongValueType(name));
      }
      rawTx.vout := rawTx.vout + [TxOut(asset, Explicit(0), [], NullDataScript(value.items))];
      if wantPubkeys {
        pubkeys := pubkeys + [[]];
      }
    } else if name == "fee" {
      if !value.Amount? {
        return Failure(WrongValueType(name));
      }
      if !MoneyRange(value.amount) {
        return Failure(AmountOutOfRange);
      }
      feeOut := Some(TxOut(asset, Explicit(value.amount), [], []));
    } else if name == "burn" {
      if !value.Amount? {
        return Failure(WrongValueType(name));
      }
      if !MoneyRange(value.amount) {
        return Failure(AmountOutOfRange);
      }
      rawTx.vout := rawTx.vout + [TxOut(asset, Explicit(value.amount), [], NullDataScript([]))];
      if wantPubkeys {
        pubkeys := pubkeys + [[]];
      }
    } else {
      var decoded := ctx.decodeDestination(name);
      if decoded.None? {
        return Failure(InvalidAddress(name));
      }
      var dest := decoded.value;
      if dest in destinations {
        return Failure(DuplicateAddress(name));
      }
      destinations := destinations + {dest};
      if !value.Amount? {
        return Failure(WrongValueType(name));
      }
      if !MoneyRange(value.amount) {
        return Failure(AmountOutOfRange);
      }
      var blindPub: Bytes := [];
      var nonce: Bytes := [];
      if dest.blindingKey.Some? {
        blindPub := dest.blindingKey.value;
        if !wantPubkeys {
          nonce := blindPub;
        }
      }
      rawTx.vout := rawTx.vout + [TxOut(asset, Explicit(value.amount), nonce, dest.script)];
      if wantPubkeys {
        pubkeys := pubkeys + [blindPub];
      }
    }
    return Success(Emitted(rawTx.vout, pubkeys, destinations, hasData, feeOut));
  }

  /** The output loop of ConstructTransaction: appends the outputs of the
      entries to rawTx in key order and returns the loop's final state. */
  method EmitOutputsTo(rawTx: MutableTransaction, ctx: OutputContext, outputs: Entries)
    returns (r: Result<Emitted, Error>)
    requires rawTx.vout == []
    modifies rawTx
    ensures rawTx.vin == old(rawTx.vin) && rawTx.vtxinwit == old(rawTx.vtxinwit) && rawTx.nLockTime == old(rawTx.nLockTime)
    ensures r == EmitUpTo(ctx, outputs, |outputs|)
    ensures r.Success? ==> rawTx.vout == r.value.vout
  {
    var pubkeys: seq<Bytes> := [];
    var feeOut: Option<TxOut> := None;
    var destinations: set<Destination> := {};
    var hasData := false;
    ghost var vin, wit, lockTime := rawTx.vin, rawTx.vtxinwit, rawTx.nLockTime;

    var i := 0;
    while i < |outputs|
      invariant 0 <= i <= |outputs|
      invariant EmitUpTo(ctx, outputs, i) == Success(Emitted(rawTx.vout, pubkeys, destinations, hasData, feeOut))
      invariant rawTx.vin == vin && rawTx.vtxinwit == wit && rawTx.nLockTime == lockTime
    {
      var step := EmitEntry(rawTx, ctx, outputs, i, pubkeys, destinations, hasData, feeOut);
      if step.Failure? {
        FailureSticks(ctx, outputs, i + 1, |outputs|);
        return Failure(step.error);
      }
      pubkeys, destinations, hasData, feeOut := step.value.pubkeys, step.value.destinations, step.value.hasData, step.value.fee;
      i := i + 1;
    }

    r := Success(Emitted(rawTx.vout, pubkeys, destinations, hasData, feeOut));
  }

  /** The fee output goes at the very end, and only with a positive amount. */
  method AppendFee(rawTx: MutableTransaction, ctx: OutputContext, st: Emitted) returns (pubkeys: seq<Bytes>)
    requires rawTx.vout == st.vout
    modifies rawTx
    ensures rawTx.vin == old(rawTx.vin) && rawTx.vtxinwit == old(rawTx.vtxinwit) && rawTx.nLockTime == old(rawTx.nLockTime)
    ensures rawTx.vout == Finish(ctx, st).vout && pubkeys == Finish(ctx, st).pubkeys
  {
    pubkeys := st.pubkeys;
    var feeOut := st.fee;
    if feeOut.Some? && feeOut.value.value.Explicit? && feeOut.value.value.amount > 0 {
      rawTx.vout := rawTx.vout + [feeOut.value];
      if ctx.wantPubkeys {
        pubkeys := pubkeys + [[]];
      }
    }
  }

  /** The transaction builder as the source runs it: a fresh mutable
      transaction grown by the input loop and the output loop. */
  method ConstructTransaction(node: Node, req: Request, wantPubkeys: bool) returns (r: Result<Built, Error>)
    ensures r == ConstructSpec(node, req, wantPubkeys)
  {
    var rawTx := new MutableTransaction();
    if req.lockTime.Some? {
      var nLockTime := req.lockTime.value;
      if nLockTime < 0 || nLockTime > LOCKTIME_MAX {
        return Failure(LocktimeOutOfRange);
      }
      rawTx.nLockTime := nLockTime;
    }
    var err := AddInputsTo(rawTx, node.chain, req.rbf, LockTimeOf(req), req.allowPegIn, req.inputs);
    if err.Some? {
      return Failure(err.value);
    }
    var ctx := OutputsContext(node, req, wantPubkeys);
    var emitted := EmitOutputsTo(rawTx, ctx, req.outputs);
    if emitted.Failure? {
      return Failure(emitted.error);
    }
    var pubkeys := AppendFee(rawTx, ctx, emitted.value);

    if req.rbf && |rawTx.vin| > 0 && !SignalsOptInRBF(rawTx.vin) {
      return Failure(RbfContradiction);
    }
    r := Success(Built(rawTx.Snapshot(), if wantPubkeys then Some(pubkeys) else None));
  }

  /** The output list of a successful build: the expected outputs in key
      order, then the fee output iff its amount is positive. */
  ghost predicate OutputsInKeyOrder(ctx: OutputContext, outputs: Entries, vout: seq<TxOut>)
  {
    && (forall i :: 0 <= i < |outputs| && outputs[i].0 == "fee" ==>
          vout == Expected(ctx, outputs, |outputs|)
                  + (if FeeEmitted(EntryOutput(ctx, outputs, i)) then [EntryOutput(ctx, outputs, i).value] else []))
    && ((forall i :: 0 <= i < |outputs| ==> outputs[i].0 != "fee") ==> vout == Expected(ctx, outputs, |outputs|))
  }

  /** What a successful build produced: the locktime; one input per
      reference with the sequence policy; the outputs in key order with the
      fee last; one blinding key per output when asked for; and the opt-in
      RBF signal when RBF was requested. */
  lemma ConstructSuccess(node: Node, req: Request, wantPubkeys: bool)
    requires ConstructSpec(node, req, wantPubkeys).Success?
    ensures var b := ConstructSpec(node, req, wantPubkeys).value;
      var ctx := OutputsContext(node, req, wantPubkeys);
      && LockTimeInRange(req) && b.tx.nLockTime == LockTimeOf(req)
      && InputsPlaced(node.chain, req.rbf, LockTimeOf(req), req.allowPegIn, req.inputs, |req.inputs|, b.tx.vin, b.tx.vtxinwit)
      && |b.tx.vin| == |req.inputs|
      && OutputsInKeyOrder(ctx, req.outputs, b.tx.vout)
      && (wantPubkeys <==> b.pubkeys.Some?)
      && (wantPubkeys ==> |b.pubkeys.value| == |b.tx.vout|
                          && b.pubkeys.value[..|Expected(ctx, req.outputs, |req.outputs|)|]
                               == ExpectedKeys(ctx, req.outputs, |req.outputs|))
      && (req.rbf && |req.inputs| > 0 ==> SignalsOptInRBF(b.tx.vin))
  {
    var lockTime := LockTimeOf(req);
    var ctx := OutputsContext(node, req, wantPubkeys);
    AddInputsPlaces(node.chain, req.rbf, lockTime, req.allowPegIn, req.inputs, |req.inputs|);
    EmitUpToSpec(ctx, req.outputs, |req.outputs|);
    var st := EmitUpTo(ctx, req.outputs, |req.outputs|).value;
    var fin := Finish(ctx, st);
    forall i | 0 <= i < |req.outputs| && req.outputs[i].0 == "fee"
      ensures fin.vout == Expected(ctx, req.outputs, |req.outputs|)
                + (if FeeEmitted(EntryOutput(ctx, req.outputs, i)) then [EntryOutput(ctx, req.outputs, i).value] else [])
    {
      assert st.fee == EntryOutput(ctx, req.outputs, i);
    }
    if forall i :: 0 <= i < |req.outputs| ==> req.outputs[i].0 != "fee" {
      assert st.fee.None?;
    }
    if wantPubkeys {
      assert fin.pubkeys[..|st.pubkeys|] == st.pubkeys;
    }
  }

  /** A locktime outside [0, LOCKTIME_MAX] is rejected before anything else. */
  lemma LockTimeChecked(node: Node, req: Request, wantPubkeys: bool)
    requires req.lockTime.Some? && (req.lockTime.value < 0 || req.lockTime.value > LOCKTIME_MAX)
    ensures ConstructSpec(node, req, wantPubkeys) == Failure(LocktimeOutOfRange)
  {
  }

  /** Placed peg-in inputs all carry the final sequence number, so they
      never signal replaceability. */
  lemma PeginsNeverSignal(chain: Chain, rbf: bool, lockTime: nat, allowPegIn: bool, inputs: seq<InputRef>,
                          vin: seq<TxIn>, wit: seq<TxInWitness>)
    requires InputsPlaced(chain, rbf, lockTime, allowPegIn, inputs, |inputs|, vin, wit)
    requires forall i :: 0 <= i < |inputs| ==> inputs[i].AnyPegin()
    ensures !SignalsOptInRBF(vin)
  {
    forall k | 0 <= k < |vin|
      ensures vin[k].nSequence > MAX_BIP125_RBF_SEQUENCE
    {
      assert SlotFor(chain, inputs[k], rbf, lockTime, vin, wit, k);
    }
  }

  /** A peg-in input always gets the final sequence number, so an RBF
      request whose inputs are all peg-ins can never signal replaceability
      and always fails. */
  lemma RbfWithOnlyPeginsFails(node: Node, req: Request, wantPubkeys: bool)
    requires req.rbf && |req.inputs| > 0
    requires forall i :: 0 <= i < |req.inputs| ==> req.inputs[i].AnyPegin()
    ensures ConstructSpec(node, req, wantPubkeys).Failure?
  {
    if LockTimeInRange(req) {
      var lockTime := LockTimeOf(req);
      var added := AddInputs(node.chain, req.rbf, lockTime, req.allowPegIn, req.inputs, |req.inputs|);
      if added.Success? {
        AddInputsPlaces(node.chain, req.rbf, lockTime, req.allowPegIn, req.inputs, |req.inputs|);
        PeginsNeverSignal(node.chain, req.rbf, lockTime, req.allowPegIn, req.inputs, added.value.0, added.value.1);
      }
    }
  }

  /** An RBF request with a plain input that keeps the default sequence
      number never trips the final RBF check: it succeeds exactly when the
      locktime, the input loop and the output loop do. */
  lemma RbfDefaultSequenceSignals(node: Node, req: Request, wantPubkeys: bool, k: nat)
    requires req.rbf && k < |req.inputs|
    requires !req.inputs[k].AnyPegin() && req.inputs[k].sequence.None?
    ensures ConstructSpec(node, req, wantPubkeys).Success? <==>
      && LockTimeInRange(req)
      && AddInputs(node.chain, req.rbf, LockTimeOf(req), req.allowPegIn, req.inputs, |req.inputs|).Success?
      && EmitUpTo(OutputsContext(node, req, wantPubkeys), req.outputs, |req.outputs|).Success?
  {
    if LockTimeInRange(req) {
      var lockTime := LockTimeOf(req);
      var added := AddInputs(node.chain, req.rbf, lockTime, req.allowPegIn, req.inputs, |req.inputs|);
      if added.Success? {
        AddInputsPlaces(node.chain, req.rbf, lockTime, req.allowPegIn, req.inputs, |req.inputs|);
        var vin := added.value.0;
        assert SlotFor(node.chain, req.inputs[k], req.rbf, lockTime, vin, added.value.1, k);
        assert vin[k].nSequence <= MAX_BIP125_RBF_SEQUENCE;
        assert SignalsOptInRBF(vin);
      }
    }
  }

  /** Two data keys, or two keys naming the same destination, always fail. */
  lemma DuplicateOutputsRejected(node: Node, req: Request, wantPubkeys: bool, i: nat, j: nat)
    requires i < j < |req.outputs|
    requires || (req.outputs[i].0 == "data" && req.outputs[j].0 == "data")
             || (&& !IsSpecial(req.outputs[i].0) && !IsSpecial(req.outputs[j].0)
                 && node.decodeDestination(req.outputs[i].0).Some?
                 && node.decodeDestination(req.outputs[i].0) == node.decodeDestination(req.outputs[j].0))
    ensures ConstructSpec(node, req, wantPubkeys).Failure?
  {
    var ctx := OutputsContext(node, req, wantPubkeys);
    if req.outputs[i].0 == "data" && req.outputs[j].0 == "data" {
      DuplicateDataFails(ctx, req.outputs, i, j);
    } else {
      DuplicateDestinationFails(ctx, req.outputs, i, j);
    }
  }
}
