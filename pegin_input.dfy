/** The peg-in input materialiser: checks a foreign transaction and its SPV
    proof, finds the output the claim script pays to, and writes a peg-in
    input and witness into one slot of a transaction under construction. */
module PeginInput {
  import opened Wrappers
  import opened Scripts
  import opened Primitives
  import opened PeginMatch

  /** Everything the checks establish before the transaction is touched. */
  datatype PeginPlan = PeginPlan(foreignTx: ForeignTx, block: MerkleBlock, nOut: nat, witnessScript: Script, value: int)

  /** The slot already carries a signature script or a witness. */
  predicate SlotInUse(vin: seq<TxIn>, vtxinwit: seq<TxInWitness>, idx: nat)
  {
    (idx < |vin| && vin[idx].scriptSig != []) || (idx < |vtxinwit| && !vtxinwit[idx].IsNull())
  }

  /** The claim scripts come from a std::set: no script occurs twice. */
  predicate Distinct(claims: seq<Script>)
  {
    forall i, j :: 0 <= i < j < |claims| ==> claims[i] != claims[j]
  }

  /** The amount of a foreign output a peg-in may claim: it must be explicit,
      and on a parent chain with assets it must be the parent pegged asset. */
  function ForeignAmount(chain: Chain, tx: ForeignTx, nOut: nat): (r: Option<int>)
    requires nOut < |tx.vout|
    ensures r.Some? <==> tx.vout[nOut].value.Explicit?
                         && tx.vout[nOut].asset in {None, Some(chain.parentPeggedAsset)}
    ensures r.Some? ==> r.value == tx.vout[nOut].value.amount
  {
    var out := tx.vout[nOut];
    if out.value.Explicit? && (out.asset.None? || out.asset.value == chain.parentPeggedAsset)
    then Some(out.value.amount) else None
  }

  /** The checks made before any change to the transaction, in source order. */
  function PlanPegIn(chain: Chain, vin: seq<TxIn>, vtxinwit: seq<TxInWitness>, idx: nat,
                     claims: seq<Script>, txData: Bytes, proofData: Bytes): Result<PeginPlan, Error>
  {
    if SlotInUse(vin, vtxinwit, idx) then Failure(PeginSlotInUse)
    else PlanFromProof(chain, claims, txData, proofData)
  }

  /** The checks that look only at the peg-in arguments: the foreign
      transaction, its proof, the claimed output and its amount. */
  function PlanFromProof(chain: Chain, claims: seq<Script>, txData: Bytes, proofData: Bytes): Result<PeginPlan, Error>
  {
    match chain.decodeTx(txData)
      case None => Failure(MalformedForeignTx)
      case Some(ftx) =>
        match chain.decodeBlock(proofData)
        case Malformed => Failure(MalformedTxOutProof)
        case Decoded(block, remaining) =>
          if remaining != 0 then Failure(InvalidTxOutProof)
          else if block.extractedRoot != block.header.merkleRoot then Failure(InvalidTxOutProof)
          else if block.matchedHashes != [ftx.hash] then Failure(ProofNotOnlyForeignTx)
          else match SelectClaim(chain.crypto, ftx, claims, chain.fedpegScripts)
            case None => if |claims| == 1 then Failure(ClaimScriptMismatch) else Failure(NoPeginOutputFound)
            case Some((script, nOut)) =>
              if script == [] then Failure(EmptyWitnessScript)
              else if WitnessProgram(script).None? || WitnessProgram(script).value.0 != 0 then Failure(NotV0WitnessProgram)
              else match ForeignAmount(chain, ftx, nOut)
                case None => Failure(PeginAmountNotExplicit)
                case Some(value) => Success(PeginPlan(ftx, block, nOut, script, value))
  }

  /** The witness built for a plan (CreatePeginWitness). */
  function BundleFor(chain: Chain, p: PeginPlan): PeginWitness
  {
    PeginBundle(p.value, chain.peggedAsset, chain.parentGenesis, p.witnessScript, p.foreignTx, p.block)
  }

  /** The outcome of one materialisation: the result and the new input and
      witness vectors. The input slot is written before the witness
      self-check, so a failing self-check leaves the inputs changed. */
  function ApplyPegIn(chain: Chain, vin: seq<TxIn>, vtxinwit: seq<TxInWitness>, idx: nat,
                      claims: seq<Script>, txData: Bytes, proofData: Bytes)
    : (Result<PeginPlan, Error>, seq<TxIn>, seq<TxInWitness>)
  {
    match PlanPegIn(chain, vin, vtxinwit, idx, claims, txData, proofData)
    case Failure(e) => (Failure(e), vin, vtxinwit)
    case Success(p) =>
      var prevout := OutPoint(p.block.matchedHashes[0], p.nOut);
      var written := Grow(vin, idx + 1, EmptyTxIn)[idx := TxIn(prevout, [], SEQUENCE_FINAL, false)];
      var w := BundleFor(chain, p);
      match chain.isValidPeginWitness(w, chain.fedpegScripts, prevout, false)
      case Invalid(reason) => (Failure(InvalidPeginWitness(reason)), written, vtxinwit)
      case Valid =>
        (Success(p),
         written[idx := written[idx].(isPegin := true)],
         Grow(vtxinwit, idx + 1, EmptyWitness)[idx := TxInWitness([], [], [], w)])
  }

  /** The checks of CreatePegInInputInner, up to the point where it starts
      writing into the transaction. */
  method CheckPegIn(mtx: MutableTransaction, idx: nat, claims: seq<Script>,
                    txData: Bytes, proofData: Bytes, chain: Chain)
    returns (r: Result<PeginPlan, Error>)
    ensures r == PlanPegIn(chain, mtx.vin, mtx.vtxinwit, idx, claims, txData, proofData)
  {
    if (idx < |mtx.vin| && mtx.vin[idx].scriptSig != []) || (idx < |mtx.vtxinwit| && !mtx.vtxinwit[idx].IsNull()) {
      return Failure(PeginSlotInUse);
    }
    var decodedTx := chain.decodeTx(txData);
    if decodedTx.None? {
      return Failure(MalformedForeignTx);
    }
    var ftx := decodedTx.value;
    var decodedBlock := chain.decodeBlock(proofData);
    if decodedBlock.Malformed? {
      return Failure(MalformedTxOutProof);
    }
    var block := decodedBlock.value;
    if decodedBlock.remaining != 0 {
      return Failure(InvalidTxOutProof);
    }
    var txHashes := block.matchedHashes;
    if block.extractedRoot != block.header.merkleRoot {
      return Failure(InvalidTxOutProof);
    }
    if |txHashes| != 1 || txHashes[0] != ftx.hash {
      return Failure(ProofNotOnlyForeignTx);
    }
    var witnessScript, nOut := FindClaimedOutput(chain.crypto, ftx, claims, chain.fedpegScripts);
    if nOut == |ftx.vout| {
      if |claims| == 1 {
        return Failure(ClaimScriptMismatch);
      } else {
        return Failure(NoPeginOutputFound);
      }
    }
    if witnessScript == [] {
      return Failure(EmptyWitnessScript);
    }
    var program := WitnessProgram(witnessScript);
    if program.None? || program.value.0 != 0 {
      return Failure(NotV0WitnessProgram);
    }
    var amount := ForeignAmount(chain, ftx, nOut);
    if amount.None? {
      return Failure(PeginAmountNotExplicit);
    }
    r := Success(PeginPlan(ftx, block, nOut, witnessScript, amount.value));
  }

  /** CreatePegInInputInner (and both CreatePegInInput overloads, which only
      forward to it). On success it also hands back the decoded foreign
      transaction and merkle block, which the source returns through its
      reference parameters. */
  method CreatePegInInput(mtx: MutableTransaction, idx: nat, claims: seq<Script>,
                          txData: Bytes, proofData: Bytes, chain: Chain)
    returns (r: Result<PeginPlan, Error>)
    requires Distinct(claims)
    modifies mtx
    ensures (r, mtx.vin, mtx.vtxinwit)
              == ApplyPegIn(chain, old(mtx.vin), old(mtx.vtxinwit), idx, claims, txData, proofData)
    ensures mtx.vout == old(mtx.vout) && mtx.nLockTime == old(mtx.nLockTime)
  {
    var checked := CheckPegIn(mtx, idx, claims, txData, proofData, chain);
    if checked.Failure? {
      return checked;
    }
    var plan := checked.value;
    var txHashes, nOut := plan.block.matchedHashes, plan.nOut;
    // Add or replace the input.
    if |mtx.vin| <= idx {
      mtx.vin := mtx.vin + seq(idx + 1 - |mtx.vin|, i => EmptyTxIn);
    }
    mtx.vin := mtx.vin[idx := TxIn(OutPoint(txHashes[0], nOut), [], SEQUENCE_FINAL, false)];

    var peginWitness := PeginBundle(plan.value, chain.peggedAsset, chain.parentGenesis, plan.witnessScript, plan.foreignTx, plan.block);
    var check := chain.isValidPeginWitness(peginWitness, chain.fedpegScripts, mtx.vin[idx].prevout, false);
    if check.Invalid? {
      return Failure(InvalidPeginWitness(check.reason));
    }

    mtx.vin := mtx.vin[idx := mtx.vin[idx].(isPegin := true)];
    var txinwit := TxInWitness([], [], [], peginWitness);
    if |mtx.vtxinwit| <= idx {
      mtx.vtxinwit := mtx.vtxinwit + seq(idx + 1 - |mtx.vtxinwit|, i => EmptyWitness);
    }
    mtx.vtxinwit := mtx.vtxinwit[idx := txinwit];
    r := Success(plan);
  }

  /** Every failure of the checks leaves the transaction as it was. */
  lemma ErrorsBeforeMutation(chain: Chain, vin: seq<TxIn>, vtxinwit: seq<TxInWitness>, idx: nat,
                             claims: seq<Script>, txData: Bytes, proofData: Bytes)
    requires PlanPegIn(chain, vin, vtxinwit, idx, claims, txData, proofData).Failure?
    ensures var (r, vin', wit') := ApplyPegIn(chain, vin, vtxinwit, idx, claims, txData, proofData);
      && r == PlanPegIn(chain, vin, vtxinwit, idx, claims, txData, proofData)
      && vin' == vin && wit' == vtxinwit
      && r.error in {PeginSlotInUse, MalformedForeignTx, MalformedTxOutProof, InvalidTxOutProof,
                     ProofNotOnlyForeignTx, ClaimScriptMismatch, NoPeginOutputFound, EmptyWitnessScript,
                     NotV0WitnessProgram, PeginAmountNotExplicit}
  {
  }

  /** The proof checks: leftover bytes, a wrong root, or a proof that does not
      cover exactly the foreign transaction each fail. */
  lemma ProofChecks(chain: Chain, vin: seq<TxIn>, vtxinwit: seq<TxInWitness>, idx: nat,
                    claims: seq<Script>, txData: Bytes, proofData: Bytes)
    requires !SlotInUse(vin, vtxinwit, idx)
    requires chain.decodeTx(txData).Some? && chain.decodeBlock(proofData).Decoded?
    ensures var block := chain.decodeBlock(proofData).value;
      var plan := PlanPegIn(chain, vin, vtxinwit, idx, claims, txData, proofData);
      && (chain.decodeBlock(proofData).remaining != 0 ==> plan == Failure(InvalidTxOutProof))
      && (block.extractedRoot != block.header.merkleRoot ==> plan == Failure(InvalidTxOutProof))
      && (plan.Success? ==> block.matchedHashes == [chain.decodeTx(txData).value.hash])
  {
  }

  /** Which error a failed claim-script search raises. */
  lemma ClaimSearchError(chain: Chain, vin: seq<TxIn>, vtxinwit: seq<TxInWitness>, idx: nat,
                         claims: seq<Script>, txData: Bytes, proofData: Bytes)
    requires !SlotInUse(vin, vtxinwit, idx)
    requires chain.decodeTx(txData).Some? && chain.decodeBlock(proofData).Decoded?
    requires var block := chain.decodeBlock(proofData);
      block.remaining == 0 && block.value.extractedRoot == block.value.header.merkleRoot
      && block.value.matchedHashes == [chain.decodeTx(txData).value.hash]
    requires forall j :: 0 <= j < |claims| ==>
      OutputIndex(chain.crypto, chain.decodeTx(txData).value, claims[j], chain.fedpegScripts)
        == |chain.decodeTx(txData).value.vout|
    ensures PlanPegIn(chain, vin, vtxinwit, idx, claims, txData, proofData)
              == Failure(if |claims| == 1 then ClaimScriptMismatch else NoPeginOutputFound)
  {
    SelectClaimSpec(chain.crypto, chain.decodeTx(txData).value, claims, chain.fedpegScripts);
  }

  /** A successful plan claims the first matching claim script's output, and
      that script is a version-0 witness program. */
  lemma PlanClaimsFirstMatch(chain: Chain, vin: seq<TxIn>, vtxinwit: seq<TxInWitness>, idx: nat,
                             claims: seq<Script>, txData: Bytes, proofData: Bytes)
    requires PlanPegIn(chain, vin, vtxinwit, idx, claims, txData, proofData).Success?
    ensures var p := PlanPegIn(chain, vin, vtxinwit, idx, claims, txData, proofData).value;
      && p.foreignTx == chain.decodeTx(txData).value
      && p.nOut < |p.foreignTx.vout|
      && IsFirstMatch(chain.crypto, p.foreignTx.vout, p.witnessScript, chain.fedpegScripts, p.nOut)
      && (exists j :: 0 <= j < |claims| && claims[j] == p.witnessScript
           && forall i :: 0 <= i < j ==>
                OutputIndex(chain.crypto, p.foreignTx, claims[i], chain.fedpegScripts) == |p.foreignTx.vout|)
      && WitnessProgram(p.witnessScript).Some? && WitnessProgram(p.witnessScript).value.0 == 0
      && p.foreignTx.vout[p.nOut].value == Explicit(p.value)
  {
    var p := PlanPegIn(chain, vin, vtxinwit, idx, claims, txData, proofData).value;
    PlanSelects(chain, vin, vtxinwit, idx, claims, txData, proofData);
    SelectClaimSome(chain.crypto, p.foreignTx, claims, chain.fedpegScripts);
    var j :| 0 <= j < |claims|
          && SelectClaim(chain.crypto, p.foreignTx, claims, chain.fedpegScripts).value
               == (claims[j], OutputIndex(chain.crypto, p.foreignTx, claims[j], chain.fedpegScripts))
          && OutputIndex(chain.crypto, p.foreignTx, claims[j], chain.fedpegScripts) < |p.foreignTx.vout|
          && forall i :: 0 <= i < j ==>
               OutputIndex(chain.crypto, p.foreignTx, claims[i], chain.fedpegScripts) == |p.foreignTx.vout|;
    OutputIndexIsFirstMatch(chain.crypto, p.foreignTx, p.witnessScript, chain.fedpegScripts);
  }

  /** A successful plan is made of the decoded transaction, the selected
      claim script and output, and that output's explicit amount. */
  lemma PlanSelects(chain: Chain, vin: seq<TxIn>, vtxinwit: seq<TxInWitness>, idx: nat,
                    claims: seq<Script>, txData: Bytes, proofData: Bytes)
    requires PlanPegIn(chain, vin, vtxinwit, idx, claims, txData, proofData).Success?
    ensures var p := PlanPegIn(chain, vin, vtxinwit, idx, claims, txData, proofData).value;
      && chain.decodeTx(txData) == Some(p.foreignTx)
      && SelectClaim(chain.crypto, p.foreignTx, claims, chain.fedpegScripts) == Some((p.witnessScript, p.nOut))
      && WitnessProgram(p.witnessScript).Some? && WitnessProgram(p.witnessScript).value.0 == 0
      && p.nOut < |p.foreignTx.vout|
      && p.foreignTx.vout[p.nOut].value == Explicit(p.value)
      && p.foreignTx.vout[p.nOut].asset in {None, Some(chain.parentPeggedAsset)}
  {
  }

  /** Once the proof and the claim check out, a claimed output whose value
      is not explicit, or whose asset is not the parent pegged asset, is
      rejected as having no explicit peg-in amount. */
  lemma ForeignAmountRequired(chain: Chain, claims: seq<Script>, txData: Bytes, proofData: Bytes,
                              ftx: ForeignTx, block: MerkleBlock, script: Script, nOut: nat)
    requires chain.decodeTx(txData) == Some(ftx)
    requires chain.decodeBlock(proofData) == Decoded(block, 0)
    requires block.extractedRoot == block.header.merkleRoot && block.matchedHashes == [ftx.hash]
    requires SelectClaim(chain.crypto, ftx, claims, chain.fedpegScripts) == Some((script, nOut))
    requires script != [] && WitnessProgram(script).Some? && WitnessProgram(script).value.0 == 0
    requires !ftx.vout[nOut].value.Explicit? || ftx.vout[nOut].asset !in {None, Some(chain.parentPeggedAsset)}
    ensures PlanFromProof(chain, claims, txData, proofData) == Failure(PeginAmountNotExplicit)
  {
  }

  /** A successful write: both vectors reach idx + 1 entries and are never
      shrunk, slot idx holds the peg-in input and its witness, and every
      other slot is unchanged (new slots hold the empty placeholders). */
  lemma SuccessfulWrite(chain: Chain, vin: seq<TxIn>, vtxinwit: seq<TxInWitness>, idx: nat,
                        claims: seq<Script>, txData: Bytes, proofData: Bytes)
    requires ApplyPegIn(chain, vin, vtxinwit, idx, claims, txData, proofData).0.Success?
    ensures var (r, vin', wit') := ApplyPegIn(chain, vin, vtxinwit, idx, claims, txData, proofData);
      && |vin'| >= idx + 1 && |vin'| >= |vin| && |wit'| >= idx + 1 && |wit'| >= |vtxinwit|
      && vin'[idx] == TxIn(OutPoint(chain.decodeTx(txData).value.hash, r.value.nOut), [], SEQUENCE_FINAL, true)
      && r == PlanPegIn(chain, vin, vtxinwit, idx, claims, txData, proofData)
      && wit'[idx] == TxInWitness([], [], [], BundleFor(chain, r.value))
      && (forall i :: 0 <= i < |vin'| && i != idx ==> vin'[i] == if i < |vin| then vin[i] else EmptyTxIn)
      && (forall i :: 0 <= i < |wit'| && i != idx ==> wit'[i] == if i < |vtxinwit| then vtxinwit[i] else EmptyWitness)
  {
  }

  /** Materialising a second peg-in into the same slot always fails. */
  lemma SecondPegInFails(chain: Chain, vin: seq<TxIn>, vtxinwit: seq<TxInWitness>, idx: nat,
                         claims: seq<Script>, txData: Bytes, proofData: Bytes,
                         claims2: seq<Script>, txData2: Bytes, proofData2: Bytes)
    requires ApplyPegIn(chain, vin, vtxinwit, idx, claims, txData, proofData).0.Success?
    ensures var (_, vin', wit') := ApplyPegIn(chain, vin, vtxinwit, idx, claims, txData, proofData);
      ApplyPegIn(chain, vin', wit', idx, claims2, txData2, proofData2) == (Failure(PeginSlotInUse), vin', wit')
  {
    var (_, vin', wit') := ApplyPegIn(chain, vin, vtxinwit, idx, claims, txData, proofData);
    assert !wit'[idx].IsNull();
  }

  /** As written, a failing witness self-check still leaves slot idx of the
      inputs overwritten (and the inputs possibly grown). */
  lemma SelfCheckFailureChangesInputs(chain: Chain, vin: seq<TxIn>, vtxinwit: seq<TxInWitness>, idx: nat,
                                      claims: seq<Script>, txData: Bytes, proofData: Bytes)
    requires ApplyPegIn(chain, vin, vtxinwit, idx, claims, txData, proofData).0.Failure?
    requires ApplyPegIn(chain, vin, vtxinwit, idx, claims, txData, proofData).0.error.InvalidPeginWitness?
    ensures var (_, vin', wit') := ApplyPegIn(chain, vin, vtxinwit, idx, claims, txData, proofData);
      && wit' == vtxinwit && |vin'| >= idx + 1
      && vin'[idx].prevout.hash == chain.decodeTx(txData).value.hash
      && vin'[idx].scriptSig == [] && vin'[idx].nSequence == SEQUENCE_FINAL && !vin'[idx].isPegin
  {
  }
}
