/** The transaction data model: inputs, per-input witnesses, outputs, the
    mutable transaction the RPC layer builds in place, the foreign (parent
    chain) objects a peg-in refers to, the collaborators the core calls but
    does not define, and the errors it raises. */
module Primitives {
  import opened Wrappers
  import opened Scripts

  const SEQUENCE_FINAL: nat := 0xffff_ffff
  /** BIP 125: the largest sequence number that still signals replaceability. */
  const MAX_BIP125_RBF_SEQUENCE: nat := SEQUENCE_FINAL - 2
  const LOCKTIME_MAX: nat := 0xffff_ffff
  const COIN: nat := 100_000_000
  const MAX_MONEY: nat := 21_000_000 * COIN

  const ZeroHash: Hash256 := seq(32, i => 0)

  predicate MoneyRange(amount: int)
  {
    0 <= amount <= MAX_MONEY
  }

  datatype OutPoint = OutPoint(hash: Hash256, n: nat)

  /** COutPoint's default value: the null outpoint. */
  const NullOutPoint: OutPoint := OutPoint(ZeroHash, 0xffff_ffff)

  datatype TxIn = TxIn(prevout: OutPoint, scriptSig: Script, nSequence: nat, isPegin: bool)

  /** The value `vin.resize` fills new slots with. */
  const EmptyTxIn: TxIn := TxIn(NullOutPoint, [], SEQUENCE_FINAL, false)

  /** An amount that is absent, explicit, or hidden behind a commitment. */
  datatype ConfValue = NullValue | Explicit(amount: int) | Committed(commitment: Bytes)

  /** Foreign (parent chain) objects, as the deserialiser yields them. A
      Bitcoin parent has no assets (asset == None). */
  datatype ForeignOut = ForeignOut(scriptPubKey: Script, value: ConfValue, asset: Option<Hash256>)
  datatype ForeignTx = ForeignTx(hash: Hash256, vout: seq<ForeignOut>)
  datatype BlockHeader = BlockHeader(hash: Hash256, merkleRoot: Hash256, bits: nat)

  /** A merkle block: the header and what its partial merkle tree reduces to
      (the root it recomputes and the transaction hashes it proves). */
  datatype MerkleBlock = MerkleBlock(header: BlockHeader, extractedRoot: Hash256, matchedHashes: seq<Hash256>)

  /** A peg-in witness: the self-contained proof bundle. */
  datatype PeginWitness =
    | NoPeginWitness
    | PeginBundle(value: int, asset: Hash256, genesis: Hash256, claimScript: Script,
                  tx: ForeignTx, block: MerkleBlock)

  datatype TxInWitness = TxInWitness(
    issuanceAmountRangeproof: Bytes,
    inflationKeysRangeproof: Bytes,
    scriptWitness: seq<Bytes>,
    peginWitness: PeginWitness)
  {
    predicate IsNull()
    {
      issuanceAmountRangeproof == [] && inflationKeysRangeproof == []
      && scriptWitness == [] && peginWitness == NoPeginWitness
    }
  }

  /** The value `vtxinwit.resize` fills new slots with. */
  const EmptyWitness: TxInWitness := TxInWitness([], [], [], NoPeginWitness)

  datatype TxOut = TxOut(asset: Hash256, value: ConfValue, nonce: Bytes, scriptPubKey: Script)

  /** An immutable snapshot of a transaction (CTransaction). */
  datatype Tx = Tx(vin: seq<TxIn>, vout: seq<TxOut>, vtxinwit: seq<TxInWitness>, nLockTime: nat)

  /** BIP 125 opt-in signal: some input's sequence number is at most
      MAX_BIP125_RBF_SEQUENCE. */
  predicate SignalsOptInRBF(vin: seq<TxIn>)
  {
    exists i :: 0 <= i < |vin| && vin[i].nSequence <= MAX_BIP125_RBF_SEQUENCE
  }

  /** `resize(n)` on a vector that is shorter than n; longer ones are left. */
  function Grow<T>(s: seq<T>, n: nat, filler: T): (r: seq<T>)
    ensures |r| == if |s| < n then n else |s|
    ensures r[..|s|] == s
    ensures forall i :: |s| <= i < |r| ==> r[i] == filler
  {
    if |s| < n then s + seq(n - |s|, i => filler) else s
  }

  /** The transaction the RPC calls build and change in place
      (CMutableTransaction). The input and witness vectors are separate and
      are not kept the same length. */
  class MutableTransaction {
    var vin: seq<TxIn>
    var vout: seq<TxOut>
    var vtxinwit: seq<TxInWitness>
    var nLockTime: nat

    constructor ()
      ensures vin == [] && vout == [] && vtxinwit == [] && nLockTime == 0
    {
      vin, vout, vtxinwit, nLockTime := [], [], [], 0;
    }

    function Snapshot(): Tx
      reads this
    {
      Tx(vin, vout, vtxinwit, nLockTime)
    }
  }

  datatype FedpegPair = FedpegPair(template: Script, fedpegScript: Script)

  datatype Decoded<T> = Malformed | Decoded(value: T, remaining: nat)

  /** Outcome of the peg-in witness validity check. */
  datatype Check = Valid | Invalid(reason: string)

  /** Chain parameters and collaborators the core consults: the federation
      script pairs valid at the current tip, the consensus constants, the
      foreign-chain deserialisers and the proof checks. */
  datatype Chain = Chain(
    crypto: Crypto,
    fedpegScripts: seq<FedpegPair>,
    peggedAsset: Hash256,
    parentGenesis: Hash256,
    parentPeggedAsset: Hash256,
    parentHasPow: bool,
    decodeTx: Bytes -> Option<ForeignTx>,
    decodeBlock: Bytes -> Decoded<MerkleBlock>,
    isValidPeginWitness: (PeginWitness, seq<FedpegPair>, OutPoint, bool) -> Check,
    checkParentPow: BlockHeader -> bool,
    checkProofSignedParent: BlockHeader -> bool)

  /** The failures the RPC helpers raise, one per throw site. */
  datatype Error =
    // peg-in materialisation
    | PeginSlotInUse
    | MalformedForeignTx
    | MalformedTxOutProof
    | InvalidTxOutProof
    | ProofNotOnlyForeignTx
    | ClaimScriptMismatch
    | NoPeginOutputFound
    | EmptyWitnessScript
    | NotV0WitnessProgram
    | PeginAmountNotExplicit
    | InvalidPeginWitness(reason: string)
    // transaction construction
    | LocktimeOutOfRange
    | NegativeVout
    | SequenceOutOfRange
    | PartialPeginArguments
    | PeginNotSupported
    | DuplicateData
    | InvalidAddress(name: string)
    | DuplicateAddress(name: string)
    | WrongValueType(name: string)
    | AmountOutOfRange
    | RbfContradiction
    // previous-output context
    | PrevoutNegativeVout
    | PrevoutScriptMismatch
    | MissingRedeemOrWitnessScript
    | RedeemScriptMismatch
    | ScriptPubKeyMismatch
    // signing and result assembly
    | InvalidSighash
    | UnexpectedPeginReason(reason: string)
    | MissingAmount(prevout: OutPoint)
    | IndexOutOfRange
}
