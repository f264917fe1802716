/** The input half of ConstructTransaction: one input per reference, with the
    sequence-number policy, and peg-in materialisation for references that
    carry all three peg-in fields. */
module BuildInputs {
  import opened Wrappers
  import opened Scripts
  import opened Primitives
  import opened PeginInput

  /** One entry of the request's input list, already typed. */
  datatype InputRef = InputRef(
    txid: Hash256,
    vout: int,
    sequence: Option<int>,
    peginTx: Option<Bytes>,
    peginProof: Option<Bytes>,
    peginClaimScript: Option<Bytes>)
  {
    predicate AllPegin() { peginTx.Some? && peginProof.Some? && peginClaimScript.Some? }
    predicate AnyPegin() { peginTx.Some? || peginProof.Some? || peginClaimScript.Some? }
  }

  /** The sequence number an input gets unless the request overrides it:
      BIP 125's opt-in value under RBF, final - 1 when a locktime is set (so
      the locktime is enforced), final otherwise. */
  function DefaultSequence(rbf: bool, lockTime: nat): (r: nat)
    ensures r <= SEQUENCE_FINAL
    ensures rbf ==> r <= MAX_BIP125_RBF_SEQUENCE
    ensures !rbf ==> r > MAX_BIP125_RBF_SEQUENCE
    ensures !rbf && lockTime != 0 ==> r < SEQUENCE_FINAL
  {
    if rbf then MAX_BIP125_RBF_SEQUENCE
    else if lockTime != 0 then SEQUENCE_FINAL - 1
    else SEQUENCE_FINAL
  }

  /** The sequence number of a plain input. */
  function SequenceFor(input: InputRef, rbf: bool, lockTime: nat): nat
  {
    if input.sequence.Some? && 0 <= input.sequence.value then input.sequence.value
    else DefaultSequence(rbf, lockTime)
  }

  /** The proof-of-work or signed-header check of the parent block. */
  predicate ParentProofOk(chain: Chain, header: BlockHeader)
  {
    if chain.parentHasPow then chain.checkParentPow(header) else chain.checkProofSignedParent(header)
  }

  /** One iteration of the input loop. */
  function InputStep(chain: Chain, rbf: bool, lockTime: nat, allowPegIn: bool,
                     vin: seq<TxIn>, vtxinwit: seq<TxInWitness>, input: InputRef)
    : Result<(seq<TxIn>, seq<TxInWitness>), Error>
  {
    if input.vout < 0 then Failure(NegativeVout)
    else if input.sequence.Some? && !(0 <= input.sequence.value <= SEQUENCE_FINAL) then Failure(SequenceOutOfRange)
    else
      var vin1 := vin + [TxIn(OutPoint(input.txid, input.vout), [], SequenceFor(input, rbf, lockTime), false)];
      if input.AllPegin() && allowPegIn then
        match ApplyPegIn(chain, vin1, vtxinwit, |vin|, [input.peginClaimScript.value],
                         input.peginTx.value, input.peginProof.value)
        case (Failure(e), _, _) => Failure(e)
        case (Success(p), vin2, wit2) =>
          if ParentProofOk(chain, p.block.header) then Success((vin2, wit2)) else Failure(InvalidTxOutProof)
      else if input.AnyPegin() then
        Failure(if allowPegIn then PartialPeginArguments else PeginNotSupported)
      else Success((vin1, vtxinwit))
  }

  /** The input loop over the first n references. */
  function AddInputs(chain: Chain, rbf: bool, lockTime: nat, allowPegIn: bool, inputs: seq<InputRef>, n: nat)
    : Result<(seq<TxIn>, seq<TxInWitness>), Error>
    requires n <= |inputs|
  {
    if n == 0 then Success(([], []))
    else match AddInputs(chain, rbf, lockTime, allowPegIn, inputs, n - 1)
      case Failure(e) => Failure(e)
      case Success((vin, wit)) => InputStep(chain, rbf, lockTime, allowPegIn, vin, wit, inputs[n - 1])
  }

  /** The reference's own fields pass the loop's range checks: a
      non-negative output index and, when given, a sequence number in
      [0, SEQUENCE_FINAL]. */
  predicate FieldsInRange(input: InputRef)
  {
    input.vout >= 0 && (input.sequence.Some? ==> 0 <= input.sequence.value <= SEQUENCE_FINAL)
  }

  /** The plan a peg-in reference's arguments produce. */
  function PeginPlanOf(chain: Chain, input: InputRef): Result<PeginPlan, Error>
    requires input.AllPegin()
  {
    PlanFromProof(chain, [input.peginClaimScript.value], input.peginTx.value, input.peginProof.value)
  }

  /** What slot i holds once reference `input` has been processed: a plain
      input with its outpoint and sequence number and no witness, or the
      peg-in input and witness of the reference's own plan, whose parent
      block passed the proof check. */
  ghost predicate SlotFor(chain: Chain, input: InputRef, rbf: bool, lockTime: nat,
                          vin: seq<TxIn>, wit: seq<TxInWitness>, i: nat)
  {
    && i < |vin|
    && FieldsInRange(input)
    && (if input.AnyPegin() then
          && input.AllPegin()
          && i < |wit|
          && PeginPlanOf(chain, input).Success?
          && var p := PeginPlanOf(chain, input).value;
             && vin[i] == TxIn(OutPoint(p.foreignTx.hash, p.nOut), [], SEQUENCE_FINAL, true)
             && wit[i] == TxInWitness([], [], [], BundleFor(chain, p))
             && ParentProofOk(chain, p.block.header)
        else
          && vin[i] == TxIn(OutPoint(input.txid, input.vout), [], SequenceFor(input, rbf, lockTime), false)
          && (i < |wit| ==> wit[i] == EmptyWitness))
  }

  /** The first failing reference decides the loop's error. */
  lemma {:induction false} InputFailureSticks(chain: Chain, rbf: bool, lockTime: nat, allowPegIn: bool,
                                              inputs: seq<InputRef>, m: nat, n: nat)
    requires m <= n <= |inputs|
    requires AddInputs(chain, rbf, lockTime, allowPegIn, inputs, m).Failure?
    ensures AddInputs(chain, rbf, lockTime, allowPegIn, inputs, n) == AddInputs(chain, rbf, lockTime, allowPegIn, inputs, m)
    decreases n - m
  {
    if m < n {
      InputFailureSticks(chain, rbf, lockTime, allowPegIn, inputs, m + 1, n);
    }
  }

  /** The invariant of the input loop after n references. */
  ghost predicate InputsPlaced(chain: Chain, rbf: bool, lockTime: nat, allowPegIn: bool, inputs: seq<InputRef>, n: nat,
                               vin: seq<TxIn>, wit: seq<TxInWitness>)
    requires n <= |inputs|
  {
    && |vin| == n && |wit| <= n
    && forall i :: 0 <= i < n ==>
         && (inputs[i].AnyPegin() ==> inputs[i].AllPegin() && allowPegIn)
         && SlotFor(chain, inputs[i], rbf, lockTime, vin, wit, i)
  }

  /** A slot the loop has just appended is free for a peg-in: its
      signature script is empty and no witness reaches it. */
  lemma FreshSlotIsFree(vin: seq<TxIn>, wit: seq<TxInWitness>, txin: TxIn)
    requires |wit| <= |vin| && txin.scriptSig == []
    ensures !SlotInUse(vin + [txin], wit, |vin|)
  {
  }

  /** One step preserves the loop invariant. */
  lemma InputStepPlaces(chain: Chain, rbf: bool, lockTime: nat, allowPegIn: bool, inputs: seq<InputRef>, n: nat,
                        vin: seq<TxIn>, wit: seq<TxInWitness>)
    requires n < |inputs|
    requires InputsPlaced(chain, rbf, lockTime, allowPegIn, inputs, n, vin, wit)
    requires InputStep(chain, rbf, lockTime, allowPegIn, vin, wit, inputs[n]).Success?
    ensures var (vin', wit') := InputStep(chain, rbf, lockTime, allowPegIn, vin, wit, inputs[n]).value;
      InputsPlaced(chain, rbf, lockTime, allowPegIn, inputs, n + 1, vin', wit')
  {
    var input := inputs[n];
    var (vin', wit') := InputStep(chain, rbf, lockTime, allowPegIn, vin, wit, input).value;
    var vin1 := vin + [TxIn(OutPoint(input.txid, input.vout), [], SequenceFor(input, rbf, lockTime), false)];
    if input.AllPegin() && allowPegIn {
      var claims := [input.peginClaimScript.value];
      FreshSlotIsFree(vin, wit, vin1[n]);
      SuccessfulWrite(chain, vin1, wit, n, claims, input.peginTx.value, input.peginProof.value);
      PlanSelects(chain, vin1, wit, n, claims, input.peginTx.value, input.peginProof.value);
      assert SlotFor(chain, input, rbf, lockTime, vin', wit', n);
      forall i | 0 <= i < n + 1
        ensures SlotFor(chain, inputs[i], rbf, lockTime, vin', wit', i)
      {
        if i < n {
          assert SlotFor(chain, inputs[i], rbf, lockTime, vin, wit, i);
          assert vin'[i] == vin[i];
          if inputs[i].AnyPegin() {
            assert wit'[i] == wit[i];
          }
        }
      }
    } else {
      forall i | 0 <= i < n + 1
        ensures SlotFor(chain, inputs[i], rbf, lockTime, vin', wit', i)
      {
        if i < n {
          assert SlotFor(chain, inputs[i], rbf, lockTime, vin, wit, i);
        }
      }
    }
  }

  /** After the loop, every reference has produced exactly one input, in
      order, plain or peg-in as its fields say. */
  lemma {:induction false} AddInputsPlaces(chain: Chain, rbf: bool, lockTime: nat, allowPegIn: bool,
                                           inputs: seq<InputRef>, n: nat)
    requires n <= |inputs|
    requires AddInputs(chain, rbf, lockTime, allowPegIn, inputs, n).Success?
    ensures var (vin, wit) := AddInputs(chain, rbf, lockTime, allowPegIn, inputs, n).value;
      InputsPlaced(chain, rbf, lockTime, allowPegIn, inputs, n, vin, wit)
  {
    if n > 0 {
      AddInputsPlaces(chain, rbf, lockTime, allowPegIn, inputs, n - 1);
      var (vin, wit) := AddInputs(chain, rbf, lockTime, allowPegIn, inputs, n - 1).value;
      InputStepPlaces(chain, rbf, lockTime, allowPegIn, inputs, n - 1, vin, wit);
    }
  }

  /** After n successful steps there are exactly n inputs. */
  lemma AddInputsLength(chain: Chain, rbf: bool, lockTime: nat, allowPegIn: bool,
                        inputs: seq<InputRef>, n: nat)
    requires n <= |inputs|
    requires AddInputs(chain, rbf, lockTime, allowPegIn, inputs, n).Success?
    ensures |AddInputs(chain, rbf, lockTime, allowPegIn, inputs, n).value.0| == n
  {
    AddInputsPlaces(chain, rbf, lockTime, allowPegIn, inputs, n);
  }

  /** The loop fails on a reference that gives some but not all peg-in
      fields, or any of them when peg-ins are not allowed, unless an
      earlier reference already failed. */
  lemma PeginFieldsAllOrNone(chain: Chain, rbf: bool, lockTime: nat, allowPegIn: bool,
                             inputs: seq<InputRef>, n: nat)
    requires n <= |inputs|
    requires exists i :: 0 <= i < n && inputs[i].AnyPegin() && !(inputs[i].AllPegin() && allowPegIn)
    ensures AddInputs(chain, rbf, lockTime, allowPegIn, inputs, n).Failure?
  {
    if AddInputs(chain, rbf, lockTime, allowPegIn, inputs, n).Success? {
      AddInputsPlaces(chain, rbf, lockTime, allowPegIn, inputs, n);
    }
  }

  /** A reference with a negative output index fails the loop, unless an
      earlier reference already failed. */
  lemma NegativeVoutFails(chain: Chain, rbf: bool, lockTime: nat, allowPegIn: bool,
                          inputs: seq<InputRef>, k: nat)
    requires k < |inputs| && AddInputs(chain, rbf, lockTime, allowPegIn, inputs, k).Success?
    requires inputs[k].vout < 0
    ensures AddInputs(chain, rbf, lockTime, allowPegIn, inputs, |inputs|) == Failure(NegativeVout)
  {
    InputFailureSticks(chain, rbf, lockTime, allowPegIn, inputs, k + 1, |inputs|);
  }

  /** An explicit sequence number outside [0, SEQUENCE_FINAL] fails the
      loop, unless an earlier reference already failed. */
  lemma SequenceOutOfRangeFails(chain: Chain, rbf: bool, lockTime: nat, allowPegIn: bool,
                                inputs: seq<InputRef>, k: nat)
    requires k < |inputs| && AddInputs(chain, rbf, lockTime, allowPegIn, inputs, k).Success?
    requires inputs[k].vout >= 0 && inputs[k].sequence.Some?
    requires !(0 <= inputs[k].sequence.value <= SEQUENCE_FINAL)
    ensures AddInputs(chain, rbf, lockTime, allowPegIn, inputs, |inputs|) == Failure(SequenceOutOfRange)
  {
    InputFailureSticks(chain, rbf, lockTime, allowPegIn, inputs, k + 1, |inputs|);
  }

  /** The loop succeeds only if every reference is in range and every
      peg-in reference has a plan whose parent block passes the proof
      check. */
  lemma RejectedReferenceFails(chain: Chain, rbf: bool, lockTime: nat, allowPegIn: bool,
                               inputs: seq<InputRef>, n: nat)
    requires n <= |inputs|
    requires exists i :: 0 <= i < n &&
               (!FieldsInRange(inputs[i])
                || (inputs[i].AllPegin() && allowPegIn
                    && (PeginPlanOf(chain, inputs[i]).Failure?
                        || !ParentProofOk(chain, PeginPlanOf(chain, inputs[i]).value.block.header))))
    ensures AddInputs(chain, rbf, lockTime, allowPegIn, inputs, n).Failure?
  {
    if AddInputs(chain, rbf, lockTime, allowPegIn, inputs, n).Success? {
      AddInputsPlaces(chain, rbf, lockTime, allowPegIn, inputs, n);
    }
  }
}
