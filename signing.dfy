/** The signing path: the peg-in audit that runs before signing, the
    wrapper around the signer, and the assembly of its report. */
module Signing {
  import opened Wrappers
  import opened Scripts
  import opened Primitives
  import opened Prevouts

  const INVALID_PROOF: string := "Peg-in input has invalid proof."
  const NEEDS_CONFIRMATIONS: string := "Needs more confirmations."
  const MISSING_AMOUNT: string := "Missing amount"
  const IMMATURE_WARNING: string := "Possibly immature peg-in input(s) detected, signed anyways."

  /** The per-input error messages, ordered by input index like the
      std::map they stand for. */
  ghost predicate Ascending(m: seq<(int, string)>)
  {
    forall i, j :: 0 <= i < j < |m| ==> m[i].0 < m[j].0
  }

  type ErrorMap = m: seq<(int, string)> | Ascending(m) witness []

  function Find(m: seq<(int, string)>, k: int): Option<string>
  {
    if |m| == 0 then None
    else if m[0].0 == k then Some(m[0].1)
    else Find(m[1..], k)
  }

  /** input_errors[k] = v: overwrites the message for k or inserts it in
      index order. */
  function Put(m: ErrorMap, k: int, v: string): (r: ErrorMap)
    ensures Find(r, k) == Some(v)
    ensures forall k' :: k' != k ==> Find(r, k') == Find(m, k')
  {
    if |m| == 0 then [(k, v)]
    else if m[0].0 == k then [(k, v)] + m[1..]
    else if k < m[0].0 then
      var r := [(k, v)] + m;
      assert forall k' :: k' != k ==> Find(r, k') == Find(m, k');
      r
    else
      var tail := Put(m[1..], k, v);
      FindHeadOf(tail);
      FindBounds(m[1..], m[0].0);
      [m[0]] + tail
  }

  /** Every key found in an ascending map is above any bound all its keys
      are above. */
  lemma {:induction false} FindBounds(m: ErrorMap, lo: int)
    requires forall j :: 0 <= j < |m| ==> lo < m[j].0
    ensures forall k :: Find(m, k).Some? ==> lo < k
  {
    if |m| > 0 {
      FindBounds(m[1..], lo);
    }
  }

  /** A key sits at some position of the map exactly when Find finds it. */
  lemma {:induction false} FindHeadOf(m: seq<(int, string)>)
    ensures forall j :: 0 <= j < |m| ==> Find(m, m[j].0).Some?
  {
    if |m| > 0 {
      FindHeadOf(m[1..]);
      forall j | 0 <= j < |m|
        ensures Find(m, m[j].0).Some?
      {
        if j > 0 && m[0].0 != m[j].0 {
          assert m[j] == m[1..][j - 1];
        }
      }
    }
  }

  // ---------------------------------------------------------------
  // ValidateTransactionPeginInputs
  // ---------------------------------------------------------------

  function PeginCheck(chain: Chain, tx: Tx, i: nat, depthCheck: bool): Check
    requires i < |tx.vin| && i < |tx.vtxinwit|
  {
    chain.isValidPeginWitness(tx.vtxinwit[i].peginWitness, chain.fedpegScripts, tx.vin[i].prevout, depthCheck)
  }

  /** A peg-in input with no witness slot, or whose witness fails the check
      that ignores depth. */
  predicate InvalidProof(chain: Chain, tx: Tx, i: nat)
    requires i < |tx.vin|
  {
    tx.vin[i].isPegin && (|tx.vtxinwit| <= i || PeginCheck(chain, tx, i, false).Invalid?)
  }

  /** A peg-in input that passes the check ignoring depth but fails the one
      that enforces it. */
  predicate Immature(chain: Chain, tx: Tx, i: nat)
    requires i < |tx.vin|
  {
    tx.vin[i].isPegin && !InvalidProof(chain, tx, i) && PeginCheck(chain, tx, i, true).Invalid?
  }

  /** An immature input whose failure is not the lack of confirmations: the
      source's internal consistency check trips. */
  predicate UnexpectedReason(chain: Chain, tx: Tx, i: nat)
    requires i < |tx.vin|
  {
    Immature(chain, tx, i) && PeginCheck(chain, tx, i, true).reason != NEEDS_CONFIRMATIONS
  }

  /** The audit over the first n inputs: the error map so far and whether an
      immature peg-in was seen. */
  function AuditUpTo(chain: Chain, tx: Tx, errs0: ErrorMap, n: nat): Result<(ErrorMap, bool), Error>
    requires n <= |tx.vin|
  {
    if n == 0 then Success((errs0, false))
    else
      match AuditUpTo(chain, tx, errs0, n - 1)
      case Failure(e) => Failure(e)
      case Success((errs, immature)) =>
        var i := n - 1;
        if InvalidProof(chain, tx, i) then Success((Put(errs, i, INVALID_PROOF), immature))
        else if Immature(chain, tx, i) then
          if PeginCheck(chain, tx, i, true).reason != NEEDS_CONFIRMATIONS then
            Failure(UnexpectedPeginReason(PeginCheck(chain, tx, i, true).reason))
          else Success((errs, true))
        else Success((errs, immature))
  }

  /** The audit fails exactly when some input trips the consistency check,
      and then with the first such input's reason. */
  lemma {:induction false} AuditFailure(chain: Chain, tx: Tx, errs0: ErrorMap, n: nat)
    requires n <= |tx.vin|
    ensures AuditUpTo(chain, tx, errs0, n).Success? <==> forall i :: 0 <= i < n ==> !UnexpectedReason(chain, tx, i)
    ensures AuditUpTo(chain, tx, errs0, n).Failure? ==>
      exists i :: 0 <= i < n && UnexpectedReason(chain, tx, i)
               && (forall j :: 0 <= j < i ==> !UnexpectedReason(chain, tx, j))
               && AuditUpTo(chain, tx, errs0, n).error == UnexpectedPeginReason(PeginCheck(chain, tx, i, true).reason)
  {
    if n > 0 {
      AuditFailure(chain, tx, errs0, n - 1);
      if AuditUpTo(chain, tx, errs0, n - 1).Success? && UnexpectedReason(chain, tx, n - 1) {
        assert forall j :: 0 <= j < n - 1 ==> !UnexpectedReason(chain, tx, j);
      }
    }
  }

  /** After a successful audit of n inputs: exactly the peg-in inputs with
      an invalid proof got the invalid-proof message, every other entry is
      as before, and the immature flag is set iff some input is immature. */
  lemma {:induction false} AuditSuccess(chain: Chain, tx: Tx, errs0: ErrorMap, n: nat)
    requires n <= |tx.vin|
    requires AuditUpTo(chain, tx, errs0, n).Success?
    ensures var (errs, immature) := AuditUpTo(chain, tx, errs0, n).value;
      && (forall k :: 0 <= k < n ==>
            Find(errs, k) == if InvalidProof(chain, tx, k) then Some(INVALID_PROOF) else Find(errs0, k))
      && (forall k :: k < 0 || k >= n ==> Find(errs, k) == Find(errs0, k))
      && (immature <==> exists i :: 0 <= i < n && Immature(chain, tx, i))
  {
    if n > 0 {
      AuditSuccess(chain, tx, errs0, n - 1);
    }
  }

  /** Only peg-in inputs are ever flagged by the audit. */
  lemma OnlyPeginsFlagged(chain: Chain, tx: Tx, errs0: ErrorMap, k: nat)
    requires AuditUpTo(chain, tx, errs0, |tx.vin|).Success?
    requires k < |tx.vin| && !tx.vin[k].isPegin
    ensures Find(AuditUpTo(chain, tx, errs0, |tx.vin|).value.0, k) == Find(errs0, k)
  {
    AuditSuccess(chain, tx, errs0, |tx.vin|);
  }

  /** Walks the inputs, flags peg-ins whose proof is invalid and reports
      whether an otherwise valid peg-in lacks confirmations. */
  method ValidateTransactionPeginInputs(chain: Chain, tx: Tx, errs0: ErrorMap)
    returns (r: Result<(ErrorMap, bool), Error>)
    ensures r == AuditUpTo(chain, tx, errs0, |tx.vin|)
  {
    var inputErrors := errs0;
    var immaturePegin := false;
    var i := 0;
    while i < |tx.vin|
      invariant 0 <= i <= |tx.vin|
      invariant AuditUpTo(chain, tx, errs0, i) == Success((inputErrors, immaturePegin))
    {
      var txin := tx.vin[i];
      if txin.isPegin && (|tx.vtxinwit| <= i || PeginCheck(chain, tx, i, false).Invalid?) {
        inputErrors := Put(inputErrors, i, INVALID_PROOF);
        i := i + 1;
        continue;
      }
      if txin.isPegin && PeginCheck(chain, tx, i, true).Invalid? {
        var err := PeginCheck(chain, tx, i, true).reason;
        if err != NEEDS_CONFIRMATIONS {
          AuditStopsAtFailure(chain, tx, errs0, i + 1, |tx.vin|);
          return Failure(UnexpectedPeginReason(err));
        }
        immaturePegin := true;
      }
      i := i + 1;
    }
    return Success((inputErrors, immaturePegin));
  }

  lemma {:induction false} AuditStopsAtFailure(chain: Chain, tx: Tx, errs0: ErrorMap, m: nat, n: nat)
    requires m <= n <= |tx.vin|
    requires AuditUpTo(chain, tx, errs0, m).Failure?
    ensures AuditUpTo(chain, tx, errs0, n) == AuditUpTo(chain, tx, errs0, m)
    decreases n - m
  {
    if m < n {
      AuditStopsAtFailure(chain, tx, errs0, m, n - 1);
    }
  }

  // ---------------------------------------------------------------
  // SignTransactionResultToJSON
  // ---------------------------------------------------------------

  /** One reported input error: the input's index and the message. */
  datatype ErrorEntry = ErrorEntry(index: int, message: string)

  /** The fields of the result object the assembly writes. */
  datatype Report = Report(tx: Option<Tx>, complete: Option<bool>, errors: Option<seq<ErrorEntry>>, warning: Option<string>)

  /** The error entries for the first n pairs of the error map. */
  function EntriesUpTo(tx: Tx, coins: map<OutPoint, Coin>, errs: ErrorMap, n: nat): Result<seq<ErrorEntry>, Error>
    requires n <= |errs|
  {
    if n == 0 then Success([])
    else
      match EntriesUpTo(tx, coins, errs, n - 1)
      case Failure(e) => Failure(e)
      case Success(entries) =>
        var (k, msg) := errs[n - 1];
        if msg == MISSING_AMOUNT then
          if k < 0 || k >= |tx.vin| || tx.vin[k].prevout !in coins then Failure(IndexOutOfRange)
          else Failure(MissingAmount(tx.vin[k].prevout))
        else if k < 0 || k >= |tx.vin| || k >= |tx.vtxinwit| then Failure(IndexOutOfRange)
        else Success(entries + [ErrorEntry(k, msg)])
  }

  /** Whether the pair can be reported: not a missing amount, and indexing
      both an input and its witness. */
  predicate Reportable(tx: Tx, e: (int, string))
  {
    e.1 != MISSING_AMOUNT && 0 <= e.0 < |tx.vin| && e.0 < |tx.vtxinwit|
  }

  /** The entries succeed iff every pair is reportable, and then list the
      pairs in index order. */
  lemma {:induction false} EntriesSpec(tx: Tx, coins: map<OutPoint, Coin>, errs: ErrorMap, n: nat)
    requires n <= |errs|
    ensures EntriesUpTo(tx, coins, errs, n).Success? <==> forall j :: 0 <= j < n ==> Reportable(tx, errs[j])
    ensures EntriesUpTo(tx, coins, errs, n).Success? ==>
      var entries := EntriesUpTo(tx, coins, errs, n).value;
      && |entries| == n
      && forall j :: 0 <= j < n ==> entries[j] == ErrorEntry(errs[j].0, errs[j].1)
  {
    if n > 0 {
      EntriesSpec(tx, coins, errs, n - 1);
    }
  }

  /** A missing amount is always an exception, never a reported error. */
  lemma MissingAmountThrows(tx: Tx, coins: map<OutPoint, Coin>, errs: ErrorMap, j: nat)
    requires j < |errs| && errs[j].1 == MISSING_AMOUNT
    ensures EntriesUpTo(tx, coins, errs, |errs|).Failure?
  {
    EntriesSpec(tx, coins, errs, |errs|);
  }

  /** The result object after assembly. */
  function ResultToJSON(tx: Tx, complete: bool, coins: map<OutPoint, Coin>, errs: ErrorMap, immature: bool,
                        result0: Report): Result<Report, Error>
  {
    match EntriesUpTo(tx, coins, errs, |errs|)
    case Failure(e) => Failure(e)
    case Success(entries) =>
      var r := result0.(tx := Some(tx), complete := Some(complete));
      var r := if |entries| > 0 then r.(errors := Some(entries + if result0.errors.Some? then result0.errors.value else []))
               else r;
      Success(if immature then r.(warning := Some(IMMATURE_WARNING)) else r)
  }

  /** What a successful assembly reports: the transaction and the complete
      flag; the new errors in index order ahead of any earlier ones; and
      the warning iff an immature peg-in was seen. */
  lemma ResultSpec(tx: Tx, complete: bool, coins: map<OutPoint, Coin>, errs: ErrorMap, immature: bool, result0: Report)
    ensures ResultToJSON(tx, complete, coins, errs, immature, result0).Success?
            <==> forall j :: 0 <= j < |errs| ==> Reportable(tx, errs[j])
    ensures ResultToJSON(tx, complete, coins, errs, immature, result0).Success? ==>
      var r := ResultToJSON(tx, complete, coins, errs, immature, result0).value;
      var prior := if result0.errors.Some? then result0.errors.value else [];
      && r.tx == Some(tx) && r.complete == Some(complete)
      && (|errs| == 0 ==> r.errors == result0.errors)
      && (|errs| > 0 ==> r.errors.Some? && |r.errors.value| == |errs| + |prior|
                         && r.errors.value[|errs|..] == prior
                         && forall j :: 0 <= j < |errs| ==> r.errors.value[j] == ErrorEntry(errs[j].0, errs[j].1))
      && (immature ==> r.warning == Some(IMMATURE_WARNING))
      && (!immature ==> r.warning == result0.warning)
  {
    EntriesSpec(tx, coins, errs, |errs|);
  }

  /** Builds the error list in index order, then writes the transaction,
      the complete flag, the errors ahead of any earlier ones, and the
      warning. */
  method SignTransactionResultToJSON(tx: Tx, complete: bool, coins: map<OutPoint, Coin>, errs: ErrorMap,
                                     immature: bool, result0: Report)
    returns (r: Result<Report, Error>)
    ensures r == ResultToJSON(tx, complete, coins, errs, immature, result0)
  {
    var vErrors: seq<ErrorEntry> := [];
    var n := 0;
    while n < |errs|
      invariant 0 <= n <= |errs|
      invariant EntriesUpTo(tx, coins, errs, n) == Success(vErrors)
    {
      var (k, msg) := errs[n];
      if EntriesUpTo(tx, coins, errs, n + 1).Failure? {
        EntriesStopAtFailure(tx, coins, errs, n + 1, |errs|);
      }
      if msg == MISSING_AMOUNT {
        if k < 0 || k >= |tx.vin| || tx.vin[k].prevout !in coins {
          return Failure(IndexOutOfRange);
        }
        return Failure(MissingAmount(tx.vin[k].prevout));
      }
      if k < 0 || k >= |tx.vin| || k >= |tx.vtxinwit| {
        return Failure(IndexOutOfRange);
      }
      vErrors := vErrors + [ErrorEntry(k, msg)];
      n := n + 1;
    }
    var result := result0.(tx := Some(tx), complete := Some(complete));
    if |vErrors| > 0 {
      assert vErrors + [] == vErrors;
      if result.errors.Some? {
        vErrors := vErrors + result.errors.value;
      }
      result := result.(errors := Some(vErrors));
    }
    if immature {
      result := result.(warning := Some(IMMATURE_WARNING));
    }
    return Success(result);
  }

  lemma {:induction false} EntriesStopAtFailure(tx: Tx, coins: map<OutPoint, Coin>, errs: ErrorMap, m: nat, n: nat)
    requires m <= n <= |errs|
    requires EntriesUpTo(tx, coins, errs, m).Failure?
    ensures EntriesUpTo(tx, coins, errs, n) == EntriesUpTo(tx, coins, errs, m)
    decreases n - m
  {
    if m < n {
      EntriesStopAtFailure(tx, coins, errs, m, n - 1);
    }
  }

  // ---------------------------------------------------------------
  // The SignTransaction wrapper
  // ---------------------------------------------------------------

  /** The signer and the sighash parser the wrapper delegates to. The
      signer sees the transaction, the keystore's scripts, the coins, the
      sighash type and the error map, and returns the signed transaction,
      whether it is complete, and the updated error map. */
  datatype Signer = Signer(
    parseSighash: Option<string> -> Option<int>,
    sign: (Tx, set<Script>, map<OutPoint, Coin>, int, ErrorMap) -> (Tx, bool, ErrorMap))

  /** The outcome of the wrapper: the report and the transaction left in
      the caller's hands. */
  function SignSpec(signer: Signer, chain: Chain, scripts: set<Script>, coins: map<OutPoint, Coin>,
                    hashType: Option<string>, tx: Tx, result0: Report): (Result<Report, Error>, Tx)
  {
    match signer.parseSighash(hashType)
    case None => (Failure(InvalidSighash), tx)
    case Some(nHashType) =>
      match AuditUpTo(chain, tx, [], |tx.vin|)
      case Failure(e) => (Failure(e), tx)
      case Success((errs, immature)) =>
        var (signed, complete, errs') := signer.sign(tx, scripts, coins, nHashType, errs);
        (ResultToJSON(signed, complete, coins, errs', immature, result0), signed)
  }

  /** The wrapper never signs a transaction the audit rejects, and its
      warning reports exactly the immature peg-ins of the unsigned
      transaction. */
  lemma SignReportsAudit(signer: Signer, chain: Chain, scripts: set<Script>, coins: map<OutPoint, Coin>,
                         hashType: Option<string>, tx: Tx, result0: Report)
    requires result0.warning.None?
    ensures var (r, tx') := SignSpec(signer, chain, scripts, coins, hashType, tx, result0);
      && ((exists i :: 0 <= i < |tx.vin| && UnexpectedReason(chain, tx, i)) ==> r.Failure? && tx' == tx)
      && (r.Success? ==> (r.value.warning.Some? <==> exists i :: 0 <= i < |tx.vin| && Immature(chain, tx, i)))
  {
    AuditFailure(chain, tx, [], |tx.vin|);
    if signer.parseSighash(hashType).Some? && AuditUpTo(chain, tx, [], |tx.vin|).Success? {
      AuditSuccess(chain, tx, [], |tx.vin|);
      var (errs, immature) := AuditUpTo(chain, tx, [], |tx.vin|).value;
      var (signed, complete, errs') := signer.sign(tx, scripts, coins, signer.parseSighash(hashType).value, errs);
      ResultSpec(signed, complete, coins, errs', immature, result0);
    }
  }

  /** Parses the sighash type, audits the peg-in inputs, signs mtx in place
      and assembles the report. */
  method SignTransaction(mtx: MutableTransaction, signer: Signer, scripts: set<Script>, coins: map<OutPoint, Coin>,
                         hashType: Option<string>, chain: Chain, result0: Report)
    returns (r: Result<Report, Error>)
    modifies mtx
    ensures (r, mtx.Snapshot()) == SignSpec(signer, chain, scripts, coins, hashType, old(mtx.Snapshot()), result0)
  {
    var parsed := signer.parseSighash(hashType);
    if parsed.None? {
      return Failure(InvalidSighash);
    }
    var nHashType := parsed.value;
    var inputErrors: ErrorMap := [];
    var audit := ValidateTransactionPeginInputs(chain, mtx.Snapshot(), inputErrors);
    if audit.Failure? {
      return Failure(audit.error);
    }
    var immaturePegin;
    inputErrors, immaturePegin := audit.value.0, audit.value.1;
    var (signed, complete, errs') := signer.sign(mtx.Snapshot(), scripts, coins, nHashType, inputErrors);
    mtx.vin, mtx.vout, mtx.vtxinwit, mtx.nLockTime := signed.vin, signed.vout, signed.vtxinwit, signed.nLockTime;
    r := SignTransactionResultToJSON(mtx.Snapshot(), complete, coins, errs', immaturePegin, result0);
  }
}
