/** The output half of ConstructTransaction: one output per key of the
    request's output object, in key order, with the special keys data,
    vdata, burn and fee, duplicate detection, and the parallel list of
    blinding public keys. */
module BuildOutputs {
  import opened Wrappers
  import opened Scripts
  import opened Primitives

  /** The value of one output key, already typed: a hex string, a list of
      hex strings, or an amount in base units. */
  datatype OutputValue = HexData(data: Bytes) | HexList(items: seq<Bytes>) | Amount(amount: int)

  /** A decoded address: the script it pays to and, for a confidential
      address, its blinding public key. */
  datatype Destination = Destination(script: Script, blindingKey: Option<Bytes>)

  /** The output object as its keys appear, in order. A JSON object may hold
      the same key more than once; every lookup by name finds the first. */
  type Entries = seq<(string, OutputValue)>

  /** What the output loop consults besides the entries. */
  datatype OutputContext = OutputContext(
    assets: seq<(string, Hash256)>,
    policyAsset: Hash256,
    decodeDestination: string -> Option<Destination>,
    wantPubkeys: bool)

  /** The value stored under the first occurrence of name. */
  function Lookup<V>(kvs: seq<(string, V)>, name: string): (r: Option<V>)
    ensures r.Some? <==> exists i :: 0 <= i < |kvs| && kvs[i].0 == name
    ensures r.Some? ==> exists i :: 0 <= i < |kvs| && kvs[i] == (name, r.value)
                                  && forall j :: 0 <= j < i ==> kvs[j].0 != name
  {
    if kvs == [] then None
    else if kvs[0].0 == name then Some(kvs[0].1)
    else
      var r := Lookup(kvs[1..], name);
      assert forall i :: 1 <= i < |kvs| ==> kvs[i] == kvs[1..][i - 1];
      r
  }

  /** The asset an output name pays: the request's entry for it, if any,
      else the policy asset. */
  function AssetFor(ctx: OutputContext, name: string): Hash256
  {
    match Lookup(ctx.assets, name)
    case Some(a) => a
    case None => ctx.policyAsset
  }

  predicate IsSpecial(name: string)
  {
    name in {"data", "vdata", "fee", "burn"}
  }

  /** The output entry i yields when it is well formed, wherever it sits. */
  function EntryOutput(ctx: OutputContext, entries: Entries, i: nat): (r: Option<TxOut>)
    requires i < |entries|
    ensures r.Some? && entries[i].0 in {"data", "vdata", "burn"} ==>
              |r.value.scriptPubKey| > 0 && r.value.scriptPubKey[0] == OP_RETURN
    ensures r.Some? && entries[i].0 in {"data", "vdata"} ==> r.value.value == Explicit(0)
    ensures r.Some? && entries[i].0 in {"fee", "burn"} ==> r.value.value.Explicit? && MoneyRange(r.value.value.amount)
    ensures r.Some? && entries[i].0 == "fee" ==> r.value.scriptPubKey == []
    ensures r.Some? && !IsSpecial(entries[i].0) ==>
              && ctx.decodeDestination(entries[i].0).Some?
              && r.value.scriptPubKey == ctx.decodeDestination(entries[i].0).value.script
              && r.value.nonce == (if ctx.wantPubkeys || ctx.decodeDestination(entries[i].0).value.blindingKey.None? then []
                                   else ctx.decodeDestination(entries[i].0).value.blindingKey.value)
    ensures r.Some? ==> r.value.asset == AssetFor(ctx, entries[i].0)
  {
    var name := entries[i].0;
    var value := Lookup(entries, name).value;
    var asset := AssetFor(ctx, name);
    if name == "data" then
      if value.HexData? then Some(TxOut(asset, Explicit(0), [], NullDataScript([value.data]))) else None
    else if name == "vdata" then
      if value.HexList? then Some(TxOut(asset, Explicit(0), [], NullDataScript(value.items))) else None
    else if name == "fee" then
      if value.Amount? && MoneyRange(value.amount) then Some(TxOut(asset, Explicit(value.amount), [], [])) else None
    else if name == "burn" then
      if value.Amount? && MoneyRange(value.amount) then Some(TxOut(asset, Explicit(value.amount), [], NullDataScript([]))) else None
    else match ctx.decodeDestination(name)
      case None => None
      case Some(dest) =>
        if value.Amount? && MoneyRange(value.amount) then
          var nonce := if dest.blindingKey.Some? && !ctx.wantPubkeys then dest.blindingKey.value else [];
          Some(TxOut(asset, Explicit(value.amount), nonce, dest.script))
        else None
  }

  /** A well-formed entry's output is worth exactly the requested amount
      (fee, burn and addresses), or carries the requested payload after
      OP_RETURN (data and vdata). */
  lemma EntryOutputSpec(ctx: OutputContext, entries: Entries, i: nat)
    requires i < |entries| && EntryOutput(ctx, entries, i).Some?
    ensures var name := entries[i].0;
      var out := EntryOutput(ctx, entries, i).value;
      && Lookup(entries, name).Some?
      && (name !in {"data", "vdata"} ==>
            && Lookup(entries, name).value.Amount?
            && out.value == Explicit(Lookup(entries, name).value.amount)
            && MoneyRange(out.value.amount))
      && (name == "data" ==>
            Lookup(entries, name).value.HexData? && out.scriptPubKey == NullDataScript([Lookup(entries, name).value.data]))
      && (name == "vdata" ==>
            Lookup(entries, name).value.HexList? && out.scriptPubKey == NullDataScript(Lookup(entries, name).value.items))
  {
  }

  /** A data or vdata output carries exactly the requested payload after
      its OP_RETURN: the data key's bytes as one push, the vdata key's
      items one push each. */
  lemma EntryPayload(ctx: OutputContext, entries: Entries, i: nat)
    requires i < |entries| && EntryOutput(ctx, entries, i).Some?
    requires entries[i].0 in {"data", "vdata"}
    requires var v := Lookup(entries, entries[i].0).value;
      (v.HexData? ==> |v.data| < Pow256(4)) && (v.HexList? ==> forall k :: 0 <= k < |v.items| ==> |v.items[k]| < Pow256(4))
    ensures var v := Lookup(entries, entries[i].0).value;
      NullDataPayload(EntryOutput(ctx, entries, i).value.scriptPubKey)
        == Some(if entries[i].0 == "data" then [v.data] else v.items)
  {
    EntryOutputSpec(ctx, entries, i);
    var v := Lookup(entries, entries[i].0).value;
    if entries[i].0 == "data" {
      NullDataRoundTrip([v.data]);
    } else {
      NullDataRoundTrip(v.items);
    }
  }

  /** The blinding key reported for entry i: the address's key for a
      confidential address, the empty key otherwise. */
  function EntryPubkey(ctx: OutputContext, entries: Entries, i: nat): Bytes
    requires i < |entries|
  {
    var name := entries[i].0;
    if IsSpecial(name) then []
    else match ctx.decodeDestination(name)
      case Some(Destination(_, Some(key))) => key
      case _ => []
  }

  /** The loop state: outputs and keys emitted so far, the destinations and
      data key seen, and the pending fee output. */
  datatype Emitted = Emitted(vout: seq<TxOut>, pubkeys: seq<Bytes>, destinations: set<Destination>,
                             hasData: bool, fee: Option<TxOut>)

  function Emit(ctx: OutputContext, st: Emitted, out: TxOut, key: Bytes): Emitted
  {
    st.(vout := st.vout + [out], pubkeys := if ctx.wantPubkeys then st.pubkeys + [key] else st.pubkeys)
  }

  /** One iteration of the output loop, checks in source order. */
  function OutputStep(ctx: OutputContext, entries: Entries, st: Emitted, i: nat): Result<Emitted, Error>
    requires i < |entries|
  {
    var name := entries[i].0;
    var value := Lookup(entries, name).value;
    var asset := AssetFor(ctx, name);
    if name == "data" then
      if st.hasData then Failure(DuplicateData)
      else if !value.HexData? then Failure(WrongValueType(name))
      else Success(Emit(ctx, st.(hasData := true), TxOut(asset, Explicit(0), [], NullDataScript([value.data])), []))
    else if name == "vdata" then
      if !value.HexList? then Failure(WrongValueType(name))
      else Success(Emit(ctx, st, TxOut(asset, Explicit(0), [], NullDataScript(value.items)), []))
    else if name == "fee" then
      if !value.Amount? then Failure(WrongValueType(name))
      else if !MoneyRange(value.amount) then Failure(AmountOutOfRange)
      else Success(st.(fee := Some(TxOut(asset, Explicit(value.amount), [], []))))
    else if name == "burn" then
      if !value.Amount? then Failure(WrongValueType(name))
      else if !MoneyRange(value.amount) then Failure(AmountOutOfRange)
      else Success(Emit(ctx, st, TxOut(asset, Explicit(value.amount), [], NullDataScript([])), []))
    else match ctx.decodeDestination(name)
      case None => Failure(InvalidAddress(name))
      case Some(dest) =>
        if dest in st.destinations then Failure(DuplicateAddress(name))
        else if !value.Amount? then Failure(WrongValueType(name))
        else if !MoneyRange(value.amount) then Failure(AmountOutOfRange)
        else
          var key := if dest.blindingKey.Some? then dest.blindingKey.value else [];
          var nonce := if dest.blindingKey.Some? && !ctx.wantPubkeys then key else [];
          Success(Emit(ctx, st.(destinations := st.destinations + {dest}),
                       TxOut(asset, Explicit(value.amount), nonce, dest.script), key))
  }

  const NoOutputs: Emitted := Emitted([], [], {}, false, None)

  /** The output loop over the first n entries. */
  function EmitUpTo(ctx: OutputContext, entries: Entries, n: nat): Result<Emitted, Error>
    requires n <= |entries|
  {
    if n == 0 then Success(NoOutputs)
    else match EmitUpTo(ctx, entries, n - 1)
      case Failure(e) => Failure(e)
      case Success(st) => OutputStep(ctx, entries, st, n - 1)
  }

  /** The fee output goes last, and only when its amount is positive. */
  predicate FeeEmitted(fee: Option<TxOut>)
  {
    fee.Some? && fee.value.value.Explicit? && fee.value.value.amount > 0
  }

  function Finish(ctx: OutputContext, st: Emitted): (r: Emitted)
    ensures r.vout == st.vout + (if FeeEmitted(st.fee) then [st.fee.value] else [])
  {
    if FeeEmitted(st.fee) then Emit(ctx, st, st.fee.value, []) else st
  }

  // ---- Specification of the loop's outcome, free of loop state ----

  /** The outputs the first n entries call for, in key order: every key
      except fee yields one. */
  ghost function Expected(ctx: OutputContext, entries: Entries, n: nat): seq<TxOut>
    requires n <= |entries|
  {
    if n == 0 then []
    else
      var tail := if entries[n - 1].0 == "fee" || EntryOutput(ctx, entries, n - 1).None? then []
                  else [EntryOutput(ctx, entries, n - 1).value];
      Expected(ctx, entries, n - 1) + tail
  }

  /** The blinding keys the first n entries report, one per expected output. */
  ghost function ExpectedKeys(ctx: OutputContext, entries: Entries, n: nat): seq<Bytes>
    requires n <= |entries|
  {
    if n == 0 then []
    else
      var tail := if entries[n - 1].0 == "fee" || EntryOutput(ctx, entries, n - 1).None? then []
                  else [EntryPubkey(ctx, entries, n - 1)];
      ExpectedKeys(ctx, entries, n - 1) + tail
  }

  /** The outputs and keys emitted after n entries are the expected ones. */
  ghost predicate OutputsFor(ctx: OutputContext, entries: Entries, n: nat, st: Emitted)
    requires n <= |entries|
  {
    && (forall i :: 0 <= i < n ==> EntryOutput(ctx, entries, i).Some?)
    && st.vout == Expected(ctx, entries, n)
    && st.pubkeys == (if ctx.wantPubkeys then ExpectedKeys(ctx, entries, n) else [])
    && |ExpectedKeys(ctx, entries, n)| == |Expected(ctx, entries, n)|
  }

  /** The data flag is set exactly when a data key has been seen. */
  ghost predicate DataFor(entries: Entries, n: nat, st: Emitted)
    requires n <= |entries|
  {
    st.hasData <==> exists i :: 0 <= i < n && entries[i].0 == "data"
  }

  /** The destination set holds exactly the decoded addresses seen. */
  ghost predicate DestinationsFor(ctx: OutputContext, entries: Entries, n: nat, st: Emitted)
    requires n <= |entries|
  {
    && (forall i :: 0 <= i < n && !IsSpecial(entries[i].0) ==>
          ctx.decodeDestination(entries[i].0).Some? && ctx.decodeDestination(entries[i].0).value in st.destinations)
    && (forall d :: d in st.destinations ==>
          exists i :: 0 <= i < n && !IsSpecial(entries[i].0) && ctx.decodeDestination(entries[i].0) == Some(d))
  }

  /** The pending fee is set exactly when a fee key has been seen, and is
      the output every fee key yields. */
  ghost predicate FeeFor(ctx: OutputContext, entries: Entries, n: nat, st: Emitted)
    requires n <= |entries|
  {
    && (st.fee.Some? <==> exists i :: 0 <= i < n && entries[i].0 == "fee")
    && (forall i :: 0 <= i < n && entries[i].0 == "fee" ==> st.fee == EntryOutput(ctx, entries, i))
  }

  ghost predicate EmittedFor(ctx: OutputContext, entries: Entries, n: nat, st: Emitted)
    requires n <= |entries|
  {
    OutputsFor(ctx, entries, n, st) && DataFor(entries, n, st)
    && DestinationsFor(ctx, entries, n, st) && FeeFor(ctx, entries, n, st)
  }

  /** All entries with the same name yield the same output: lookups find the
      first occurrence. */
  lemma SameNameSameOutput(ctx: OutputContext, entries: Entries, i: nat, j: nat)
    requires i < |entries| && j < |entries| && entries[i].0 == entries[j].0
    ensures EntryOutput(ctx, entries, i) == EntryOutput(ctx, entries, j)
  {
  }

  /** A successful step emits EntryOutput (and EntryPubkey), except for fee,
      which it records. */
  lemma StepEmitsEntryOutput(ctx: OutputContext, entries: Entries, st: Emitted, n: nat)
    requires n < |entries|
    requires OutputStep(ctx, entries, st, n).Success?
    ensures EntryOutput(ctx, entries, n).Some?
    ensures var st' := OutputStep(ctx, entries, st, n).value;
      if entries[n].0 == "fee" then st'.vout == st.vout && st'.pubkeys == st.pubkeys
      else (st'.vout == st.vout + [EntryOutput(ctx, entries, n).value]
            && st'.pubkeys == (if ctx.wantPubkeys then st.pubkeys + [EntryPubkey(ctx, entries, n)] else st.pubkeys))
  {
  }

  lemma StepOutputs(ctx: OutputContext, entries: Entries, st: Emitted, n: nat)
    requires n < |entries|
    requires OutputsFor(ctx, entries, n, st)
    requires OutputStep(ctx, entries, st, n).Success?
    ensures OutputsFor(ctx, entries, n + 1, OutputStep(ctx, entries, st, n).value)
  {
    StepEmitsEntryOutput(ctx, entries, st, n);
  }

  lemma StepData(ctx: OutputContext, entries: Entries, st: Emitted, n: nat)
    requires n < |entries|
    requires DataFor(entries, n, st)
    requires OutputStep(ctx, entries, st, n).Success?
    ensures DataFor(entries, n + 1, OutputStep(ctx, entries, st, n).value)
  {
  }

  lemma StepDestinations(ctx: OutputContext, entries: Entries, st: Emitted, n: nat)
    requires n < |entries|
    requires DestinationsFor(ctx, entries, n, st)
    requires OutputStep(ctx, entries, st, n).Success?
    ensures DestinationsFor(ctx, entries, n + 1, OutputStep(ctx, entries, st, n).value)
  {
    var st' := OutputStep(ctx, entries, st, n).value;
    if !IsSpecial(entries[n].0) {
      assert st'.destinations == st.destinations + {ctx.decodeDestination(entries[n].0).value};
      forall d | d in st'.destinations
        ensures exists i :: 0 <= i < n + 1 && !IsSpecial(entries[i].0) && ctx.decodeDestination(entries[i].0) == Some(d)
      {
        if d !in st.destinations {
          assert ctx.decodeDestination(entries[n].0) == Some(d);
        }
      }
    } else {
      assert st'.destinations == st.destinations;
    }
  }

  lemma StepFee(ctx: OutputContext, entries: Entries, st: Emitted, n: nat)
    requires n < |entries|
    requires FeeFor(ctx, entries, n, st)
    requires OutputStep(ctx, entries, st, n).Success?
    ensures FeeFor(ctx, entries, n + 1, OutputStep(ctx, entries, st, n).value)
  {
    var st' := OutputStep(ctx, entries, st, n).value;
    if entries[n].0 == "fee" {
      StepEmitsEntryOutput(ctx, entries, st, n);
      forall i | 0 <= i < n + 1 && entries[i].0 == "fee" ensures st'.fee == EntryOutput(ctx, entries, i) {
        SameNameSameOutput(ctx, entries, i, n);
      }
    } else {
      assert st'.fee == st.fee;
    }
  }

  lemma EmitUpToSpec(ctx: OutputContext, entries: Entries, n: nat)
    requires n <= |entries|
    requires EmitUpTo(ctx, entries, n).Success?
    ensures EmittedFor(ctx, entries, n, EmitUpTo(ctx, entries, n).value)
  {
    OutputsSeen(ctx, entries, n);
    DataSeen(ctx, entries, n);
    DestinationsSeen(ctx, entries, n);
    FeeSeen(ctx, entries, n);
  }

  /** The outputs and keys alone, after a successful loop prefix. */
  lemma {:induction false} OutputsSeen(ctx: OutputContext, entries: Entries, n: nat)
    requires n <= |entries|
    requires EmitUpTo(ctx, entries, n).Success?
    ensures OutputsFor(ctx, entries, n, EmitUpTo(ctx, entries, n).value)
  {
    if n > 0 {
      EmitUnfold(ctx, entries, n);
      var st := EmitUpTo(ctx, entries, n - 1).value;
      OutputsSeen(ctx, entries, n - 1);
      StepOutputs(ctx, entries, st, n - 1);
    }
  }

  /** The pending fee alone, after a successful loop prefix. */
  lemma {:induction false} FeeSeen(ctx: OutputContext, entries: Entries, n: nat)
    requires n <= |entries|
    requires EmitUpTo(ctx, entries, n).Success?
    ensures FeeFor(ctx, entries, n, EmitUpTo(ctx, entries, n).value)
  {
    if n > 0 {
      EmitUnfold(ctx, entries, n);
      var st := EmitUpTo(ctx, entries, n - 1).value;
      FeeSeen(ctx, entries, n - 1);
      StepFee(ctx, entries, st, n - 1);
    }
  }

  /** A successful loop prefix is one successful step past a shorter one. */
  lemma EmitUnfold(ctx: OutputContext, entries: Entries, n: nat)
    requires 0 < n <= |entries| && EmitUpTo(ctx, entries, n).Success?
    ensures EmitUpTo(ctx, entries, n - 1).Success?
    ensures EmitUpTo(ctx, entries, n) == OutputStep(ctx, entries, EmitUpTo(ctx, entries, n - 1).value, n - 1)
  {
  }

  /** Once the loop fails it stays failed. */
  lemma {:induction false} FailureSticks(ctx: OutputContext, entries: Entries, m: nat, n: nat)
    requires m <= n <= |entries|
    requires EmitUpTo(ctx, entries, m).Failure?
    ensures EmitUpTo(ctx, entries, n) == EmitUpTo(ctx, entries, m)
    decreases n - m
  {
    if m < n {
      FailureSticks(ctx, entries, m + 1, n);
    }
  }

  /** The data flag alone, after a successful loop prefix. */
  lemma {:induction false} DataSeen(ctx: OutputContext, entries: Entries, n: nat)
    requires n <= |entries|
    requires EmitUpTo(ctx, entries, n).Success?
    ensures DataFor(entries, n, EmitUpTo(ctx, entries, n).value)
  {
    if n > 0 {
      EmitUnfold(ctx, entries, n);
      var st := EmitUpTo(ctx, entries, n - 1).value;
      DataSeen(ctx, entries, n - 1);
      StepData(ctx, entries, st, n - 1);
    }
  }

  /** The destination set alone, after a successful loop prefix. */
  lemma {:induction false} DestinationsSeen(ctx: OutputContext, entries: Entries, n: nat)
    requires n <= |entries|
    requires EmitUpTo(ctx, entries, n).Success?
    ensures DestinationsFor(ctx, entries, n, EmitUpTo(ctx, entries, n).value)
  {
    if n > 0 {
      EmitUnfold(ctx, entries, n);
      var st := EmitUpTo(ctx, entries, n - 1).value;
      DestinationsSeen(ctx, entries, n - 1);
      StepDestinations(ctx, entries, st, n - 1);
    }
  }

  /** A second data key always fails. */
  lemma DuplicateDataFails(ctx: OutputContext, entries: Entries, i: nat, j: nat)
    requires i < j < |entries| && entries[i].0 == "data" && entries[j].0 == "data"
    ensures EmitUpTo(ctx, entries, |entries|).Failure?
  {
    if EmitUpTo(ctx, entries, j).Success? {
      DataSeen(ctx, entries, j);
      StepFailureSticks(ctx, entries, j);
    } else {
      FailureSticks(ctx, entries, j, |entries|);
    }
  }

  /** Two keys that decode to the same destination always fail. */
  lemma DuplicateDestinationFails(ctx: OutputContext, entries: Entries, i: nat, j: nat)
    requires i < j < |entries| && !IsSpecial(entries[i].0) && !IsSpecial(entries[j].0)
    requires ctx.decodeDestination(entries[i].0).Some?
    requires ctx.decodeDestination(entries[i].0) == ctx.decodeDestination(entries[j].0)
    ensures EmitUpTo(ctx, entries, |entries|).Failure?
  {
    if EmitUpTo(ctx, entries, j).Success? {
      var st := EmitUpTo(ctx, entries, j).value;
      DestinationsSeen(ctx, entries, j);
      assert ctx.decodeDestination(entries[j].0).value in st.destinations;
      SeenDestinationFails(ctx, entries, st, j);
      StepFailureSticks(ctx, entries, j);
    } else {
      FailureSticks(ctx, entries, j, |entries|);
    }
  }

  /** A step that fails after a successful prefix fails the whole loop. */
  lemma StepFailureSticks(ctx: OutputContext, entries: Entries, j: nat)
    requires j < |entries| && EmitUpTo(ctx, entries, j).Success?
    requires OutputStep(ctx, entries, EmitUpTo(ctx, entries, j).value, j).Failure?
    ensures EmitUpTo(ctx, entries, |entries|).Failure?
  {
    assert EmitUpTo(ctx, entries, j + 1).Failure?;
    FailureSticks(ctx, entries, j + 1, |entries|);
  }

  /** An address already paid makes the step fail. */
  lemma SeenDestinationFails(ctx: OutputContext, entries: Entries, st: Emitted, j: nat)
    requires j < |entries| && !IsSpecial(entries[j].0)
    requires ctx.decodeDestination(entries[j].0).Some?
    requires ctx.decodeDestination(entries[j].0).value in st.destinations
    ensures OutputStep(ctx, entries, st, j) == Failure(DuplicateAddress(entries[j].0))
  {
  }
}
