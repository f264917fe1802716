/** The peg-in output matcher: which output of a foreign transaction a claim
    script, combined with the federation scripts, pays to. */
module PeginMatch {
  import opened Wrappers
  import opened Scripts
  import opened Primitives

  /** The parent-chain script a claim script pays to under one federation
      pair: P2WSH of the tweaked federation script, additionally wrapped in
      P2SH when the pair's template is P2SH. */
  function DerivedScript(c: Crypto, pair: FedpegPair, claim: Script): (r: Script)
    ensures IsPayToScriptHash(pair.template) ==> IsPayToScriptHash(r)
    ensures !IsPayToScriptHash(pair.template) ==> IsPayToWitnessScriptHash(r)
  {
    var program := P2WSH(c, c.contract(pair.fedpegScript, claim));
    if IsPayToScriptHash(pair.template) then P2SH(c, program) else program
  }

  /** Output n pays to the script derived from federation pair k. */
  ghost predicate MatchesAt(c: Crypto, vout: seq<ForeignOut>, claim: Script, feds: seq<FedpegPair>, k: int, n: int)
  {
    0 <= k < |feds| && 0 <= n < |vout| && vout[n].scriptPubKey == DerivedScript(c, feds[k], claim)
  }

  /** r is the answer a first-match search must give: |vout| when nothing
      matches; otherwise the first output matching the earliest pair that
      matches anywhere. */
  ghost predicate IsFirstMatch(c: Crypto, vout: seq<ForeignOut>, claim: Script, feds: seq<FedpegPair>, r: nat)
  {
    && r <= |vout|
    && (r == |vout| <==> forall k, n :: !MatchesAt(c, vout, claim, feds, k, n))
    && (r < |vout| ==>
          exists k :: MatchesAt(c, vout, claim, feds, k, r)
                   && (forall k', n :: k' < k ==> !MatchesAt(c, vout, claim, feds, k', n))
                   && (forall n :: n < r ==> !MatchesAt(c, vout, claim, feds, k, n)))
  }

  /** Index of the first output from n on whose script is `script`, or |vout|. */
  function FirstOutputFrom(vout: seq<ForeignOut>, script: Script, n: nat): (r: nat)
    requires n <= |vout|
    ensures n <= r <= |vout|
    decreases |vout| - n
  {
    if n == |vout| then |vout|
    else if vout[n].scriptPubKey == script then n
    else FirstOutputFrom(vout, script, n + 1)
  }

  /** The search over federation pairs from k on. */
  function OutputIndexFrom(c: Crypto, vout: seq<ForeignOut>, claim: Script, feds: seq<FedpegPair>, k: nat): (r: nat)
    requires k <= |feds|
    ensures r <= |vout|
    decreases |feds| - k
  {
    if k == |feds| then |vout|
    else
      var n := FirstOutputFrom(vout, DerivedScript(c, feds[k], claim), 0);
      if n < |vout| then n else OutputIndexFrom(c, vout, claim, feds, k + 1)
  }

  /** GetPeginTxnOutputIndex as a function. */
  function OutputIndex(c: Crypto, tx: ForeignTx, claim: Script, feds: seq<FedpegPair>): (r: nat)
    ensures r <= |tx.vout|
  {
    OutputIndexFrom(c, tx.vout, claim, feds, 0)
  }

  lemma {:induction false} FirstOutputFromSpec(vout: seq<ForeignOut>, script: Script, n: nat)
    requires n <= |vout|
    ensures var r := FirstOutputFrom(vout, script, n);
      && n <= r <= |vout|
      && (r < |vout| ==> vout[r].scriptPubKey == script)
      && (forall m :: n <= m < r ==> vout[m].scriptPubKey != script)
    decreases |vout| - n
  {
    if n < |vout| && vout[n].scriptPubKey != script {
      FirstOutputFromSpec(vout, script, n + 1);
    }
  }

  /** No pair from k on matches any output. */
  ghost predicate NoMatchFrom(c: Crypto, vout: seq<ForeignOut>, claim: Script, feds: seq<FedpegPair>, k: nat)
  {
    forall k', n :: k <= k' ==> !MatchesAt(c, vout, claim, feds, k', n)
  }

  /** Pair j is the first pair from k on that matches, and r its first matching output. */
  ghost predicate FirstMatchFrom(c: Crypto, vout: seq<ForeignOut>, claim: Script, feds: seq<FedpegPair>, k: nat, j: nat, r: nat)
  {
    && k <= j
    && MatchesAt(c, vout, claim, feds, j, r)
    && (forall k', n :: k <= k' < j ==> !MatchesAt(c, vout, claim, feds, k', n))
    && (forall n :: n < r ==> !MatchesAt(c, vout, claim, feds, j, n))
  }

  lemma {:induction false} OutputIndexFromSpec(c: Crypto, vout: seq<ForeignOut>, claim: Script, feds: seq<FedpegPair>, k: nat)
    requires k <= |feds|
    ensures OutputIndexFrom(c, vout, claim, feds, k) <= |vout|
    ensures OutputIndexFrom(c, vout, claim, feds, k) == |vout| ==> NoMatchFrom(c, vout, claim, feds, k)
    ensures OutputIndexFrom(c, vout, claim, feds, k) < |vout| ==>
              exists j :: FirstMatchFrom(c, vout, claim, feds, k, j, OutputIndexFrom(c, vout, claim, feds, k))
    decreases |feds| - k
  {
    if k < |feds| {
      var script := DerivedScript(c, feds[k], claim);
      var n := FirstOutputFrom(vout, script, 0);
      if n < |vout| {
        PairMatches(c, vout, claim, feds, k);
      } else {
        FirstOutputFromSpec(vout, script, 0);
        PairMatchesNowhere(c, vout, claim, feds, k);
        OutputIndexFromSpec(c, vout, claim, feds, k + 1);
        PairMisses(c, vout, claim, feds, k, k + 1, OutputIndexFrom(c, vout, claim, feds, k + 1));
      }
    }
  }

  /** Step of the search when pair k matches somewhere. */
  lemma PairMatches(c: Crypto, vout: seq<ForeignOut>, claim: Script, feds: seq<FedpegPair>, k: nat)
    requires k < |feds|
    requires FirstOutputFrom(vout, DerivedScript(c, feds[k], claim), 0) < |vout|
    ensures FirstMatchFrom(c, vout, claim, feds, k, k, OutputIndexFrom(c, vout, claim, feds, k))
  {
    var script := DerivedScript(c, feds[k], claim);
    FirstOutputFromSpec(vout, script, 0);
    var n := FirstOutputFrom(vout, script, 0);
    assert OutputIndexFrom(c, vout, claim, feds, k) == n;
  }

  /** Pair k matches no output when the scan for its script runs off the end. */
  lemma PairMatchesNowhere(c: Crypto, vout: seq<ForeignOut>, claim: Script, feds: seq<FedpegPair>, k: nat)
    requires k < |feds|
    requires FirstOutputFrom(vout, DerivedScript(c, feds[k], claim), 0) == |vout|
    ensures forall m :: !MatchesAt(c, vout, claim, feds, k, m)
  {
    FirstOutputFromSpec(vout, DerivedScript(c, feds[k], claim), 0);
  }

  /** Step of the search when pair k matches nowhere. */
  lemma PairMisses(c: Crypto, vout: seq<ForeignOut>, claim: Script, feds: seq<FedpegPair>, k: nat, next: nat, r: nat)
    requires k < |feds| && next == k + 1
    requires forall m :: !MatchesAt(c, vout, claim, feds, k, m)
    requires r <= |vout|
    requires r == |vout| ==> NoMatchFrom(c, vout, claim, feds, next)
    requires r < |vout| ==> exists j :: FirstMatchFrom(c, vout, claim, feds, next, j, r)
    ensures r == |vout| ==> NoMatchFrom(c, vout, claim, feds, k)
    ensures r < |vout| ==> exists j :: FirstMatchFrom(c, vout, claim, feds, k, j, r)
  {
    if r < |vout| {
      var j: nat :| FirstMatchFrom(c, vout, claim, feds, next, j, r);
      forall k', n | k <= k' < j ensures !MatchesAt(c, vout, claim, feds, k', n) {
        if k' != k {
          assert next <= k' < j;
        }
      }
      assert FirstMatchFrom(c, vout, claim, feds, k, j, r);
    } else {
      forall k', n | k <= k' ensures !MatchesAt(c, vout, claim, feds, k', n) {
        if k' != k {
          assert next <= k';
        }
      }
    }
  }

  /** The functional search gives the first-match answer. */
  lemma OutputIndexIsFirstMatch(c: Crypto, tx: ForeignTx, claim: Script, feds: seq<FedpegPair>)
    ensures IsFirstMatch(c, tx.vout, claim, feds, OutputIndex(c, tx, claim, feds))
  {
    var r := OutputIndex(c, tx, claim, feds);
    OutputIndexFromSpec(c, tx.vout, claim, feds, 0);
    if r < |tx.vout| {
      var j: nat :| FirstMatchFrom(c, tx.vout, claim, feds, 0, j, r);
      assert MatchesAt(c, tx.vout, claim, feds, j, r);
    }
  }

  /** When exactly one (pair, output) combination matches, the search finds
      that output, whatever the positions of the pair and the output. */
  lemma UniqueMatchIsFound(c: Crypto, tx: ForeignTx, claim: Script, feds: seq<FedpegPair>, k: nat, n: nat)
    requires MatchesAt(c, tx.vout, claim, feds, k, n)
    requires forall k', n' :: MatchesAt(c, tx.vout, claim, feds, k', n') ==> k' == k && n' == n
    ensures OutputIndex(c, tx, claim, feds) == n
  {
    OutputIndexIsFirstMatch(c, tx, claim, feds);
  }

  /** The nested loops of GetPeginTxnOutputIndex: pairs in priority order,
      outputs in index order, first match returned, |vout| when none. */
  method GetPeginTxnOutputIndex(c: Crypto, tx: ForeignTx, claim: Script, feds: seq<FedpegPair>) returns (r: nat)
    ensures IsFirstMatch(c, tx.vout, claim, feds, r)
    ensures r == OutputIndex(c, tx, claim, feds)
  {
    var vout := tx.vout;
    var k := 0;
    while k < |feds|
      invariant 0 <= k <= |feds|
      invariant OutputIndex(c, tx, claim, feds) == OutputIndexFrom(c, vout, claim, feds, k)
    {
      var script := DerivedScript(c, feds[k], claim);
      var n := 0;
      while n < |vout|
        invariant 0 <= n <= |vout|
        invariant FirstOutputFrom(vout, script, 0) == FirstOutputFrom(vout, script, n)
      {
        if vout[n].scriptPubKey == script {
          assert OutputIndexFrom(c, vout, claim, feds, k) == n;
          OutputIndexIsFirstMatch(c, tx, claim, feds);
          return n;
        }
        n := n + 1;
      }
      assert FirstOutputFrom(vout, script, 0) == |vout|;
      k := k + 1;
    }
    r := |vout|;
    OutputIndexIsFirstMatch(c, tx, claim, feds);
  }

  /** The claim-script loop of the materialiser: the first claim script, in
      the set's iteration order, for which the search finds an output, with
      that output's index. */
  function SelectClaim(c: Crypto, tx: ForeignTx, claims: seq<Script>, feds: seq<FedpegPair>): (r: Option<(Script, nat)>)
    ensures r.Some? ==> r.value.1 < |tx.vout|
  {
    if claims == [] then None
    else
      var n := OutputIndex(c, tx, claims[0], feds);
      if n != |tx.vout| then Some((claims[0], n)) else SelectClaim(c, tx, claims[1..], feds)
  }

  lemma {:induction false} SelectClaimSpec(c: Crypto, tx: ForeignTx, claims: seq<Script>, feds: seq<FedpegPair>)
    ensures SelectClaim(c, tx, claims, feds).None? <==>
              forall j :: 0 <= j < |claims| ==> OutputIndex(c, tx, claims[j], feds) == |tx.vout|
    ensures SelectClaim(c, tx, claims, feds).Some? ==>
              exists j :: 0 <= j < |claims|
                && SelectClaim(c, tx, claims, feds).value == (claims[j], OutputIndex(c, tx, claims[j], feds))
                && OutputIndex(c, tx, claims[j], feds) < |tx.vout|
                && forall i :: 0 <= i < j ==> OutputIndex(c, tx, claims[i], feds) == |tx.vout|
  {
    SelectClaimNone(c, tx, claims, feds);
    if SelectClaim(c, tx, claims, feds).Some? {
      SelectClaimSome(c, tx, claims, feds);
    }
  }

  /** No claim script is selected exactly when none of them matches an output. */
  lemma {:induction false} SelectClaimNone(c: Crypto, tx: ForeignTx, claims: seq<Script>, feds: seq<FedpegPair>)
    ensures SelectClaim(c, tx, claims, feds).None? <==>
              forall j :: 0 <= j < |claims| ==> OutputIndex(c, tx, claims[j], feds) == |tx.vout|
  {
    if claims != [] {
      SelectClaimNone(c, tx, claims[1..], feds);
      forall j | 0 < j < |claims| ensures claims[j] == claims[1..][j - 1] { }
    }
  }

  /** A selected claim script is the first one that matches an output. */
  lemma {:induction false} SelectClaimSome(c: Crypto, tx: ForeignTx, claims: seq<Script>, feds: seq<FedpegPair>)
    requires SelectClaim(c, tx, claims, feds).Some?
    ensures exists j :: 0 <= j < |claims|
                && SelectClaim(c, tx, claims, feds).value == (claims[j], OutputIndex(c, tx, claims[j], feds))
                && OutputIndex(c, tx, claims[j], feds) < |tx.vout|
                && forall i :: 0 <= i < j ==> OutputIndex(c, tx, claims[i], feds) == |tx.vout|
  {
    var sel := SelectClaim(c, tx, claims, feds);
    var n0 := OutputIndex(c, tx, claims[0], feds);
    if n0 != |tx.vout| {
      assert sel.value == (claims[0], n0);
    } else {
      var rest := claims[1..];
      assert sel == SelectClaim(c, tx, rest, feds);
      SelectClaimSome(c, tx, rest, feds);
      var j :| 0 <= j < |rest|
            && sel.value == (rest[j], OutputIndex(c, tx, rest[j], feds))
            && OutputIndex(c, tx, rest[j], feds) < |tx.vout|
            && forall i :: 0 <= i < j ==> OutputIndex(c, tx, rest[i], feds) == |tx.vout|;
      assert rest[j] == claims[j + 1];
      forall i | 0 <= i < j + 1 ensures OutputIndex(c, tx, claims[i], feds) == |tx.vout| {
        if i > 0 { assert claims[i] == rest[i - 1]; }
      }
    }
  }

  /** The loop over claim scripts as the source runs it; the index starts at,
      and stays at, |vout| when no claim script matches. */
  method FindClaimedOutput(c: Crypto, tx: ForeignTx, claims: seq<Script>, feds: seq<FedpegPair>)
    returns (witnessScript: Script, nOut: nat)
    ensures nOut <= |tx.vout|
    ensures nOut == |tx.vout| <==> SelectClaim(c, tx, claims, feds).None?
    ensures nOut == |tx.vout| ==> witnessScript == []
    ensures nOut < |tx.vout| ==> SelectClaim(c, tx, claims, feds) == Some((witnessScript, nOut))
  {
    witnessScript := [];
    nOut := |tx.vout|;
    var j := 0;
    while j < |claims|
      invariant 0 <= j <= |claims|
      invariant SelectClaim(c, tx, claims, feds) == SelectClaim(c, tx, claims[j..], feds)
      invariant nOut == |tx.vout| && witnessScript == []
    {
      assert claims[j..][1..] == claims[j + 1..];
      nOut := GetPeginTxnOutputIndex(c, tx, claims[j], feds);
      if nOut != |tx.vout| {
        witnessScript := claims[j];
        return;
      }
      j := j + 1;
    }
  }
}
