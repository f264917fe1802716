/** ParsePrevouts: turns the caller's list of previous outputs into the
    coins the signer sees and, when a keystore is given, teaches that
    keystore the redeem and witness scripts the outputs commit to. */
module Prevouts {
  import opened Wrappers
  import opened Scripts
  import opened Primitives

  /** An unspent output as the signer sees it. */
  datatype Coin = Coin(scriptPubKey: Script, value: ConfValue, height: nat, spent: bool)

  /** A script argument as the caller wrote it: its hex text, which the
      source compares as text, and the bytes it decodes to. */
  datatype ScriptArg = ScriptArg(text: string, bytes: Bytes)

  /** One entry of the previous-outputs list, already typed. */
  datatype Prevout = Prevout(
    txid: Hash256,
    vout: int,
    scriptPubKey: Script,
    amount: Option<int>,
    amountCommitment: Option<Bytes>,
    redeemScript: Option<ScriptArg>,
    witnessScript: Option<ScriptArg>)

  /** The coins and the scripts the keystore holds. */
  datatype Parsed = Parsed(coins: map<OutPoint, Coin>, scripts: set<Script>)

  /** How the loop ends: every entry accepted, or the first error together
      with the state written so far. */
  datatype Outcome = Done(st: Parsed) | Stopped(err: Error, st: Parsed)

  function Key(p: Prevout): OutPoint
    requires p.vout >= 0
  {
    OutPoint(p.txid, p.vout)
  }

  /** The coin recorded for an entry: at height 1, worth the stated amount,
      else carrying the stated commitment, else worth MAX_MONEY. */
  function NewCoin(p: Prevout): (r: Coin)
    ensures r.scriptPubKey == p.scriptPubKey && r.height == 1 && !r.spent
    ensures p.amount.Some? ==> r.value == Explicit(p.amount.value)
    ensures p.amount.None? && p.amountCommitment.Some? ==> r.value == Committed(p.amountCommitment.value)
    ensures p.amount.None? && p.amountCommitment.None? ==> r.value == Explicit(MAX_MONEY)
  {
    var value :=
      if p.amount.Some? then Explicit(p.amount.value)
      else if p.amountCommitment.Some? then Committed(p.amountCommitment.value)
      else Explicit(MAX_MONEY);
    Coin(p.scriptPubKey, value, 1, false)
  }

  /** The script the keystore learns: the witness script when given, else
      the redeem script. */
  function ChosenScript(p: Prevout): Script
    requires p.redeemScript.Some? || p.witnessScript.Some?
  {
    if p.witnessScript.Some? then p.witnessScript.value.bytes else p.redeemScript.value.bytes
  }

  /** Whether an entry's output script is one the keystore must be able to
      solve. */
  predicate NeedsScript(p: Prevout)
  {
    IsPayToScriptHash(p.scriptPubKey) || IsPayToWitnessScriptHash(p.scriptPubKey)
  }

  /** The output script can be generated from the chosen script: plain
      P2SH or P2SH-wrapped P2WSH for a P2SH output, P2WSH for a P2WSH one. */
  predicate ScriptMatches(c: Crypto, p: Prevout)
    requires p.redeemScript.Some? || p.witnessScript.Some?
  {
    var script := ChosenScript(p);
    if IsPayToScriptHash(p.scriptPubKey) then
      p.scriptPubKey == P2SH(c, script) || p.scriptPubKey == P2SH(c, P2WSH(c, script))
    else
      p.scriptPubKey == P2WSH(c, script)
  }

  /** When both scripts are given and their texts differ, the redeem
      script must be the P2WSH of the witness script. */
  predicate ScriptsAgree(c: Crypto, p: Prevout)
  {
    (p.redeemScript.Some? && p.witnessScript.Some? && p.witnessScript.value.text != p.redeemScript.value.text)
    ==> p.redeemScript.value.bytes == P2WSH(c, p.witnessScript.value.bytes)
  }

  /** The keystore half of one entry, run after its coin is written. */
  function KeystoreStep(c: Crypto, keystore: bool, p: Prevout, st: Parsed): (r: Outcome)
    ensures r.st.coins == st.coins
    ensures r.Done? <==>
      !(keystore && NeedsScript(p))
      || ((p.redeemScript.Some? || p.witnessScript.Some?) && ScriptsAgree(c, p) && ScriptMatches(c, p))
  {
    if !(keystore && NeedsScript(p)) then Done(st)
    else if p.redeemScript.None? && p.witnessScript.None? then Stopped(MissingRedeemOrWitnessScript, st)
    else
      var script := ChosenScript(p);
      var wrapped := P2WSH(c, script);
      var learned := Parsed(st.coins, st.scripts + {script, wrapped});
      if p.witnessScript.Some? && p.redeemScript.Some? && p.witnessScript.value.text != p.redeemScript.value.text
         && p.redeemScript.value.bytes != wrapped then
        Stopped(RedeemScriptMismatch, learned)
      else if IsPayToScriptHash(p.scriptPubKey) then
        if p.scriptPubKey == P2SH(c, script) || p.scriptPubKey == P2SH(c, wrapped) then Done(learned)
        else Stopped(ScriptPubKeyMismatch, learned)
      else if p.scriptPubKey != P2WSH(c, script) then Stopped(ScriptPubKeyMismatch, learned)
      else Done(learned)
  }

  /** The view already holds an unspent coin for the entry's outpoint with
      a different output script. */
  predicate ConflictsWith(p: Prevout, coins: map<OutPoint, Coin>)
    requires p.vout >= 0
  {
    Key(p) in coins && !coins[Key(p)].spent && coins[Key(p)].scriptPubKey != p.scriptPubKey
  }

  /** One entry: the outpoint checks, the coin write, then the keystore.
      The checks that precede the write leave the state as it was; once
      they pass, the coin is written whatever the keystore then decides. */
  function PrevoutStep(c: Crypto, keystore: bool, p: Prevout, st: Parsed): (r: Outcome)
    ensures p.vout < 0 ==> r == Stopped(PrevoutNegativeVout, st)
    ensures p.vout >= 0 && ConflictsWith(p, st.coins) ==> r == Stopped(PrevoutScriptMismatch, st)
    ensures p.vout >= 0 && !ConflictsWith(p, st.coins) && p.amount.Some? && !MoneyRange(p.amount.value) ==>
              r == Stopped(AmountOutOfRange, st)
    ensures p.vout >= 0 && !ConflictsWith(p, st.coins) && (p.amount.Some? ==> MoneyRange(p.amount.value)) ==>
              r.st.coins == st.coins[Key(p) := NewCoin(p)]
    ensures r.Done? ==> p.vout >= 0 && r.st.coins == st.coins[Key(p) := NewCoin(p)]
  {
    if p.vout < 0 then Stopped(PrevoutNegativeVout, st)
    else
      var out := Key(p);
      if ConflictsWith(p, st.coins) then
        Stopped(PrevoutScriptMismatch, st)
      else if p.amount.Some? && !MoneyRange(p.amount.value) then Stopped(AmountOutOfRange, st)
      else KeystoreStep(c, keystore, p, Parsed(st.coins[out := NewCoin(p)], st.scripts))
  }

  /** The loop over the first n entries, from the state st0. */
  function ParseUpTo(c: Crypto, keystore: bool, prevs: seq<Prevout>, n: nat, st0: Parsed): Outcome
    requires n <= |prevs|
  {
    if n == 0 then Done(st0)
    else
      match ParseUpTo(c, keystore, prevs, n - 1, st0)
      case Stopped(e, st) => Stopped(e, st)
      case Done(st) => PrevoutStep(c, keystore, prevs[n - 1], st)
  }

  /** The first rejected entry decides the outcome. */
  lemma {:induction false} ParseStopsAtFirstError(c: Crypto, keystore: bool, prevs: seq<Prevout>, m: nat, n: nat,
                                                  st0: Parsed)
    requires m <= n <= |prevs|
    requires ParseUpTo(c, keystore, prevs, m, st0).Stopped?
    ensures ParseUpTo(c, keystore, prevs, n, st0) == ParseUpTo(c, keystore, prevs, m, st0)
    decreases n - m
  {
    if m < n {
      ParseStopsAtFirstError(c, keystore, prevs, m, n - 1, st0);
    }
  }

  /** Each of the first n entries has its coin, with its own output
      script, so entries sharing an outpoint agree on the script. */
  ghost predicate CoinsListed(prevs: seq<Prevout>, n: nat, st: Parsed)
    requires n <= |prevs|
  {
    && (forall i :: 0 <= i < n ==> prevs[i].vout >= 0)
    && (forall i :: 0 <= i < n ==>
          && Key(prevs[i]) in st.coins
          && st.coins[Key(prevs[i])].scriptPubKey == prevs[i].scriptPubKey
          && st.coins[Key(prevs[i])].height == 1 && !st.coins[Key(prevs[i])].spent)
  }

  /** The last of the first n entries for an outpoint decides its coin. */
  ghost predicate CoinsLast(prevs: seq<Prevout>, n: nat, st: Parsed)
    requires n <= |prevs|
    requires forall i :: 0 <= i < n ==> prevs[i].vout >= 0
  {
    forall i :: 0 <= i < n && (forall j :: i < j < n ==> Key(prevs[j]) != Key(prevs[i])) ==>
      Key(prevs[i]) in st.coins && st.coins[Key(prevs[i])] == NewCoin(prevs[i])
  }

  /** Coins for outpoints none of the first n entries names are untouched,
      and no other coin appears. */
  ghost predicate CoinsElsewhere(prevs: seq<Prevout>, n: nat, st0: Parsed, st: Parsed)
    requires n <= |prevs|
    requires forall i :: 0 <= i < n ==> prevs[i].vout >= 0
  {
    && (forall o :: o in st0.coins && (forall i :: 0 <= i < n ==> Key(prevs[i]) != o) ==>
          o in st.coins && st.coins[o] == st0.coins[o])
    && (forall o :: o in st.coins ==> o in st0.coins || exists i :: 0 <= i < n && Key(prevs[i]) == o)
  }

  /** The coins after the first n entries are accepted. */
  ghost predicate CoinsFor(prevs: seq<Prevout>, n: nat, st0: Parsed, st: Parsed)
    requires n <= |prevs|
  {
    CoinsListed(prevs, n, st) && CoinsLast(prevs, n, st) && CoinsElsewhere(prevs, n, st0, st)
  }

  /** Some of the first n entries taught the keystore s. */
  ghost predicate LearnedFrom(c: Crypto, prevs: seq<Prevout>, n: nat, s: Script)
    requires n <= |prevs|
  {
    exists i :: 0 <= i < n && NeedsScript(prevs[i]) && (prevs[i].redeemScript.Some? || prevs[i].witnessScript.Some?)
                && (s == ChosenScript(prevs[i]) || s == P2WSH(c, ChosenScript(prevs[i])))
  }

  /** After the first n entries are accepted with a keystore, every entry
      with a P2SH or P2WSH output named a script from which that output can
      be generated, the keystore holds it and its P2WSH, and it learned
      nothing else. */
  ghost predicate ScriptsFor(c: Crypto, prevs: seq<Prevout>, n: nat, st0: Parsed, st: Parsed)
    requires n <= |prevs|
  {
    && (forall i :: 0 <= i < n && NeedsScript(prevs[i]) ==>
          && (prevs[i].redeemScript.Some? || prevs[i].witnessScript.Some?)
          && ScriptsAgree(c, prevs[i]) && ScriptMatches(c, prevs[i])
          && ChosenScript(prevs[i]) in st.scripts && P2WSH(c, ChosenScript(prevs[i])) in st.scripts)
    && st0.scripts <= st.scripts
    && (forall s :: s in st.scripts ==> s in st0.scripts || LearnedFrom(c, prevs, n, s))
  }

  lemma StepListed(prevs: seq<Prevout>, n: nat, st: Parsed, st': Parsed)
    requires n < |prevs| && prevs[n].vout >= 0
    requires CoinsListed(prevs, n, st)
    requires st'.coins == st.coins[Key(prevs[n]) := NewCoin(prevs[n])]
    requires Key(prevs[n]) in st.coins && !st.coins[Key(prevs[n])].spent ==>
               st.coins[Key(prevs[n])].scriptPubKey == prevs[n].scriptPubKey
    ensures CoinsListed(prevs, n + 1, st')
  {
    var p := prevs[n];
    forall i | 0 <= i < n + 1
      ensures && Key(prevs[i]) in st'.coins
              && st'.coins[Key(prevs[i])].scriptPubKey == prevs[i].scriptPubKey
              && st'.coins[Key(prevs[i])].height == 1 && !st'.coins[Key(prevs[i])].spent
    {
      if i < n && Key(prevs[i]) == Key(p) {
        assert st.coins[Key(p)].scriptPubKey == prevs[i].scriptPubKey;
      }
    }
  }

  lemma StepLast(prevs: seq<Prevout>, n: nat, st: Parsed, st': Parsed)
    requires n < |prevs| && forall i :: 0 <= i < n + 1 ==> prevs[i].vout >= 0
    requires CoinsLast(prevs, n, st)
    requires st'.coins == st.coins[Key(prevs[n]) := NewCoin(prevs[n])]
    ensures CoinsLast(prevs, n + 1, st')
  {
  }

  lemma StepElsewhere(prevs: seq<Prevout>, n: nat, st0: Parsed, st: Parsed, st': Parsed)
    requires n < |prevs| && forall i :: 0 <= i < n + 1 ==> prevs[i].vout >= 0
    requires CoinsElsewhere(prevs, n, st0, st)
    requires st'.coins == st.coins[Key(prevs[n]) := NewCoin(prevs[n])]
    ensures CoinsElsewhere(prevs, n + 1, st0, st')
  {
    forall o | o in st'.coins
      ensures o in st0.coins || exists i :: 0 <= i < n + 1 && Key(prevs[i]) == o
    {
      if o != Key(prevs[n]) {
        assert o in st.coins;
      }
    }
  }

  /** One accepted entry keeps the coin description. */
  lemma StepCoins(c: Crypto, keystore: bool, prevs: seq<Prevout>, n: nat, st0: Parsed, st: Parsed, st': Parsed)
    requires n < |prevs|
    requires CoinsFor(prevs, n, st0, st)
    requires PrevoutStep(c, keystore, prevs[n], st) == Done(st')
    ensures CoinsFor(prevs, n + 1, st0, st')
  {
    StepListed(prevs, n, st, st');
    StepLast(prevs, n, st, st');
    StepElsewhere(prevs, n, st0, st, st');
  }

  /** One accepted entry keeps the keystore description. */
  lemma StepScripts(c: Crypto, prevs: seq<Prevout>, n: nat, st0: Parsed, st: Parsed, st': Parsed)
    requires n < |prevs|
    requires ScriptsFor(c, prevs, n, st0, st)
    requires PrevoutStep(c, true, prevs[n], st) == Done(st')
    ensures ScriptsFor(c, prevs, n + 1, st0, st')
  {
    var p := prevs[n];
    forall s | s in st'.scripts
      ensures s in st0.scripts || LearnedFrom(c, prevs, n + 1, s)
    {
      if s !in st.scripts {
        assert NeedsScript(p) && (s == ChosenScript(p) || s == P2WSH(c, ChosenScript(p)));
      }
    }
  }

  /** What a successful parse establishes about the coins. */
  lemma {:induction false} ParsedCoins(c: Crypto, keystore: bool, prevs: seq<Prevout>, n: nat, st0: Parsed)
    requires n <= |prevs|
    requires ParseUpTo(c, keystore, prevs, n, st0).Done?
    ensures CoinsFor(prevs, n, st0, ParseUpTo(c, keystore, prevs, n, st0).st)
  {
    if n > 0 {
      ParsedCoins(c, keystore, prevs, n - 1, st0);
      StepCoins(c, keystore, prevs, n - 1, st0, ParseUpTo(c, keystore, prevs, n - 1, st0).st,
                ParseUpTo(c, keystore, prevs, n, st0).st);
    }
  }

  /** What a successful parse with a keystore establishes about it. */
  lemma {:induction false} ParsedScripts(c: Crypto, prevs: seq<Prevout>, n: nat, st0: Parsed)
    requires n <= |prevs|
    requires ParseUpTo(c, true, prevs, n, st0).Done?
    ensures ScriptsFor(c, prevs, n, st0, ParseUpTo(c, true, prevs, n, st0).st)
  {
    if n > 0 {
      ParsedScripts(c, prevs, n - 1, st0);
      StepScripts(c, prevs, n - 1, st0, ParseUpTo(c, true, prevs, n - 1, st0).st,
                  ParseUpTo(c, true, prevs, n, st0).st);
    }
  }

  /** Without a keystore, the parse never touches the script store. */
  lemma {:induction false} NoKeystoreNoScripts(c: Crypto, prevs: seq<Prevout>, n: nat, st0: Parsed)
    requires n <= |prevs|
    ensures ParseUpTo(c, false, prevs, n, st0).st.scripts == st0.scripts
  {
    if n > 0 {
      NoKeystoreNoScripts(c, prevs, n - 1, st0);
    }
  }

  /** Two entries for the same outpoint with different output scripts
      (and no earlier spent coin in the way) can never both be accepted. */
  lemma ConflictingEntriesRejected(c: Crypto, keystore: bool, prevs: seq<Prevout>, i: nat, j: nat, st0: Parsed)
    requires i < j < |prevs| && prevs[i].vout >= 0 && prevs[j].vout >= 0
    requires Key(prevs[i]) == Key(prevs[j]) && prevs[i].scriptPubKey != prevs[j].scriptPubKey
    ensures ParseUpTo(c, keystore, prevs, |prevs|, st0).Stopped?
  {
    var before := ParseUpTo(c, keystore, prevs, j, st0);
    if before.Done? {
      ParsedCoins(c, keystore, prevs, j, st0);
      assert CoinsListed(prevs, j, before.st);
      var coin := before.st.coins[Key(prevs[i])];
      assert coin.scriptPubKey == prevs[i].scriptPubKey && !coin.spent;
      assert PrevoutStep(c, keystore, prevs[j], before.st) == Stopped(PrevoutScriptMismatch, before.st);
    }
    ParseStopsAtFirstError(c, keystore, prevs, j + 1, |prevs|, st0);
  }

  /** An entry whose outpoint no earlier entry names, and which conflicts
      with an unspent coin already in the starting view, can never be
      accepted. */
  lemma ExistingCoinConflictRejected(c: Crypto, keystore: bool, prevs: seq<Prevout>, j: nat, st0: Parsed)
    requires j < |prevs| && prevs[j].vout >= 0
    requires forall i :: 0 <= i < j && prevs[i].vout >= 0 ==> Key(prevs[i]) != Key(prevs[j])
    requires ConflictsWith(prevs[j], st0.coins)
    ensures ParseUpTo(c, keystore, prevs, |prevs|, st0) == ParseUpTo(c, keystore, prevs, j + 1, st0)
    ensures ParseUpTo(c, keystore, prevs, |prevs|, st0).Stopped?
    ensures ParseUpTo(c, keystore, prevs, j, st0).Done? ==>
              ParseUpTo(c, keystore, prevs, |prevs|, st0).err == PrevoutScriptMismatch
  {
    var before := ParseUpTo(c, keystore, prevs, j, st0);
    if before.Done? {
      CoinUntouched(c, keystore, prevs, j, st0, Key(prevs[j]));
      assert ConflictsWith(prevs[j], before.st.coins);
    }
    ParseStopsAtFirstError(c, keystore, prevs, j + 1, |prevs|, st0);
  }

  /** After a successful parse, the first entry naming each outpoint
      agreed with any unspent coin the starting view held for it. */
  lemma ParsedAgreesWithView(c: Crypto, keystore: bool, prevs: seq<Prevout>, st0: Parsed)
    requires ParseUpTo(c, keystore, prevs, |prevs|, st0).Done?
    ensures forall j :: 0 <= j < |prevs| && prevs[j].vout >= 0
                        && (forall i :: 0 <= i < j && prevs[i].vout >= 0 ==> Key(prevs[i]) != Key(prevs[j])) ==>
              !ConflictsWith(prevs[j], st0.coins)
  {
    forall j | 0 <= j < |prevs| && prevs[j].vout >= 0
               && (forall i :: 0 <= i < j && prevs[i].vout >= 0 ==> Key(prevs[i]) != Key(prevs[j]))
      ensures !ConflictsWith(prevs[j], st0.coins)
    {
      if ConflictsWith(prevs[j], st0.coins) {
        ExistingCoinConflictRejected(c, keystore, prevs, j, st0);
      }
    }
  }

  /** A coin of the starting view whose outpoint none of the first n
      entries names survives a successful parse unchanged. */
  lemma {:induction false} CoinUntouched(c: Crypto, keystore: bool, prevs: seq<Prevout>, n: nat, st0: Parsed, o: OutPoint)
    requires n <= |prevs| && o in st0.coins
    requires forall i :: 0 <= i < n && prevs[i].vout >= 0 ==> Key(prevs[i]) != o
    requires ParseUpTo(c, keystore, prevs, n, st0).Done?
    ensures o in ParseUpTo(c, keystore, prevs, n, st0).st.coins
    ensures ParseUpTo(c, keystore, prevs, n, st0).st.coins[o] == st0.coins[o]
  {
    if n > 0 {
      CoinUntouched(c, keystore, prevs, n - 1, st0, o);
    }
  }

  /** An entry with a stated amount outside [0, MAX_MONEY] can never be
      accepted. */
  lemma AmountOutOfRangeRejected(c: Crypto, keystore: bool, prevs: seq<Prevout>, j: nat, st0: Parsed)
    requires j < |prevs| && prevs[j].amount.Some? && !MoneyRange(prevs[j].amount.value)
    ensures ParseUpTo(c, keystore, prevs, |prevs|, st0).Stopped?
  {
    ParseStopsAtFirstError(c, keystore, prevs, j + 1, |prevs|, st0);
  }

  /** The state the RPC handlers share with the signer: the coins map and
      the keystore's scripts. */
  class SigningContext {
    var coins: map<OutPoint, Coin>
    var scripts: set<Script>

    constructor (coins0: map<OutPoint, Coin>)
      ensures coins == coins0 && scripts == {}
    {
      coins, scripts := coins0, {};
    }

    function State(): Parsed
      reads this
    {
      Parsed(coins, scripts)
    }

    /** Parses the previous-outputs list (absent means nothing to do) into
        coins and, when a keystore is given, scripts. The error is the
        first entry's that fails; the state is left as written up to it. */
    method ParsePrevouts(prevTxs: Option<seq<Prevout>>, keystore: bool, c: Crypto) returns (err: Option<Error>)
      modifies this
      ensures prevTxs.None? ==> err == None && State() == old(State())
      ensures prevTxs.Some? ==>
        match ParseUpTo(c, keystore, prevTxs.value, |prevTxs.value|, old(State()))
        case Done(st) => err == None && State() == st
        case Stopped(e, st) => err == Some(e) && State() == st
    {
      if prevTxs.None? {
        return None;
      }
      var prevs := prevTxs.value;
      ghost var st0 := State();
      var idx := 0;
      while idx < |prevs|
        invariant 0 <= idx <= |prevs|
        invariant ParseUpTo(c, keystore, prevs, idx, st0) == Done(State())
      {
        if PrevoutStep(c, keystore, prevs[idx], State()).Stopped? {
          ParseStopsAtFirstError(c, keystore, prevs, idx + 1, |prevs|, st0);
        }
        err := ParseOne(prevs[idx], keystore, c);
        if err.Some? {
          return;
        }
        idx := idx + 1;
      }
      return None;
    }

    /** The body of the loop for one entry. */
    method ParseOne(p: Prevout, keystore: bool, c: Crypto) returns (err: Option<Error>)
      modifies this
      ensures match PrevoutStep(c, keystore, p, old(State()))
        case Done(st) => err == None && State() == st
        case Stopped(e, st) => err == Some(e) && State() == st
    {
      if p.vout < 0 {
        return Some(PrevoutNegativeVout);
      }
      var out := OutPoint(p.txid, p.vout);
      if out in coins && !coins[out].spent && coins[out].scriptPubKey != p.scriptPubKey {
        return Some(PrevoutScriptMismatch);
      }
      var value := Explicit(MAX_MONEY);
      if p.amount.Some? {
        if !MoneyRange(p.amount.value) {
          return Some(AmountOutOfRange);
        }
        value := Explicit(p.amount.value);
      } else if p.amountCommitment.Some? {
        value := Committed(p.amountCommitment.value);
      }
      coins := coins[out := Coin(p.scriptPubKey, value, 1, false)];
      err := LearnScripts(p, keystore, c);
    }

    /** The keystore half of the loop body, after the coin is written. */
    method LearnScripts(p: Prevout, keystore: bool, c: Crypto) returns (err: Option<Error>)
      modifies this
      ensures match KeystoreStep(c, keystore, p, old(State()))
        case Done(st) => err == None && State() == st
        case Stopped(e, st) => err == Some(e) && State() == st
    {
      var isP2sh := IsPayToScriptHash(p.scriptPubKey);
      var isP2wsh := IsPayToWitnessScriptHash(p.scriptPubKey);
      if keystore && (isP2sh || isP2wsh) {
        var rs := p.redeemScript;
        var ws := p.witnessScript;
        if rs.None? && ws.None? {
          return Some(MissingRedeemOrWitnessScript);
        }
        var script := if ws.Some? then ws.value.bytes else rs.value.bytes;
        scripts := scripts + {script};
        var witnessOutputScript := P2WSH(c, script);
        scripts := scripts + {witnessOutputScript};
        if ws.Some? && rs.Some? {
          if ws.value.text != rs.value.text {
            if rs.value.bytes != witnessOutputScript {
              return Some(RedeemScriptMismatch);
            }
          }
        }
        if isP2sh {
          if p.scriptPubKey == P2SH(c, script) {
          } else if p.scriptPubKey == P2SH(c, witnessOutputScript) {
          } else {
            return Some(ScriptPubKeyMismatch);
          }
        } else if isP2wsh {
          if p.scriptPubKey != P2WSH(c, script) {
            return Some(ScriptPubKeyMismatch);
          }
        }
      }
      return None;
    }
  }
}
