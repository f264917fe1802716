/** Locking scripts as byte strings: the push encoding used to build
    OP_RETURN outputs, the recognisers for pay-to-script-hash (BIP 16) and
    version-0 witness programs (BIP 141), and the hash functions, which stay
    uninterpreted. */
module Scripts {
  import opened Wrappers

  type Byte = x: int | 0 <= x < 256
  type Bytes = seq<Byte>
  type Script = Bytes

  /** A 32-byte hash (txid, block hash, asset id, SHA-256 digest). */
  type Hash256 = s: Bytes | |s| == 32 witness seq(32, i => 0)
  /** A 20-byte HASH160 digest. */
  type Hash160 = s: Bytes | |s| == 20 witness seq(20, i => 0)

  const OP_0: Byte := 0x00
  const OP_PUSHDATA1: Byte := 0x4c
  const OP_PUSHDATA2: Byte := 0x4d
  const OP_PUSHDATA4: Byte := 0x4e
  const OP_1: Byte := 0x51
  const OP_16: Byte := 0x60
  const OP_RETURN: Byte := 0x6a
  const OP_EQUAL: Byte := 0x87
  const OP_HASH160: Byte := 0xa9

  /** Little-endian encoding of n in k bytes (n taken modulo 256^k). */
  function LittleEndian(n: nat, k: nat): (r: Bytes)
    ensures |r| == k
  {
    if k == 0 then [] else [n % 256] + LittleEndian(n / 256, k - 1)
  }

  function FromLittleEndian(s: Bytes): nat
  {
    if s == [] then 0 else s[0] + 256 * FromLittleEndian(s[1..])
  }

  function Pow256(k: nat): (r: nat)
    ensures r > 0
  {
    if k == 0 then 1 else 256 * Pow256(k - 1)
  }

  lemma {:induction false} LittleEndianRoundTrip(n: nat, k: nat)
    requires n < Pow256(k)
    ensures FromLittleEndian(LittleEndian(n, k)) == n
  {
    if k > 0 {
      LittleEndianRoundTrip(n / 256, k - 1);
      assert LittleEndian(n, k)[1..] == LittleEndian(n / 256, k - 1);
    }
  }

  /** The bytes `CScript() << data` appends: the shortest of the four push
      forms whose length field can hold |data|, then the data itself. */
  function PushData(data: Bytes): (r: Script)
    ensures |r| > |data|
  {
    var n := |data|;
    if n < OP_PUSHDATA1 as int then [n as Byte] + data
    else if n <= 0xff then [OP_PUSHDATA1, n as Byte] + data
    else if n <= 0xffff then [OP_PUSHDATA2] + LittleEndian(n, 2) + data
    else [OP_PUSHDATA4] + LittleEndian(n, 4) + data
  }

  /** Reads one push from the front of s: the pushed bytes and what follows. */
  function ReadPush(s: Script): (r: Option<(Bytes, Script)>)
    ensures r.Some? ==> |r.value.1| < |s|
  {
    if s == [] then None
    else
      var op := s[0];
      var (hdr, n) :=
        if op < OP_PUSHDATA1 then (1, op as int)
        else if op == OP_PUSHDATA1 && |s| >= 2 then (2, s[1] as int)
        else if op == OP_PUSHDATA2 && |s| >= 3 then (3, FromLittleEndian(s[1..3]))
        else if op == OP_PUSHDATA4 && |s| >= 5 then (5, FromLittleEndian(s[1..5]))
        else (0, 0);
      if hdr == 0 || |s| < hdr + n then None
      else Some((s[hdr..hdr + n], s[hdr + n..]))
  }

  /** Pushing data and reading it back yields the data and the rest unchanged. */
  lemma PushDataRoundTrip(data: Bytes, rest: Script)
    requires |data| < Pow256(4)
    ensures ReadPush(PushData(data) + rest) == Some((data, rest))
  {
    var n := |data|;
    var s := PushData(data) + rest;
    if n < OP_PUSHDATA1 as int {
      assert s[1..1 + n] == data;
    } else if n <= 0xff {
      assert s[2..2 + n] == data;
    } else if n <= 0xffff {
      assert s[1..3] == LittleEndian(n, 2);
      assert Pow256(2) == 65536;
      LittleEndianRoundTrip(n, 2);
      assert s[3..3 + n] == data;
    } else {
      assert s[1..5] == LittleEndian(n, 4);
      LittleEndianRoundTrip(n, 4);
      assert s[5..5 + n] == data;
    }
  }

  /** The pushes of every item, one after the other. */
  function Pushes(items: seq<Bytes>): Script
  {
    if items == [] then [] else PushData(items[0]) + Pushes(items[1..])
  }

  /** Reads pushes until the script is exhausted. */
  function ReadPushes(s: Script): Option<seq<Bytes>>
    decreases |s|
  {
    if s == [] then Some([])
    else match ReadPush(s)
      case None => None
      case Some((d, rest)) =>
        match ReadPushes(rest)
        case None => None
        case Some(ds) => Some([d] + ds)
  }

  lemma {:induction false} PushesRoundTrip(items: seq<Bytes>)
    requires forall i :: 0 <= i < |items| ==> |items[i]| < Pow256(4)
    ensures ReadPushes(Pushes(items)) == Some(items)
  {
    if items != [] {
      PushDataRoundTrip(items[0], Pushes(items[1..]));
      PushesRoundTrip(items[1..]);
      assert [items[0]] + items[1..] == items;
    }
  }

  /** `CScript() << OP_RETURN` followed by one push per item: the script of the
      data, vdata and burn outputs. */
  function NullDataScript(items: seq<Bytes>): (r: Script)
    ensures |r| > 0 && r[0] == OP_RETURN
  {
    [OP_RETURN] + Pushes(items)
  }

  /** An OP_RETURN script's payload, read back push by push. */
  function NullDataPayload(s: Script): Option<seq<Bytes>>
  {
    if |s| > 0 && s[0] == OP_RETURN then ReadPushes(s[1..]) else None
  }

  lemma NullDataRoundTrip(items: seq<Bytes>)
    requires forall i :: 0 <= i < |items| ==> |items[i]| < Pow256(4)
    ensures NullDataPayload(NullDataScript(items)) == Some(items)
  {
    assert NullDataScript(items)[1..] == Pushes(items);
    PushesRoundTrip(items);
  }

  /** BIP 16 pattern: OP_HASH160 <20 bytes> OP_EQUAL. */
  predicate IsPayToScriptHash(s: Script)
  {
    |s| == 23 && s[0] == OP_HASH160 && s[1] == 0x14 && s[22] == OP_EQUAL
  }

  /** BIP 141 pattern: OP_0 <32 bytes>. */
  predicate IsPayToWitnessScriptHash(s: Script)
  {
    |s| == 34 && s[0] == OP_0 && s[1] == 0x20
  }

  /** BIP 141 witness program: a version opcode followed by one direct push of
      2 to 40 bytes that ends the script; yields the version and the program. */
  function WitnessProgram(s: Script): (r: Option<(nat, Bytes)>)
    ensures r.Some? ==> r.value.0 <= 16 && 2 <= |r.value.1| <= 40
  {
    if |s| < 4 || |s| > 42 then None
    else if s[0] != OP_0 && (s[0] < OP_1 || s[0] > OP_16) then None
    else if s[1] as int + 2 != |s| then None
    else Some((if s[0] == OP_0 then 0 else s[0] as int - (OP_1 as int - 1), s[2..]))
  }

  /** The hash functions of the script layer, left uninterpreted. `contract`
      is the federation tweak calculate_contract(federation script, claim
      script). */
  datatype Crypto = Crypto(
    contract: (Script, Script) -> Script,
    sha256: Script -> Hash256,
    hash160: Script -> Hash160)

  /** GetScriptForDestination(WitnessV0ScriptHash(script)). */
  function P2WSH(c: Crypto, script: Script): (r: Script)
    ensures IsPayToWitnessScriptHash(r)
    ensures WitnessProgram(r) == Some((0, c.sha256(script)))
  {
    [OP_0, 0x20] + c.sha256(script)
  }

  /** GetScriptForDestination(ScriptHash(script)). */
  function P2SH(c: Crypto, script: Script): (r: Script)
    ensures IsPayToScriptHash(r)
    ensures WitnessProgram(r) == None
  {
    [OP_HASH160, 0x14] + c.hash160(script) + [OP_EQUAL]
  }
}
