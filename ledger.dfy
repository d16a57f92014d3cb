/**
 * The part of the Bitcoin library that the swap builder relies on, reduced to
 * what the builder can observe: scripts as token sequences, transactions as
 * values and as a mutable object, and hashing, signing and signature checking
 * as an opaque record of functions supplied by the caller.
 */
module Ledger {

  type Bytes = seq<bv8>

  /** Script tokens: the opcodes the builder writes, small-number opcodes and data pushes. */
  datatype Token =
    | OpIf | OpElse | OpEndIf
    | OpDup | OpEqual | OpEqualVerify
    | OpHash160 | OpHash256
    | OpCheckSig | OpCheckSigVerify | OpCheckMultisigVerify
    | Num(n: int)        // OP_0 .. OP_16, written "0", "1", "2" in script text
    | Push(data: Bytes)  // a data push; hex in script text, raw bytes here

  type Script = seq<Token>

  /**
   * A previous output as the caller names it (`{tx:, index:}`), already resolved:
   * the hash of the funding transaction, the output index, and that output's
   * value and locking script.
   */
  datatype Utxo = Utxo(txHash: Bytes, index: nat, value: nat, pkScript: Script)

  /** A decoded private key and its public key. */
  datatype Key = Key(priv: Bytes, pub: Bytes)

  datatype TxIn = TxIn(prevHash: Bytes, prevIndex: nat, scriptSig: Script, sequence: nat)
  datatype TxOut = TxOut(value: int, pkScript: Script)

  /** The serialised content of a transaction (`to_payload`). */
  datatype TxData = TxData(ins: seq<TxIn>, outs: seq<TxOut>, lockTime: int)

  /**
   * The library routines the builder calls without looking inside them. Each is
   * an arbitrary total function, so nothing proved here depends on how they work.
   */
  datatype Crypto = Crypto(
    sha256: Bytes -> Bytes,                   // Digest::SHA256.digest
    hash160: Bytes -> Bytes,                  // Bitcoin.hash160
    rawScript: Script -> Bytes,               // Script#raw
    txHash: TxData -> Bytes,                  // Tx#binary_hash
    sighash: (TxData, nat, Script) -> Bytes,  // Tx#signature_hash_for_input
    sign: (Bytes, Bytes) -> Bytes,            // Key#sign(digest), by private key
    verifyInput: (TxData, nat, Utxo) -> bool  // Tx#verify_input_signature
  )

  /** The sequence number the library gives an input built without one. */
  const DEFAULT_SEQUENCE: nat := 0xFFFF_FFFF

  /** Pay-to-script-hash locking script of BIP 16: OP_HASH160 <hash> OP_EQUAL. */
  function P2shScript(scriptHash: Bytes): Script
  {
    [OpHash160, Push(scriptHash), OpEqual]
  }

  /** Pay-to-public-key-hash locking script for an address. */
  function AddressScript(pubKeyHash: Bytes): Script
  {
    [OpDup, OpHash160, Push(pubKeyHash), OpEqualVerify, OpCheckSig]
  }

  /** The scriptSig `<sig> <pubkey>` of a pay-to-public-key-hash spend. */
  function SigPubScript(sig: Bytes, pub: Bytes): Script
  {
    [Push(sig), Push(pub)]
  }

  /** An input spending `u`, with an empty scriptSig and the default sequence. */
  function Spend(u: Utxo): TxIn
  {
    TxIn(u.txHash, u.index, [], DEFAULT_SEQUENCE)
  }

  /**
   * The transaction with every scriptSig emptied. A legacy SIGHASH_ALL digest
   * replaces every input's scriptSig before hashing, so the model hands the
   * sighash routine this view: the digest cannot depend on scriptSigs.
   */
  function Unsigned(d: TxData): (u: TxData)
    ensures SameButScriptSigs(u, d)
    ensures forall j :: 0 <= j < |u.ins| ==> u.ins[j].scriptSig == []
  {
    d.(ins := seq(|d.ins|, j requires 0 <= j < |d.ins| => d.ins[j].(scriptSig := [])))
  }

  /** Two transactions that differ at most in their scriptSigs. */
  predicate SameButScriptSigs(a: TxData, b: TxData)
  {
    |a.ins| == |b.ins| && a.outs == b.outs && a.lockTime == b.lockTime &&
    forall j :: 0 <= j < |a.ins| ==> a.ins[j].(scriptSig := []) == b.ins[j].(scriptSig := [])
  }

  /** Changing only scriptSigs leaves the signed view, and so every digest, unchanged. */
  lemma UnsignedIgnoresScriptSigs(a: TxData, b: TxData)
    ensures SameButScriptSigs(a, b) <==> Unsigned(a) == Unsigned(b)
  {
    if Unsigned(a) == Unsigned(b) {
      forall j | 0 <= j < |a.ins|
        ensures a.ins[j].(scriptSig := []) == b.ins[j].(scriptSig := [])
      {
        assert Unsigned(a).ins[j] == Unsigned(b).ins[j];
      }
    }
  }

  /**
   * A transaction object (`Bitcoin::P::Tx`) that the builders fill in step by
   * step. `Payload` is its serialised content.
   */
  class Tx {
    var ins: seq<TxIn>
    var outs: seq<TxOut>
    var lockTime: int

    /** `Tx.new`: no inputs, no outputs, lock time 0. */
    constructor ()
      ensures ins == [] && outs == [] && lockTime == 0
    {
      ins, outs, lockTime := [], [], 0;
    }

    function Payload(): TxData
      reads this
    {
      TxData(ins, outs, lockTime)
    }

    /** `add_in` */
    method AddIn(i: TxIn)
      modifies this
      ensures ins == old(ins) + [i] && outs == old(outs) && lockTime == old(lockTime)
    {
      ins := ins + [i];
    }

    /** `add_out` */
    method AddOut(o: TxOut)
      modifies this
      ensures outs == old(outs) + [o] && ins == old(ins) && lockTime == old(lockTime)
    {
      outs := outs + [o];
    }

    /** `in[index].script_sig = s` */
    method SetScriptSig(index: nat, s: Script)
      requires index < |ins|
      modifies this
      ensures ins == old(ins)[index := old(ins)[index].(scriptSig := s)]
      ensures outs == old(outs) && lockTime == old(lockTime)
    {
      ins := ins[index := ins[index].(scriptSig := s)];
    }

    /** `lock_time = t` */
    method SetLockTime(t: int)
      modifies this
      ensures lockTime == t && ins == old(ins) && outs == old(outs)
    {
      lockTime := t;
    }
  }
}
