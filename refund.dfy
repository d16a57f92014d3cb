/**
 * The timelocked refund (`generate_refund_tx`) and the counterparty's cosigning
 * of it (`sign_refund_tx`). The refund spends the contract output of a funding
 * transaction back to its creator. The creator's signature alone makes it a
 * partial spend `0 <sig1>` of the multisig branch; the cosigner appends
 * `<sig2> 1`, the second signature and the selector of that branch.
 */
module Refund {
  import opened Ledger
  import Funding

  /** `hours*60*60` seconds after `now`: the refund's absolute lock time. */
  function LockTime(now: int, hours: int): int
  {
    now + hours * 60 * 60
  }

  /** The refund before it is signed. */
  function RefundSkeleton(c: Crypto, key: Key, amount: int, swapTx: TxData, hours: int, now: int): TxData
  {
    TxData([TxIn(c.txHash(swapTx), 0, [], 0)],
           [TxOut(amount - Funding.FEE, AddressScript(c.hash160(key.pub)))],
           LockTime(now, hours))
  }

  /** The digest both parties sign: input 0 of `d` against the redeem script. */
  function RefundDigest(c: Crypto, d: TxData, swapScript: Script): Bytes
  {
    c.sighash(Unsigned(d), 0, swapScript)
  }

  /**
   * The partially signed refund: one input spending output 0 of the funding
   * transaction with sequence 0, one output of `amount - FEE` to the creator, the
   * lock time `hours` after `now`, and the scriptSig `0 <sig1>` where sig1 is the
   * creator's signature over this very transaction's digest for the redeem script.
   */
  function PartialRefund(c: Crypto, key: Key, amount: int, swapTx: TxData, swapScript: Script,
                         hours: int, now: int): (r: TxData)
    ensures |r.ins| == 1 && r.ins[0].prevHash == c.txHash(swapTx)
    ensures r.ins[0].prevIndex == 0 && r.ins[0].sequence == 0
    ensures r.outs == [TxOut(amount - Funding.FEE, AddressScript(c.hash160(key.pub)))]
    ensures r.lockTime == now + hours * 3600
    ensures r.ins[0].scriptSig == [Num(0), Push(c.sign(key.priv, RefundDigest(c, r, swapScript)))]
  {
    var d := RefundSkeleton(c, key, amount, swapTx, hours, now);
    var r := d.(ins := [d.ins[0].(scriptSig := [Num(0), Push(c.sign(key.priv, RefundDigest(c, d, swapScript)))])]);
    UnsignedIgnoresScriptSigs(r, d);
    r
  }

  /** Builds the refund on a fresh transaction object and signs it once. */
  method GenerateRefundTx(c: Crypto, key: Key, amount: int, swapTx: TxData, swapScript: Script,
                          hours: int, now: int) returns (r: TxData)
    ensures r == PartialRefund(c, key, amount, swapTx, swapScript, hours, now)
  {
    var tx := new Tx();
    tx.AddIn(TxIn(c.txHash(swapTx), 0, [], 0));
    tx.AddOut(TxOut(amount - Funding.FEE, AddressScript(c.hash160(key.pub))));
    tx.SetLockTime(LockTime(now, hours));
    assert tx.Payload() == RefundSkeleton(c, key, amount, swapTx, hours, now);

    var sighash := c.sighash(Unsigned(tx.Payload()), 0, swapScript);
    tx.SetScriptSig(0, [Num(0), Push(c.sign(key.priv, sighash))]);
    r := tx.Payload();
  }

  /**
   * The refund after the second party's signature: the scriptSig of input 0 is
   * the previous one followed by `<sig2> 1`, sig2 taken over the same digest;
   * nothing else changes.
   */
  function Cosigned(c: Crypto, key: Key, d: TxData, swapScript: Script): (r: TxData)
    requires |d.ins| >= 1
    ensures SameButScriptSigs(r, d)
    ensures forall j :: 1 <= j < |d.ins| ==> r.ins[j] == d.ins[j]
    ensures r.ins[0].scriptSig
              == d.ins[0].scriptSig + [Push(c.sign(key.priv, RefundDigest(c, r, swapScript))), Num(1)]
  {
    var sig := c.sign(key.priv, RefundDigest(c, d, swapScript));
    var r := d.(ins := d.ins[0 := d.ins[0].(scriptSig := d.ins[0].scriptSig + [Push(sig), Num(1)])]);
    assert forall j :: 0 <= j < |d.ins| ==> r.ins[j].(scriptSig := []) == d.ins[j].(scriptSig := []);
    UnsignedIgnoresScriptSigs(r, d);
    r
  }

  /**
   * Cosigns the caller's refund object in place and returns its content; the
   * caller's object is changed as well.
   */
  method SignRefundTx(c: Crypto, key: Key, refundTx: Tx, swapScript: Script) returns (r: TxData)
    requires |refundTx.ins| >= 1
    modifies refundTx
    ensures refundTx.Payload() == Cosigned(c, key, old(refundTx.Payload()), swapScript)
    ensures r == refundTx.Payload()
  {
    var sighash := c.sighash(Unsigned(refundTx.Payload()), 0, swapScript);
    var script := refundTx.ins[0].scriptSig;
    refundTx.SetScriptSig(0, script + [Push(c.sign(key.priv, sighash)), Num(1)]);
    r := refundTx.Payload();
  }

  /**
   * Cosigning a partial refund completes it: its scriptSig becomes
   * `0 <sig1> <sig2> 1`, both signatures over one digest of the final
   * transaction, and inputs, outputs and lock time are those of the partial one.
   */
  lemma CosignedRefund(c: Crypto, creator: Key, cosigner: Key, amount: int, swapTx: TxData,
                       swapScript: Script, hours: int, now: int)
    ensures var p := PartialRefund(c, creator, amount, swapTx, swapScript, hours, now);
      var f := Cosigned(c, cosigner, p, swapScript);
      var digest := RefundDigest(c, f, swapScript);
      && Unsigned(f) == Unsigned(p)
      && f.outs == p.outs && f.lockTime == p.lockTime && |f.ins| == 1
      && f.ins[0].scriptSig
           == [Num(0), Push(c.sign(creator.priv, digest)), Push(c.sign(cosigner.priv, digest)), Num(1)]
  {
    var p := PartialRefund(c, creator, amount, swapTx, swapScript, hours, now);
    var f := Cosigned(c, cosigner, p, swapScript);
    UnsignedIgnoresScriptSigs(f, p);
  }
}
