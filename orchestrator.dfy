/**
 * The two setup flows of the swap. The initiator (`generate_tx1_and_tx2`) picks
 * the secret, locks its coins behind the contract and builds a refund it can
 * use after 48 hours. The responder (`generate_tx3_and_tx4`) builds the mirror
 * image from the published hash only, with a refund usable after 24 hours.
 * The secret's 32 random bytes and the current time are parameters here.
 */
module Orchestrator {
  import opened Outcomes
  import opened Ledger
  import opened ContractScript
  import Funding
  import Refund

  const INITIATOR_LOCK_HOURS: int := 48
  const RESPONDER_LOCK_HOURS: int := 24

  /** What the initiator gets back: `{tx1:, swap_script:, x:, tx2:}`. */
  datatype InitiatorSwap = InitiatorSwap(tx1: TxData, swapScript: Script, x: Bytes, tx2: TxData)

  /** What the responder gets back: `{tx3:, swap_script:, tx4:}`; it holds no secret. */
  datatype ResponderSwap = ResponderSwap(tx3: TxData, swapScript: Script, tx4: TxData)

  /** The hash lock: double SHA-256 of the secret. */
  function HashLock(c: Crypto, x: Bytes): Bytes
  {
    c.sha256(c.sha256(x))
  }

  /** The initiator flow as a value; an error of the funding builder aborts it. */
  function Tx1AndTx2(c: Crypto, key: Key, recipientPub: Bytes, amount: int, prevs: seq<Utxo>,
                     x: Bytes, now: int): Result<InitiatorSwap>
  {
    match Funding.SwapTx(c, key, recipientPub, HashLock(c, x), amount, prevs)
    case Err(e) => Err(e)
    case Ok(f) =>
      Ok(InitiatorSwap(f.tx, f.redeem, x,
                       Refund.PartialRefund(c, key, amount, f.tx, f.redeem, INITIATOR_LOCK_HOURS, now)))
  }

  /** The responder flow as a value. */
  function Tx3AndTx4(c: Crypto, key: Key, recipientPub: Bytes, hashLock: Bytes, amount: int,
                     prevs: seq<Utxo>, now: int): Result<ResponderSwap>
  {
    match Funding.SwapTx(c, key, recipientPub, hashLock, amount, prevs)
    case Err(e) => Err(e)
    case Ok(f) =>
      Ok(ResponderSwap(f.tx, f.redeem,
                       Refund.PartialRefund(c, key, amount, f.tx, f.redeem, RESPONDER_LOCK_HOURS, now)))
  }

  /** Initiator: hash the 32-byte secret `x`, build tx1 and its 48-hour refund tx2. */
  method GenerateTx1AndTx2(c: Crypto, key: Key, recipientPub: Bytes, amount: int, prevs: seq<Utxo>,
                           x: Bytes, now: int) returns (r: Result<InitiatorSwap>)
    requires |x| == 32
    ensures r == Tx1AndTx2(c, key, recipientPub, amount, prevs, x, now)
  {
    var xHash := c.sha256(c.sha256(x));
    var funded := Funding.GenerateSwapTx(c, key, recipientPub, xHash, amount, prevs);
    if funded.Err? {
      return Err(funded.error);
    }
    var tx1, swapScript := funded.value.tx, funded.value.redeem;
    var tx2 := Refund.GenerateRefundTx(c, key, amount, tx1, swapScript, INITIATOR_LOCK_HOURS, now);
    r := Ok(InitiatorSwap(tx1, swapScript, x, tx2));
  }

  /** Responder: build tx3 from the published hash and its 24-hour refund tx4. */
  method GenerateTx3AndTx4(c: Crypto, key: Key, recipientPub: Bytes, hashLock: Bytes, amount: int,
                           prevs: seq<Utxo>, now: int) returns (r: Result<ResponderSwap>)
    ensures r == Tx3AndTx4(c, key, recipientPub, hashLock, amount, prevs, now)
  {
    var funded := Funding.GenerateSwapTx(c, key, recipientPub, hashLock, amount, prevs);
    if funded.Err? {
      return Err(funded.error);
    }
    var tx3, swapScript := funded.value.tx, funded.value.redeem;
    var tx4 := Refund.GenerateRefundTx(c, key, amount, tx3, swapScript, RESPONDER_LOCK_HOURS, now);
    r := Ok(ResponderSwap(tx3, swapScript, tx4));
  }

  // ---------------------------------------------------------------------------
  // Properties of the flows

  /**
   * The initiator flow fails exactly when the funding builder does. On success
   * the returned secret is `x`, the script locks on its double hash with the
   * initiator's key first, and tx2 refunds tx1's contract output (index 0, worth
   * `amount`) less the fee, after 48 hours.
   */
  lemma InitiatorFlow(c: Crypto, key: Key, recipientPub: Bytes, amount: int, prevs: seq<Utxo>,
                      x: Bytes, now: int)
    ensures var r := Tx1AndTx2(c, key, recipientPub, amount, prevs, x, now);
      var f := Funding.SwapTx(c, key, recipientPub, HashLock(c, x), amount, prevs);
      && (r.Err? <==> f.Err?)
      && (r.Err? ==> r.error == f.error)
      && (r.Ok? ==>
            && r.value.x == x
            && ParseContract(r.value.swapScript) == Some(Contract(key.pub, recipientPub, HashLock(c, x)))
            && r.value.tx1.outs[0] == TxOut(amount, ContractLock(c, r.value.swapScript))
            && r.value.tx2.ins[0].prevHash == c.txHash(r.value.tx1)
            && r.value.tx2.ins[0].prevIndex == 0
            && r.value.tx2.outs[0].value == r.value.tx1.outs[0].value - Funding.FEE
            && r.value.tx2.lockTime == now + 48 * 3600)
  {
    Funding.SwapTxOutputs(c, key, recipientPub, HashLock(c, x), amount, prevs);
  }

  /**
   * The responder flow fails exactly when the funding builder does. On success
   * the script locks on the given hash with the responder's key first, and tx4
   * refunds tx3's contract output less the fee, after 24 hours.
   */
  lemma ResponderFlow(c: Crypto, key: Key, recipientPub: Bytes, hashLock: Bytes, amount: int,
                      prevs: seq<Utxo>, now: int)
    ensures var r := Tx3AndTx4(c, key, recipientPub, hashLock, amount, prevs, now);
      var f := Funding.SwapTx(c, key, recipientPub, hashLock, amount, prevs);
      && (r.Err? <==> f.Err?)
      && (r.Err? ==> r.error == f.error)
      && (r.Ok? ==>
            && ParseContract(r.value.swapScript) == Some(Contract(key.pub, recipientPub, hashLock))
            && r.value.tx3.outs[0] == TxOut(amount, ContractLock(c, r.value.swapScript))
            && r.value.tx4.ins[0].prevHash == c.txHash(r.value.tx3)
            && r.value.tx4.ins[0].prevIndex == 0
            && r.value.tx4.outs[0].value == r.value.tx3.outs[0].value - Funding.FEE
            && r.value.tx4.lockTime == now + 24 * 3600)
  {
    Funding.SwapTxOutputs(c, key, recipientPub, hashLock, amount, prevs);
  }

  /**
   * When the responder builds from the initiator's published hash with the keys
   * swapped, the two contracts lock on the same hash, each pays the other party
   * through the hash branch, and the multisig pairs are mirror images: the
   * secret that opens one contract opens the other.
   */
  lemma MirroredContracts(c: Crypto, keyA: Key, keyB: Key, amountA: int, amountB: int,
                          prevsA: seq<Utxo>, prevsB: seq<Utxo>, x: Bytes, nowA: int, nowB: int)
    ensures var ra := Tx1AndTx2(c, keyA, keyB.pub, amountA, prevsA, x, nowA);
      ra.Ok? ==>
        var rb := Tx3AndTx4(c, keyB, keyA.pub, HashLock(c, ra.value.x), amountB, prevsB, nowB);
        rb.Ok? ==>
        && ParseContract(ra.value.swapScript) == Some(Contract(keyA.pub, keyB.pub, HashLock(c, x)))
        && ParseContract(rb.value.swapScript) == Some(Contract(keyB.pub, keyA.pub, HashLock(c, x)))
  {
    var ra := Tx1AndTx2(c, keyA, keyB.pub, amountA, prevsA, x, nowA);
    if ra.Ok? {
      InitiatorFlow(c, keyA, keyB.pub, amountA, prevsA, x, nowA);
      ResponderFlow(c, keyB, keyA.pub, HashLock(c, x), amountB, prevsB, nowB);
    }
  }

  /**
   * The responder's refund matures before the initiator's whenever the responder
   * sets up less than 24 hours after the initiator.
   */
  lemma ResponderRefundMaturesFirst(c: Crypto, keyA: Key, keyB: Key, amountA: int, amountB: int,
                                    prevsA: seq<Utxo>, prevsB: seq<Utxo>, x: Bytes, h: Bytes,
                                    nowA: int, nowB: int)
    requires nowB < nowA + 24 * 3600
    ensures var ra := Tx1AndTx2(c, keyA, keyB.pub, amountA, prevsA, x, nowA);
      var rb := Tx3AndTx4(c, keyB, keyA.pub, h, amountB, prevsB, nowB);
      ra.Ok? && rb.Ok? ==> rb.value.tx4.lockTime < ra.value.tx2.lockTime
  {
    InitiatorFlow(c, keyA, keyB.pub, amountA, prevsA, x, nowA);
    ResponderFlow(c, keyB, keyA.pub, h, amountB, prevsB, nowB);
  }

  /**
   * Once the counterparty cosigns a refund built by either flow, its scriptSig is
   * `0 <sig1> <sig2> 1`: sig1 by the creator, whose key is the first multisig key
   * of the redeem script, sig2 by the counterparty, whose key is the second, both
   * over one digest, and the selector 1 picks the OP_IF (multisig) branch.
   */
  lemma CosignedRefundFitsMultisig(c: Crypto, creator: Key, counterparty: Key, amount: int,
                                   prevs: seq<Utxo>, hashLock: Bytes, hours: int, now: int)
    ensures var f := Funding.SwapTx(c, creator, counterparty.pub, hashLock, amount, prevs);
      f.Ok? ==>
        var p := Refund.PartialRefund(c, creator, amount, f.value.tx, f.value.redeem, hours, now);
        var fin := Refund.Cosigned(c, counterparty, p, f.value.redeem);
        var digest := Refund.RefundDigest(c, fin, f.value.redeem);
        && f.value.redeem[0] == OpIf
        && f.value.redeem[1..5] == [Num(2), Push(creator.pub), Push(counterparty.pub), Num(2)]
        && fin.ins[0].scriptSig
             == [Num(0), Push(c.sign(creator.priv, digest)), Push(c.sign(counterparty.priv, digest)), Num(1)]
  {
    var f := Funding.SwapTx(c, creator, counterparty.pub, hashLock, amount, prevs);
    if f.Ok? {
      Funding.SwapTxRedeem(c, creator, counterparty.pub, hashLock, amount, prevs);
      var tx, redeem := f.value.tx, f.value.redeem;
      assert redeem == RedeemScript(creator.pub, counterparty.pub, hashLock);
      assert redeem[1..5] == [Num(2), Push(creator.pub), Push(counterparty.pub), Num(2)];
      Refund.CosignedRefund(c, creator, counterparty, amount, tx, redeem, hours, now);
    }
  }
}
