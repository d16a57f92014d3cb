/**
 * The funding transaction builder (`generate_swap_tx`): greedy selection of
 * previous outputs, change, the contract output, and signing of every input.
 *
 * Amounts are integers in satoshi. The caller's `amount` is used unscaled for
 * the selection threshold and for the contract output, and scaled by 10^8 for
 * the change, exactly as the builder does.
 */
module Funding {
  import opened Outcomes
  import opened Ledger
  import opened ContractScript

  /** The fixed fee, `(10**8) * 0.0001`. */
  const FEE: int := 10000
  /** The scale applied to `amount` before the change is computed, `10**8`. */
  const COIN: int := 100_000_000

  /** What the builder returns: the signed funding transaction and the redeem script. */
  datatype Funded = Funded(tx: TxData, redeem: Script)

  /** Sum of the values of a run of previous outputs. */
  function Total(s: seq<Utxo>): int
  {
    if s == [] then 0 else Total(s[..|s| - 1]) + s[|s| - 1].value
  }

  lemma TotalStep(s: seq<Utxo>, i: nat)
    requires i < |s|
    ensures Total(s[..i + 1]) == Total(s[..i]) + s[i].value
  {
    assert s[..i + 1][..i] == s[..i];
  }

  /**
   * How many previous outputs the greedy pass takes when it has taken `i` of
   * them worth `total`: it adds the next one and stops once the running total
   * reaches `target`, or when the list runs out.
   */
  function SelectFrom(prevs: seq<Utxo>, target: int, i: nat, total: int): (n: nat)
    requires i <= |prevs|
    ensures i <= n <= |prevs|
    decreases |prevs| - i
  {
    if i == |prevs| then i
    else if total + prevs[i].value >= target then i + 1
    else SelectFrom(prevs, target, i + 1, total + prevs[i].value)
  }

  /** Number of previous outputs the builder spends. */
  function SelectCount(prevs: seq<Utxo>, target: int): (n: nat)
    ensures n <= |prevs|
  {
    SelectFrom(prevs, target, 0, 0)
  }

  lemma {:induction false} SelectFromReach(prevs: seq<Utxo>, target: int, i: nat, total: int)
    requires i <= |prevs| && total == Total(prevs[..i])
    ensures var n := SelectFrom(prevs, target, i, total);
      (i < |prevs| ==> i < n)
      && (forall k :: i < k < n ==> Total(prevs[..k]) < target)
      && (n < |prevs| ==> Total(prevs[..n]) >= target)
    decreases |prevs| - i
  {
    if i < |prevs| {
      TotalStep(prevs, i);
      if total + prevs[i].value < target {
        SelectFromReach(prevs, target, i + 1, total + prevs[i].value);
      }
    }
  }

  /**
   * The selected outputs are the shortest non-empty prefix whose total reaches
   * the target, or all of them when no prefix does.
   */
  lemma SelectionIsFirstReach(prevs: seq<Utxo>, target: int)
    ensures var n := SelectCount(prevs, target);
      (prevs != [] ==> 1 <= n)
      && (forall k :: 0 < k < n ==> Total(prevs[..k]) < target)
      && (n < |prevs| ==> Total(prevs[..n]) >= target)
  {
    assert prevs[..0] == [];
    SelectFromReach(prevs, target, 0, 0);
  }

  /** Inputs spending each of `s`, in order. */
  function Spends(s: seq<Utxo>): (ins: seq<TxIn>)
  {
    seq(|s|, j requires 0 <= j < |s| => Spend(s[j]))
  }

  /** The change left over: total selected minus the scaled amount and the fee. */
  function Change(selected: seq<Utxo>, amount: int): int
  {
    Total(selected) - amount * COIN - FEE
  }

  /** Output 0 pays `amount` to the contract; output 1 pays positive change to the sender. */
  function FundingOutputs(c: Crypto, key: Key, redeem: Script, amount: int, change: int): seq<TxOut>
  {
    [TxOut(amount, ContractLock(c, redeem))]
    + (if change > 0 then [TxOut(change, AddressScript(c.hash160(key.pub)))] else [])
  }

  /** The transaction as it stands before any input is signed. */
  function FundingSkeleton(c: Crypto, key: Key, recipientPub: Bytes, hashLock: Bytes,
                           amount: int, prevs: seq<Utxo>): TxData
  {
    var n := SelectCount(prevs, amount + FEE);
    TxData(Spends(prevs[..n]),
           FundingOutputs(c, key, RedeemScript(key.pub, recipientPub, hashLock), amount,
                          Change(prevs[..n], amount)),
           0)
  }

  /** The signature on input `j`: over the digest of `d` for `prev`'s locking script. */
  function InputSig(c: Crypto, key: Key, d: TxData, j: nat, prev: Utxo): Bytes
  {
    c.sign(key.priv, c.sighash(Unsigned(d), j, prev.pkScript))
  }

  /** `d` with inputs `0 .. k-1` given the scriptSig `<sig> <pubkey>`. */
  function SignedUpTo(c: Crypto, key: Key, d: TxData, prevs: seq<Utxo>, k: nat): (r: TxData)
    requires k <= |d.ins| <= |prevs|
  {
    d.(ins := seq(|d.ins|, j requires 0 <= j < |d.ins| =>
         if j < k then d.ins[j].(scriptSig := SigPubScript(InputSig(c, key, d, j, prevs[j]), key.pub))
         else d.ins[j]))
  }

  /** Self-verification succeeded for inputs `0 .. k-1`, each checked right after it was signed. */
  predicate VerifiedUpTo(c: Crypto, key: Key, d: TxData, prevs: seq<Utxo>, k: nat)
    requires k <= |d.ins| <= |prevs|
  {
    forall j :: 0 <= j < k ==> c.verifyInput(SignedUpTo(c, key, d, prevs, j + 1), j, prevs[j])
  }

  /** Signing never touches anything but scriptSigs. */
  lemma SignedUpToKeepsUnsigned(c: Crypto, key: Key, d: TxData, prevs: seq<Utxo>, k: nat)
    requires k <= |d.ins| <= |prevs|
    ensures Unsigned(SignedUpTo(c, key, d, prevs, k)) == Unsigned(d)
  {
    var r := SignedUpTo(c, key, d, prevs, k);
    assert forall j :: 0 <= j < |d.ins| ==> r.ins[j].(scriptSig := []) == d.ins[j].(scriptSig := []);
    UnsignedIgnoresScriptSigs(r, d);
  }

  /** Signing input `k` of a transaction signed up to `k` gives the one signed up to `k + 1`. */
  lemma SignStep(c: Crypto, key: Key, d: TxData, prevs: seq<Utxo>, k: nat)
    requires k < |d.ins| <= |prevs|
    ensures var s := SignedUpTo(c, key, d, prevs, k);
      SignedUpTo(c, key, d, prevs, k + 1)
        == s.(ins := s.ins[k := s.ins[k].(scriptSig := SigPubScript(InputSig(c, key, d, k, prevs[k]), key.pub))])
  {
  }

  /** The whole of `generate_swap_tx` as a value: the transaction and redeem script, or the error it raises. */
  function SwapTx(c: Crypto, key: Key, recipientPub: Bytes, hashLock: Bytes,
                  amount: int, prevs: seq<Utxo>): Result<Funded>
  {
    var n := SelectCount(prevs, amount + FEE);
    var d := FundingSkeleton(c, key, recipientPub, hashLock, amount, prevs);
    if Change(prevs[..n], amount) < 0 then Err(InsufficientFunds)
    else if !VerifiedUpTo(c, key, d, prevs, n) then Err(SignatureFailure)
    else Ok(Funded(SignedUpTo(c, key, d, prevs, n), RedeemScript(key.pub, recipientPub, hashLock)))
  }

  /**
   * The selection loop: walks `prevs` in order, adding an input for each and
   * stopping once the running total reaches `target`.
   */
  method AddInputs(tx: Tx, prevs: seq<Utxo>, target: int) returns (total: int)
    requires tx.ins == []
    modifies tx
    ensures tx.ins == Spends(prevs[..SelectCount(prevs, target)])
    ensures total == Total(prevs[..SelectCount(prevs, target)])
    ensures tx.outs == old(tx.outs) && tx.lockTime == old(tx.lockTime)
  {
    ghost var n := SelectCount(prevs, target);
    total := 0;
    var i := 0;
    while i < |prevs|
      invariant i <= |prevs|
      invariant total == Total(prevs[..i])
      invariant SelectFrom(prevs, target, i, total) == n
      invariant |tx.ins| == i && forall j :: 0 <= j < i ==> tx.ins[j] == Spend(prevs[j])
      invariant tx.outs == old(tx.outs) && tx.lockTime == old(tx.lockTime)
    {
      TotalStep(prevs, i);
      total := total + prevs[i].value;
      tx.AddIn(Spend(prevs[i]));
      i := i + 1;
      if total >= target {
        break;
      }
    }
    assert i == n;
  }

  /**
   * The signing loop: gives input `j` the scriptSig `<sig> <pubkey>` for
   * `prevs[j]` and self-verifies it before moving on; `ok` is false as soon as
   * one verification fails.
   */
  method SignInputs(c: Crypto, key: Key, tx: Tx, prevs: seq<Utxo>) returns (ok: bool)
    requires |tx.ins| <= |prevs|
    modifies tx
    ensures ok == VerifiedUpTo(c, key, old(tx.Payload()), prevs, |old(tx.ins)|)
    ensures ok ==> tx.Payload() == SignedUpTo(c, key, old(tx.Payload()), prevs, |old(tx.ins)|)
  {
    ghost var d := tx.Payload();
    var j := 0;
    while j < |tx.ins|
      invariant j <= |tx.ins| == |d.ins|
      invariant tx.Payload() == SignedUpTo(c, key, d, prevs, j)
      invariant VerifiedUpTo(c, key, d, prevs, j)
    {
      SignedUpToKeepsUnsigned(c, key, d, prevs, j);
      SignStep(c, key, d, prevs, j);
      var prev := prevs[j];
      var sighash := c.sighash(Unsigned(tx.Payload()), j, prev.pkScript);
      tx.SetScriptSig(j, SigPubScript(c.sign(key.priv, sighash), key.pub));
      if !c.verifyInput(tx.Payload(), j, prev) {
        assert !c.verifyInput(SignedUpTo(c, key, d, prevs, j + 1), j, prevs[j]);
        return false;
      }
      j := j + 1;
    }
    ok := true;
  }

  /**
   * Builds, signs and self-verifies the funding transaction, on a fresh
   * transaction object filled in the order the source fills it.
   */
  method GenerateSwapTx(c: Crypto, key: Key, recipientPub: Bytes, hashLock: Bytes,
                        amount: int, prevs: seq<Utxo>) returns (r: Result<Funded>)
    ensures r == SwapTx(c, key, recipientPub, hashLock, amount, prevs)
  {
    var tx := new Tx();
    var redeem := RedeemScript(key.pub, recipientPub, hashLock);
    tx.AddOut(TxOut(amount, ContractLock(c, redeem)));

    var total := AddInputs(tx, prevs, amount + FEE);
    var scaled := amount * COIN;
    var change := total - scaled - FEE;
    if change < 0 {
      return Err(InsufficientFunds);
    }
    if change > 0 {
      tx.AddOut(TxOut(change, AddressScript(c.hash160(key.pub))));
    }

    assert tx.Payload() == FundingSkeleton(c, key, recipientPub, hashLock, amount, prevs);
    var ok := SignInputs(c, key, tx, prevs);
    if !ok {
      return Err(SignatureFailure);
    }
    r := Ok(Funded(tx.Payload(), redeem));
  }

  // ---------------------------------------------------------------------------
  // Properties of the builder

  /**
   * The inputs spend exactly the selected prefix of the previous outputs, in the
   * caller's order; the prefix is the greedy one of `SelectionIsFirstReach`.
   */
  lemma SwapTxSpendsPrefix(c: Crypto, key: Key, recipientPub: Bytes, hashLock: Bytes,
                           amount: int, prevs: seq<Utxo>)
    ensures var r := SwapTx(c, key, recipientPub, hashLock, amount, prevs);
      r.Ok? ==>
        |r.value.tx.ins| == SelectCount(prevs, amount + FEE)
        && forall j :: 0 <= j < |r.value.tx.ins| ==>
             r.value.tx.ins[j].(scriptSig := []) == Spend(prevs[j])
  {
  }

  /** On success the second component is the redeem script of the sender, recipient and hash lock. */
  lemma SwapTxRedeem(c: Crypto, key: Key, recipientPub: Bytes, hashLock: Bytes,
                     amount: int, prevs: seq<Utxo>)
    ensures var r := SwapTx(c, key, recipientPub, hashLock, amount, prevs);
      r.Ok? ==> r.value.redeem == RedeemScript(key.pub, recipientPub, hashLock)
  {
  }

  /** The builder raises "insufficient funds" exactly when the change is negative. */
  lemma SwapTxInsufficientFunds(c: Crypto, key: Key, recipientPub: Bytes, hashLock: Bytes,
                                amount: int, prevs: seq<Utxo>)
    ensures var n := SelectCount(prevs, amount + FEE);
      var raised := SwapTx(c, key, recipientPub, hashLock, amount, prevs) == Err(InsufficientFunds);
      raised <==> Total(prevs[..n]) - amount * COIN - FEE < 0
  {
  }

  /** A prefix of the previous outputs is worth no more than the whole list. */
  lemma {:induction false} TotalPrefixLe(s: seq<Utxo>, k: nat)
    requires k <= |s|
    ensures Total(s[..k]) <= Total(s)
    decreases |s| - k
  {
    if k < |s| {
      TotalStep(s, k);
      TotalPrefixLe(s, k + 1);
      assert s[..|s|] == s;
    } else {
      assert s[..k] == s;
    }
  }

  /**
   * When the whole list of previous outputs cannot pay `amount*10^8 + FEE`, the
   * builder raises "insufficient funds" and returns no transaction.
   */
  lemma WholeListShortRaises(c: Crypto, key: Key, recipientPub: Bytes, hashLock: Bytes,
                             amount: int, prevs: seq<Utxo>)
    requires Total(prevs) < amount * COIN + FEE
    ensures SwapTx(c, key, recipientPub, hashLock, amount, prevs) == Err(InsufficientFunds)
  {
    TotalPrefixLe(prevs, SelectCount(prevs, amount + FEE));
  }

  /** With no previous outputs and a non-negative amount the builder always raises. */
  lemma {:induction false} NoPreviousOutputsRaise(c: Crypto, key: Key, recipientPub: Bytes, hashLock: Bytes,
                                                  amount: int)
    requires amount >= 0
    ensures SwapTx(c, key, recipientPub, hashLock, amount, []) == Err(InsufficientFunds)
  {
    assert SelectCount([], amount + FEE) == 0;
    assert Total([]) == 0;
  }

  /**
   * One or two outputs: output 0 pays the unscaled `amount` to the P2SH script
   * of the redeem script; output 1, present exactly when the change is positive,
   * pays the change to the sender's address.
   */
  lemma SwapTxOutputs(c: Crypto, key: Key, recipientPub: Bytes, hashLock: Bytes,
                      amount: int, prevs: seq<Utxo>)
    ensures var r := SwapTx(c, key, recipientPub, hashLock, amount, prevs);
      var n := SelectCount(prevs, amount + FEE);
      var change := Total(prevs[..n]) - amount * COIN - FEE;
      r.Ok? ==>
        && r.value.redeem == RedeemScript(key.pub, recipientPub, hashLock)
        && 1 <= |r.value.tx.outs| <= 2
        && r.value.tx.outs[0] == TxOut(amount, P2shScript(c.hash160(c.rawScript(r.value.redeem))))
        && (|r.value.tx.outs| == 2 <==> change > 0)
        && (|r.value.tx.outs| == 2 ==>
              r.value.tx.outs[1] == TxOut(change, AddressScript(c.hash160(key.pub))))
  {
  }

  /**
   * Every input carries `<sig> <pubkey>`, the signature taken with the sender's
   * key over the transaction's digest for the matching previous output's
   * locking script.
   */
  lemma SwapTxSignatures(c: Crypto, key: Key, recipientPub: Bytes, hashLock: Bytes,
                         amount: int, prevs: seq<Utxo>)
    ensures var r := SwapTx(c, key, recipientPub, hashLock, amount, prevs);
      r.Ok? ==>
        forall j :: 0 <= j < |r.value.tx.ins| ==>
          j < |prevs| &&
          r.value.tx.ins[j].scriptSig
            == SigPubScript(c.sign(key.priv, c.sighash(Unsigned(r.value.tx), j, prevs[j].pkScript)), key.pub)
  {
    var r := SwapTx(c, key, recipientPub, hashLock, amount, prevs);
    if r.Ok? {
      var n := SelectCount(prevs, amount + FEE);
      var d := FundingSkeleton(c, key, recipientPub, hashLock, amount, prevs);
      var t := SignedUpTo(c, key, d, prevs, n);
      assert r.value.tx == t;
      SignedUpToKeepsUnsigned(c, key, d, prevs, n);
      forall j | 0 <= j < |t.ins|
        ensures j < |prevs|
        ensures t.ins[j].scriptSig
                  == SigPubScript(c.sign(key.priv, c.sighash(Unsigned(t), j, prevs[j].pkScript)), key.pub)
      {
      }
    }
  }

  /**
   * With enough funds, the builder raises "signature failure" exactly when some
   * input's self-verification fails, and otherwise returns the transaction.
   */
  lemma SwapTxSignatureFailure(c: Crypto, key: Key, recipientPub: Bytes, hashLock: Bytes,
                               amount: int, prevs: seq<Utxo>)
    ensures var n := SelectCount(prevs, amount + FEE);
      var d := FundingSkeleton(c, key, recipientPub, hashLock, amount, prevs);
      Change(prevs[..n], amount) >= 0 ==>
        ((SwapTx(c, key, recipientPub, hashLock, amount, prevs) == Err(SignatureFailure))
           <==> exists j :: 0 <= j < n && !c.verifyInput(SignedUpTo(c, key, d, prevs, j + 1), j, prevs[j]))
  {
  }

  /**
   * The selection threshold is the unscaled `amount + FEE` while the change uses
   * `amount * 10^8`: with outputs worth 50000 and 2 * 10^8 and an amount of 1,
   * the first output already meets the threshold, the second is never taken,
   * and the call raises although the two together would have paid for it.
   */
  lemma {:induction false} UnscaledThresholdStopsEarly(c: Crypto, key: Key, recipientPub: Bytes,
                                                       hashLock: Bytes, h: Bytes, s: Script)
    ensures var prevs := [Utxo(h, 0, 50000, s), Utxo(h, 1, 200_000_000, s)];
      Total(prevs) >= 1 * COIN + FEE
      && SelectCount(prevs, 1 + FEE) == 1
      && SwapTx(c, key, recipientPub, hashLock, 1, prevs) == Err(InsufficientFunds)
  {
    var prevs := [Utxo(h, 0, 50000, s), Utxo(h, 1, 200_000_000, s)];
    assert prevs[..1] == [prevs[0]];
    assert prevs[..1][..0] == [];
    assert prevs[..|prevs| - 1] == prevs[..1];
    assert Total(prevs[..1]) == 50000;
    assert Total(prevs) == 200_050_000;
    assert SelectCount(prevs, 1 + FEE) == 1;
    assert Change(prevs[..1], 1) < 0;
  }
}
