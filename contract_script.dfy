/**
 * The hash-and-timelock redeem script and its pay-to-script-hash wrapper.
 * The script has two branches: a 2-of-2 multisig of sender and recipient, and
 * a recipient signature plus the preimage of a double-SHA-256 hash lock.
 */
module ContractScript {
  import opened Outcomes
  import opened Ledger

  /** The parameters a redeem script is built from. */
  datatype Contract = Contract(senderPub: Bytes, recipientPub: Bytes, hashLock: Bytes)

  /**
   * Reads a redeem script back into its parameters: succeeds exactly on scripts of
   * the form `OP_IF 2 A B 2 OP_CHECKMULTISIGVERIFY OP_ELSE B OP_CHECKSIGVERIFY
   * OP_HASH256 H OP_EQUALVERIFY`, where the key of the hash branch is the second
   * multisig key.
   */
  function ParseContract(s: Script): Option<Contract>
  {
    if |s| == 12
       && s[0] == OpIf && s[1] == Num(2) && s[2].Push? && s[3].Push?
       && s[4] == Num(2) && s[5] == OpCheckMultisigVerify
       && s[6] == OpElse && s[7] == s[3] && s[8] == OpCheckSigVerify
       && s[9] == OpHash256 && s[10].Push? && s[11] == OpEqualVerify
    then Some(Contract(s[2].data, s[3].data, s[10].data))
    else None
  }

  /**
   * The redeem script built by the funding builder. As written it opens an
   * OP_IF/OP_ELSE conditional and never closes it: there is no OP_ENDIF.
   */
  function RedeemScript(senderPub: Bytes, recipientPub: Bytes, hashLock: Bytes): (s: Script)
    ensures ParseContract(s) == Some(Contract(senderPub, recipientPub, hashLock))
    ensures OpIf in s && OpElse in s && OpEndIf !in s
  {
    [OpIf, Num(2), Push(senderPub), Push(recipientPub), Num(2), OpCheckMultisigVerify,
     OpElse, Push(recipientPub), OpCheckSigVerify, OpHash256, Push(hashLock), OpEqualVerify]
  }

  /** Every script the parser accepts is the redeem script of the parameters it reads. */
  lemma ParseContractSound(s: Script)
    requires ParseContract(s).Some?
    ensures var k := ParseContract(s).value;
      s == RedeemScript(k.senderPub, k.recipientPub, k.hashLock)
  {
    var k := ParseContract(s).value;
    var t := RedeemScript(k.senderPub, k.recipientPub, k.hashLock);
    assert forall j :: 0 <= j < 12 ==> s[j] == t[j];
  }

  /** Distinct parameters give distinct token scripts: the script fixes both keys and the hash lock. */
  lemma {:induction false} RedeemScriptInjective(a: Bytes, b: Bytes, h: Bytes, a': Bytes, b': Bytes, h': Bytes)
    requires RedeemScript(a, b, h) == RedeemScript(a', b', h')
    ensures a == a' && b == b' && h == h'
  {
    assert ParseContract(RedeemScript(a, b, h)) == ParseContract(RedeemScript(a', b', h'));
  }

  /** The locking script of the contract output: P2SH of hash160 of the raw redeem script. */
  function ContractLock(c: Crypto, redeem: Script): Script
  {
    P2shScript(c.hash160(c.rawScript(redeem)))
  }
}
