# Hash-and-timelock atomic swap: transaction construction

A Dafny model of the transaction-building part of the `AtomicSwap` Ruby library. Two parties
swap coins on two chains. Each party locks its coins in a pay-to-script-hash (BIP 16) output.
That output's redeem script can be spent in one of two ways:

- both parties sign (a 2-of-2 multisig), or
- the recipient signs and shows the preimage of a double-SHA-256 hash lock.

Each party also gets a refund transaction. The refund is timelocked, signed first by its creator
and then cosigned by the other party.

The model covers:

- the redeem script and its P2SH wrapper (`ContractScript`);
- the funding transaction builder `generate_swap_tx`: greedy first-fit input selection, change,
  outputs, signing and self-verification (`Funding`);
- the partially signed refund `generate_refund_tx` and the cosigner `sign_refund_tx` (`Refund`);
- the initiator and responder flows `generate_tx1_and_tx2` and `generate_tx3_and_tx4`
  (`Orchestrator`).

The Bitcoin library is modelled in `Ledger`:

- Scripts are token sequences.
- Transactions are values (`TxData`, the serialised payload). They are also a mutable `Tx` object
  that the builders fill in with `AddIn`, `AddOut`, `SetScriptSig` and `SetLockTime`, step by
  step as the source does.
- Hashing, signing, signature-hash computation and input verification are a record of arbitrary
  functions (`Crypto`). Nothing proved depends on how they work.

Modelling choices:

- Values are integers in satoshi, with `FEE = 10000` and the scale `COIN = 10^8`.
- The builder's arithmetic is kept as written, quirks included:
  - the selection threshold is the unscaled `amount + FEE`;
  - change is `total - amount*10^8 - FEE`;
  - output 0 pays the unscaled `amount`;
  - the refund pays the unscaled `amount - FEE`;
  - the redeem script has no `OP_ENDIF`.
- `Funding.UnscaledThresholdStopsEarly` gives a concrete input where these quirks make the builder
  raise "insufficient funds" even though the full list of previous outputs would have covered
  the payment.
- Selection can stop before the list runs out and then raise, because the satoshi running total
  is compared with the unscaled `amount + FEE` (lib/atomic_swap.rb:65-69).
- Output 0 pays the unscaled `amount`, while the change uses `amount*10^8`
  (lib/atomic_swap.rb:57, 67-68).
- Signature digests are taken over the transaction with every scriptSig emptied (`Unsigned`),
  as in legacy SIGHASH_ALL hashing. As a result, filling in one input's scriptSig does not
  change the digest of any other input. Input self-verification sees the transaction exactly as
  it stands when it runs: inputs before it are already signed, later ones are not.
- The builders return the transaction's content as a value. This reads the source's
  `Tx.new(tx.to_payload)` as the identity. `sign_refund_tx` changes the caller's transaction
  object in place, and its model does the same (`modifies refundTx`).

## Model

| member | source | states |
|---|---|---|
| `ContractScript.RedeemScript` | lib/atomic_swap.rb:50-54 | The script reads back, through the independent parser `ParseContract`, as exactly its sender key, recipient key and hash lock. It contains `OP_IF` and `OP_ELSE` but no `OP_ENDIF`. |
| `ContractScript.ParseContractSound` | lib/atomic_swap.rb:50-54 | Every script the parser accepts is the redeem script of the parameters it reads. Together with `RedeemScript`'s ensures, the parser is a two-sided inverse. |
| `ContractScript.RedeemScriptInjective` | lib/atomic_swap.rb:50-56 | The redeem script is deterministic and injective: equal token scripts mean equal sender key, recipient key and hash lock. |
| `Funding.SelectFromReach` | lib/atomic_swap.rb:60-66 | Greedy pass resumed after `i` outputs worth `total`: it takes at least one more output if any is left. No intermediate prefix reaches the target. If it stops before the end, the prefix it took reaches the target. |
| `Funding.SelectionIsFirstReach` | lib/atomic_swap.rb:60-66 | The selected outputs are the shortest non-empty prefix whose total reaches `amount + FEE`. If no prefix does, all outputs are selected. |
| `Funding.AddInputs` | lib/atomic_swap.rb:59-66 | The selection loop. It adds inputs spending exactly that greedy prefix, in order, and returns its total. Outputs are untouched. |
| `Funding.SignInputs` | lib/atomic_swap.rb:72-79 | The signing loop. `ok` holds exactly when every input's self-verification succeeds right after it is signed. When `ok` holds, every input carries `<sig> <pubkey>` for its own previous output. |
| `Funding.GenerateSwapTx` | lib/atomic_swap.rb:44-82 | The builder run on a fresh transaction object returns exactly `SwapTx`: the transaction and redeem script, or the error raised. |
| `Funding.SwapTxSpendsPrefix` | lib/atomic_swap.rb:60-66 | On success, input `j` spends `prevs[j]` with the default sequence, for exactly the greedy prefix. |
| `Funding.SwapTxRedeem` | lib/atomic_swap.rb:81 | The script returned beside the transaction is the redeem script of the sender key, recipient key and hash lock. |
| `Funding.SwapTxInsufficientFunds` | lib/atomic_swap.rb:67-69 | "insufficient funds" is raised exactly when `total - amount*10^8 - FEE < 0`. |
| `Funding.TotalPrefixLe` | lib/atomic_swap.rb:60-66 | Any prefix of the previous outputs is worth no more than the whole list, since output values are non-negative. |
| `Funding.WholeListShortRaises` | lib/atomic_swap.rb:60-69 | When all previous outputs together are worth less than `amount*10^8 + FEE`, the builder raises "insufficient funds" and returns no transaction. |
| `Funding.NoPreviousOutputsRaise` | lib/atomic_swap.rb:60-69 | With no previous outputs and a non-negative amount, the builder always raises "insufficient funds". |
| `Funding.SwapTxOutputs` | lib/atomic_swap.rb:56-70 | There are one or two outputs. Output 0 pays the unscaled `amount` to the P2SH script of hash160 of the raw redeem script. Output 1 exists exactly when the change is positive and pays the change to the sender's address. |
| `Funding.SwapTxSignatures` | lib/atomic_swap.rb:73-77 | Every input's scriptSig is `<sig> <pubkey>`. The signature is made with the sender's key over the returned transaction's digest for the matching previous output's locking script. |
| `Funding.SwapTxSignatureFailure` | lib/atomic_swap.rb:73-79 | When funds suffice, "signature failure" is raised exactly when some input fails self-verification at the point it is checked. No transaction is returned. |
| `Funding.UnscaledThresholdStopsEarly` | lib/atomic_swap.rb:65-69 | With outputs worth 50000 and 2·10^8 and amount 1, selection stops after the first output and the call raises, although the two outputs together cover `10^8 + FEE`. |
| `Refund.PartialRefund` | lib/atomic_swap.rb:87-94 | One input spends output 0 of the funding transaction, with sequence 0. One output pays `amount - FEE` to the creator. `lock_time` is `now + hours*3600`. The scriptSig is `0 <sig1>`, where sig1 is the creator's signature over this transaction's digest for the redeem script. |
| `Refund.GenerateRefundTx` | lib/atomic_swap.rb:84-97 | Building on a fresh transaction object and signing once yields exactly `PartialRefund`. |
| `Refund.Cosigned` | lib/atomic_swap.rb:103-108 | The scriptSig of input 0 becomes the old one followed by `<sig2> 1`, with sig2 over the final transaction's digest for the redeem script. Everything except scriptSigs is unchanged, and the other inputs are untouched. |
| `Refund.SignRefundTx` | lib/atomic_swap.rb:99-111 | The caller's refund object is cosigned in place, as `Cosigned` describes, and its new content is returned. |
| `Refund.CosignedRefund` | lib/atomic_swap.rb:93-108 | Cosigning a partial refund gives the scriptSig `0 <sig1> <sig2> 1`, with both signatures over one and the same digest. Inputs, outputs and lock time are those of the partial refund. |
| `Orchestrator.GenerateTx1AndTx2` | lib/atomic_swap.rb:5-24 | The initiator flow returns exactly `Tx1AndTx2`: funding on the double hash of the secret, then a 48-hour refund. A funding error aborts the flow. |
| `Orchestrator.GenerateTx3AndTx4` | lib/atomic_swap.rb:26-40 | The responder flow returns exactly `Tx3AndTx4`: funding on the given hash, then a 24-hour refund. It has no secret to return. |
| `Orchestrator.InitiatorFlow` | lib/atomic_swap.rb:8-23 | The flow fails exactly when funding fails, with the same error. On success it returns the secret `x`. The script locks on `sha256(sha256(x))` with the initiator's key first. tx2 spends tx1's output 0, which is worth `amount`. tx2 pays that amount minus FEE, and its lock time is 48 hours after `now`. |
| `Orchestrator.ResponderFlow` | lib/atomic_swap.rb:29-39 | The same as `InitiatorFlow` for the responder: the script locks on the supplied hash, and the refund tx4 matures 24 hours after `now`. |
| `Orchestrator.MirroredContracts` | lib/atomic_swap.rb:11-34 | When the responder builds from the initiator's published hash with the keys swapped, both contracts lock on the same hash. The multisig key pairs are mirror images, and each hash branch pays the other party. |
| `Orchestrator.ResponderRefundMaturesFirst` | lib/atomic_swap.rb:21-37 | If the responder sets up less than 24 hours after the initiator, tx4's lock time is strictly earlier than tx2's. |
| `Orchestrator.CosignedRefundFitsMultisig` | lib/atomic_swap.rb:50-108 | After cosigning, the refund's scriptSig `0 <sig1> <sig2> 1` has sig1 by the creator and sig2 by the counterparty, both over one digest. The creator's key is the script's first multisig key and the counterparty's key the second. The selector 1 picks the `OP_IF` branch. |
| `Ledger.UnsignedIgnoresScriptSigs` | lib/atomic_swap.rb:103-104 | Two transactions have the same digest view exactly when they differ at most in their scriptSigs. |
| `Ledger.Tx.AddIn` | lib/atomic_swap.rb:64 | `add_in` appends one input and changes nothing else. |
| `Ledger.Tx.AddOut` | lib/atomic_swap.rb:57 | `add_out` appends one output and changes nothing else. |
| `Ledger.Tx.SetScriptSig` | lib/atomic_swap.rb:77 | `in[index].script_sig =` replaces that input's scriptSig and nothing else. |
| `Ledger.Tx.SetLockTime` | lib/atomic_swap.rb:90 | `lock_time =` sets the lock time and nothing else. |

## Left out

- Cryptography (SHA-256, hash160, ECDSA signing, signature-hash computation, `verify_input_signature`) is a record of arbitrary functions supplied by the caller. Its algorithms are not modelled.
- Key and address encoding is not modelled. Base58 WIF decoding, hex encoding and decoding of public keys, hashes and the returned secret, address encoding, and script and transaction serialisation are library calls. Keys, hashes and the secret are raw bytes. Text conversions of scripts, such as the `to_string`/`from_string` round trip in the cosigner, are taken as identities.
- The library's validation of malformed public keys, hash strings or WIF keys is not modelled. Inputs are already-decoded values.
- The process-wide `Bitcoin.network =` assignment is dropped. It affects only encoding, which is not modelled.
- Randomness: the 32 secret bytes from `SecureRandom.random_bytes` are a parameter `x` with `|x| == 32`. That successive calls give different secrets cannot be stated of a parameter.
- Clock: `Time.now` is a parameter `now` in whole seconds. The conversion through `Time.at` is not modelled.
- Floats: `FEE` and the scaled amount are floats in the source. Here all values are integers, so float rounding is not modelled.
- Previous outputs arrive already resolved (transaction hash, index, value, locking script). The source's `prev_tx.out[index]` can fail on an index out of range; that failure is not modelled.
- `Refund.SignRefundTx` requires at least one input. The source would fail on `in[0]` of an input-less transaction; that failure is not modelled as an error result.
- `add_out` is called with two arguments (a value and a script) for the change and refund outputs. The model reads each such call as adding an output with that value and script. The library's own signature is not part of this model.
- Script evaluation by the network is not modelled: whether the redeem script, which lacks `OP_ENDIF`, and the scriptSigs would pass the ledger's script interpreter.
- `generate_claim_tx` is an empty placeholder in the source and has no behaviour to model.
