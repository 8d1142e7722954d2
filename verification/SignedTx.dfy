/**
  The stored transaction, the signed payload, and the checks of
  services/execution (validation.py, rbf.py) that compare the two.
 */
module SignedTx {
  import opened Wrappers
  import opened Text

  datatype Chain = Ethereum | Base | Arbitrum | Unsupported(name: string)

  datatype Decision = Approve | Reject | Escalate

  datatype Status =
    | Escalated
    | Approved
    | Broadcasting
    | Broadcast
    | Executed
    | Stuck
    | Reorged
    | Rejected
    | Cancelled

  /** A row of `transactions`. */
  datatype Row = Row(
    org: string,
    wallet: string,
    chain: Chain,
    to: Option<string>,
    value: nat,
    calldata: Option<string>,
    gasLimit: Option<nat>,
    gasPrice: Option<nat>,
    decision: Decision,
    status: Status,
    nonce: Option<nat>,
    txHash: Option<string>,
    broadcastAt: Option<int>,
    attempts: nat,
    stuckAt: Option<int>,
    confirmedAt: Option<int>,
    block: Option<nat>,
    reorgedAt: Option<int>)

  /** A decoded signed transaction; `from` is the recovered sender. */
  datatype Payload = Payload(
    from: string,
    chainId: nat,
    nonce: nat,
    gas: nat,
    gasPrice: nat,
    maxFeePerGas: Option<nat>,
    to: Option<string>,
    value: nat,
    data: string)

  datatype Kind = Submit | Rbf | Cancel

  datatype TxError =
    | UnsupportedChain
    | WrongChain
    | WrongSender
    | WrongTo
    | WrongValue
    | WrongCalldata
    | WrongNonce
    | GasAboveCeiling
    | GasBelowBump

  function Eip155(c: Chain): Option<nat> {
    match c
    case Ethereum => Some(1)
    case Base => Some(8453)
    case Arbitrum => Some(42161)
    case Unsupported(_) => None
  }

  function LowerOpt(s: Option<string>): Option<string> {
    if s.None? || s.value == "" then None else Some(Lower(s.value))
  }

  function NormData(data: Option<string>): string {
    if data.None? then "0x" else Lower(data.value)
  }

  /** validate_signed_tx: the first failing check, in the source's order. */
  function ValidateSigned(row: Row, p: Payload, reservedNonce: nat): Option<TxError> {
    if Eip155(row.chain).None? then Some(UnsupportedChain)
    else if p.chainId != Eip155(row.chain).value then Some(WrongChain)
    else if Lower(p.from) != Lower(row.wallet) then Some(WrongSender)
    else if p.to != LowerOpt(row.to) then Some(WrongTo)
    else if p.value != row.value then Some(WrongValue)
    else if NormData(Some(p.data)) != NormData(row.calldata) then Some(WrongCalldata)
    else if p.nonce != reservedNonce then Some(WrongNonce)
    else if row.gasLimit.Some? && p.gas > row.gasLimit.value then Some(GasAboveCeiling)
    else None
  }

  function GasPrice(p: Payload): nat {
    if p.maxFeePerGas.Some? && p.maxFeePerGas.value > 0 then p.maxFeePerGas.value else p.gasPrice
  }

  /** The least gas price a replacement must offer; bump is a fraction of the old price. */
  function BumpedGas(row: Row, bump: real): Option<int> {
    if row.gasPrice.None? then None
    else Some(row.gasPrice.value + (row.gasPrice.value as real * bump).Floor)
  }

  /** _validate_replacement. It compares neither chain id nor calldata. */
  function ValidateReplacement(row: Row, p: Payload, kind: Kind, bump: real): Option<TxError> {
    if Lower(p.from) != Lower(row.wallet) then Some(WrongSender)
    else if Some(p.nonce) != row.nonce then Some(WrongNonce)
    else if kind == Cancel && LowerOpt(p.to) != Some(Lower(row.wallet)) then Some(WrongTo)
    else if kind == Cancel && p.value != 0 then Some(WrongValue)
    else if kind != Cancel && LowerOpt(p.to) != LowerOpt(row.to) then Some(WrongTo)
    else if kind != Cancel && p.value != row.value then Some(WrongValue)
    else if BumpedGas(row, bump).Some? && GasPrice(p) < BumpedGas(row, bump).value then Some(GasBelowBump)
    else None
  }

  /**
    What a payload handed to the network for a row may be: signed by the row's wallet, with
    the row's nonce, and either the screened transfer or a zero-value transfer to itself.
   */
  predicate Allowed(row: Row, p: Payload, kind: Kind) {
    && Lower(p.from) == Lower(row.wallet)
    && row.nonce == Some(p.nonce)
    && match kind
       case Submit =>
         && Eip155(row.chain) == Some(p.chainId)
         && p.to == LowerOpt(row.to)
         && p.value == row.value
         && NormData(Some(p.data)) == NormData(row.calldata)
         && (row.gasLimit.Some? ==> p.gas <= row.gasLimit.value)
       case Rbf => LowerOpt(p.to) == LowerOpt(row.to) && p.value == row.value
       case Cancel => LowerOpt(p.to) == Some(Lower(row.wallet)) && p.value == 0
  }

  /** The columns no service ever writes again. */
  predicate SameIntent(row: Row, row': Row) {
    row' == row.(status := row'.status, nonce := row'.nonce, txHash := row'.txHash,
                 broadcastAt := row'.broadcastAt, attempts := row'.attempts, stuckAt := row'.stuckAt,
                 confirmedAt := row'.confirmedAt, block := row'.block, reorgedAt := row'.reorgedAt)
  }

  /** A nonce that stays once it is set. */
  predicate SameNonce(row: Row, row': Row) { row.nonce.Some? ==> row'.nonce == row.nonce }

  /** How addresses and calldata are compared: without regard to case, an empty address as none, no calldata as "0x". */
  lemma NormalForms(s: Option<string>)
    ensures LowerOpt(s).None? <==> s.None? || s.value == ""
    ensures LowerOpt(s).Some? ==> LowerOpt(s).value == Lower(s.value)
    ensures NormData(s) == if s.Some? then Lower(s.value) else "0x"
  {
  }

  /**
    The chain of checks accepts a submission exactly if it is the screened transaction, for the
    row's own chain, with the row's nonce.
   */
  lemma SignedIsAccepted(row: Row, p: Payload, reservedNonce: nat)
    ensures ValidateSigned(row, p, reservedNonce).None? <==>
              && (match row.chain
                  case Ethereum => p.chainId == 1
                  case Base => p.chainId == 8453
                  case Arbitrum => p.chainId == 42161
                  case Unsupported(_) => false)
              && Lower(p.from) == Lower(row.wallet) && p.nonce == reservedNonce
              && (if row.to.None? || row.to.value == "" then p.to.None? else p.to == Some(Lower(row.to.value)))
              && p.value == row.value
              && Lower(p.data) == (if row.calldata.Some? then Lower(row.calldata.value) else "0x")
              && (row.gasLimit.Some? ==> p.gas <= row.gasLimit.value)
    ensures row.nonce == Some(reservedNonce) ==>
              (ValidateSigned(row, p, reservedNonce).None? <==> Allowed(row, p, Submit))
  {
  }

  /** A refusal names a mismatch that is there, and the last of them only if there is no other. */
  lemma RefusalNamesMismatch(row: Row, p: Payload, reservedNonce: nat)
    ensures match ValidateSigned(row, p, reservedNonce)
            case None => true
            case Some(UnsupportedChain) => row.chain.Unsupported?
            case Some(WrongChain) => !row.chain.Unsupported? && Eip155(row.chain) != Some(p.chainId)
            case Some(WrongSender) => Lower(p.from) != Lower(row.wallet)
            case Some(WrongTo) => p.to != LowerOpt(row.to)
            case Some(WrongValue) => p.value != row.value
            case Some(WrongCalldata) => Lower(p.data) != NormData(row.calldata)
            case Some(WrongNonce) => p.nonce != reservedNonce
            case Some(GasAboveCeiling) =>
              && row.gasLimit.Some? && p.gas > row.gasLimit.value
              && ValidateSigned(row, p.(gas := row.gasLimit.value), reservedNonce).None?
            case Some(GasBelowBump) => false
  {
  }

  /**
    A replacement is accepted exactly if it is the screened transfer or a transfer of nothing to
    the wallet itself, under the same nonce, at a price of at least the old one plus its bump. The
    price is the fee cap, or without one the gas price.
   */
  lemma ReplacementIsAccepted(row: Row, p: Payload, kind: Kind, bump: real)
    requires kind != Submit
    ensures ValidateReplacement(row, p, kind, bump).None? <==>
      && Lower(p.from) == Lower(row.wallet) && row.nonce == Some(p.nonce)
      && (if kind == Cancel then LowerOpt(p.to) == Some(Lower(row.wallet)) && p.value == 0
          else LowerOpt(p.to) == LowerOpt(row.to) && p.value == row.value)
      && (row.gasPrice.Some? ==>
            var price := if p.maxFeePerGas.None? || p.maxFeePerGas.value == 0 then p.gasPrice else p.maxFeePerGas.value;
            price - row.gasPrice.value >= (row.gasPrice.value as real * bump).Floor)
    ensures row.gasPrice.None? ==> (ValidateReplacement(row, p, kind, bump).None? <==> Allowed(row, p, kind))
    ensures ValidateReplacement(row, p, kind, bump).None? ==> Allowed(row, p, kind)
  {
  }
}
