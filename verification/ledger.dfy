/** Coins, tokens and the transaction plans handed to the transaction
    builder: the inputs it spends and the outputs it creates, in order. */
module Ledger {
  import opened Results
  import opened Seqs

  /** Dust value given to every token-carrying output the client creates. */
  const TokenOutputSats: int := 1000

  /** A fungible-token payload: its category id and the amount held. */
  datatype Token = Token(category: string, amount: int)

  /** An unspent output as the ledger reports it. */
  datatype Utxo = Utxo(sats: int, token: Option<Token>)

  /** How an input is unlocked: one of the covenant's branches, or a P2PKH
      signature of the trader. */
  datatype Unlock = CovenantBuy | CovenantSell | CovenantWithdraw | Signature

  datatype Input = Input(coin: Utxo, unlock: Unlock)

  datatype Output = Output(to: string, sats: int, token: Option<Token>)

  datatype Plan = Plan(inputs: seq<Input>, outputs: seq<Output>)

  /** The addresses of a connected wallet; keys are left out. */
  datatype Wallet = Wallet(address: string, tokenAddress: string)

  /** What a trading panel's click handler does: return early, fail with a
      message, or hand a plan to the transaction builder. */
  datatype Action<+E> = Skipped | Failed(error: E) | Planned(plan: Plan)

  predicate HasToken(u: Utxo) {
    u.token.Some?
  }

  /** The state UTXO of a contract as the client picks it: the first listed
      UTXO carrying any token (`utxos.find(u => u.token)`). */
  function StateUtxo(utxos: seq<Utxo>): (r: Option<Utxo>)
    ensures r.None? <==> forall u :: u in utxos ==> !HasToken(u)
    ensures r.Some? ==> HasToken(r.value)
    ensures r.Some? ==> exists i :: 0 <= i < |utxos| && utxos[i] == r.value
                                    && forall j :: 0 <= j < i ==> !HasToken(utxos[j])
  {
    match FindFirst(utxos, HasToken)
    case None => None
    case Some(i) => Some(utxos[i])
  }

  /** The amount of tokens of category `cat` in a payload. */
  function AmountOf(t: Option<Token>, cat: string): int {
    if t.Some? && t.value.category == cat then t.value.amount else 0
  }

  function SatsIn(p: Plan): int {
    Sum(p.inputs, (i: Input) => i.coin.sats)
  }

  function SatsOut(p: Plan): int {
    Sum(p.outputs, (o: Output) => o.sats)
  }

  function TokensIn(p: Plan, cat: string): int {
    Sum(p.inputs, (i: Input) => AmountOf(i.coin.token, cat))
  }

  function TokensOut(p: Plan, cat: string): int {
    Sum(p.outputs, (o: Output) => AmountOf(o.token, cat))
  }

  /** Every token category is carried over from the inputs to the outputs in
      exactly the same amount. */
  ghost predicate ConservesTokens(p: Plan) {
    forall cat :: TokensIn(p, cat) == TokensOut(p, cat)
  }
}
