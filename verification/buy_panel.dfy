/** The buy panel: its price preview, the quick-amount buttons, and the plan
    its click handler builds (with its own inline copy of the price). */
module BuyPanel {
  import opened Results
  import opened JsArith
  import opened Ledger
  import opened BondingCurve

  /** Twice the "You pay" preview. The preview divides by 2 on JavaScript
      numbers without truncating, so doubling keeps it an integer. */
  function CostPreviewDoubled(currentSupply: int, tokenAmount: int, basePrice: int, slope: int): int {
    if tokenAmount > 0 then
      2 * tokenAmount * basePrice + slope * tokenAmount * (2 * currentSupply - tokenAmount)
    else 0
  }

  /** The preview and the price the plan charges differ by at most half a
      sat, and agree exactly when the slope numerator is even. */
  lemma PreviewWithinHalfSat(currentSupply: int, tokenAmount: int, basePrice: int, slope: int)
    requires tokenAmount > 0
    ensures var preview2 := CostPreviewDoubled(currentSupply, tokenAmount, basePrice, slope);
            var cost := BuyCost(currentSupply, tokenAmount, basePrice, slope);
            && preview2 - 1 <= 2 * cost <= preview2 + 1
            && (2 * cost == preview2 <==> BuyNumerator(currentSupply, tokenAmount, slope) % 2 == 0)
  {
    var n := BuyNumerator(currentSupply, tokenAmount, slope);
    var m := TruncMod(n, 2);
    assert 2 * TruncDiv(n, 2) == n - m;
    assert m == 0 <==> n % 2 == 0;
  }

  /** A non-positive amount previews as free. */
  lemma PreviewOfNonPositiveAmount(currentSupply: int, tokenAmount: int, basePrice: int, slope: int)
    requires tokenAmount <= 0
    ensures CostPreviewDoubled(currentSupply, tokenAmount, basePrice, slope) == 0
  {
  }

  /** The amounts offered by the quick buttons. */
  const QuickAmounts: seq<int> := [100, 1000, 10000]

  /** A quick button's amount, `Math.min(q, currentSupply)`. */
  function QuickAmount(q: int, currentSupply: int): (r: int)
    ensures r <= q && r <= currentSupply
    ensures r == q || r == currentSupply
  {
    if q < currentSupply then q else currentSupply
  }

  /** The MAX button's amount. */
  function MaxAmount(currentSupply: int): (r: int)
    ensures r <= currentSupply
  {
    currentSupply
  }

  /** When the panel's supply is what the state UTXO holds, every amount the
      buttons set passes the supply check of `buyTokens`. */
  lemma ButtonAmountsAccepted(contractUtxos: seq<Utxo>, params: CurveParams,
                              contractTokenAddress: string, buyer: Wallet, q: int)
    requires StateUtxo(contractUtxos).Some?
    requires q in QuickAmounts
    ensures var held := StateUtxo(contractUtxos).value.token.value.amount;
            && PlanBuyTokens(contractUtxos, params, contractTokenAddress, buyer, QuickAmount(q, held)).Ok?
            && PlanBuyTokens(contractUtxos, params, contractTokenAddress, buyer, MaxAmount(held)).Ok?
  {
  }

  datatype BuyPanelError = NoTokensInContract

  /** `handleBuy` up to the broadcast. It returns early without a wallet or
      for a non-positive amount, prices the purchase inline, and has no
      supply check. */
  function HandleBuy(wallet: Option<Wallet>, tokenAmount: int, basePrice: int, slope: int,
                     contractTokenAddress: string, contractUtxos: seq<Utxo>)
    : (r: Action<BuyPanelError>)
    ensures r.Skipped? <==> wallet.None? || tokenAmount <= 0
    ensures r.Failed? <==> !r.Skipped? && StateUtxo(contractUtxos).None?
    ensures r.Planned? ==>
              var st := StateUtxo(contractUtxos).value;
              IsBuyPlan(st, BuyCost(st.token.value.amount, tokenAmount, basePrice, slope),
                        contractTokenAddress, wallet.value.tokenAddress, tokenAmount, r.plan)
  {
    if wallet.None? || tokenAmount <= 0 then Skipped
    else
      match StateUtxo(contractUtxos)
      case None => Failed(NoTokensInContract)
      case Some(tokenUtxo) =>
        var buyAmount := tokenAmount;
        var held := tokenUtxo.token.value.amount;
        var remaining := held - buyAmount;
        var buyCost := buyAmount * basePrice + TruncDiv(slope * buyAmount * (2 * held - buyAmount), 2);
        var category := tokenUtxo.token.value.category;
        Planned(Plan(
          [Input(tokenUtxo, CovenantBuy)],
          [ Output(contractTokenAddress, tokenUtxo.sats + buyCost, Some(Token(category, remaining))),
            Output(wallet.value.tokenAddress, TokenOutputSats, Some(Token(category, buyAmount))) ]))
  }

  /** Within supply, the panel builds exactly the plan `buyTokens` builds. */
  lemma HandleBuyAgreesWithBuyTokens(wallet: Wallet, tokenAmount: int, params: CurveParams,
                                     contractTokenAddress: string, contractUtxos: seq<Utxo>)
    requires StateUtxo(contractUtxos).Some?
    requires 0 < tokenAmount <= StateUtxo(contractUtxos).value.token.value.amount
    ensures HandleBuy(Some(wallet), tokenAmount, params.basePrice, params.slope,
                      contractTokenAddress, contractUtxos)
            == Planned(PlanBuyTokens(contractUtxos, params, contractTokenAddress, wallet, tokenAmount).value)
  {
  }

  /** Above supply, `buyTokens` refuses but the panel still plans, leaving the
      contract output a negative token amount. */
  lemma HandleBuyLacksSupplyGuard(wallet: Wallet, tokenAmount: int, params: CurveParams,
                                  contractTokenAddress: string, contractUtxos: seq<Utxo>)
    requires StateUtxo(contractUtxos).Some?
    requires tokenAmount > StateUtxo(contractUtxos).value.token.value.amount
    requires tokenAmount > 0
    ensures PlanBuyTokens(contractUtxos, params, contractTokenAddress, wallet, tokenAmount).Err?
    ensures var r := HandleBuy(Some(wallet), tokenAmount, params.basePrice, params.slope,
                               contractTokenAddress, contractUtxos);
            r.Planned? && r.plan.outputs[0].token.value.amount < 0
  {
  }
}
