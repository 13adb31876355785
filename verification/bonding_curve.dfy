/** The bonding-curve library of the client: the buy price formula shared
    with the covenant, and the plans of the `buyTokens` and
    `withdrawFromContract` transactions (everything before broadcast). */
module BondingCurve {
  import opened Results
  import opened Seqs
  import opened JsArith
  import opened Ledger

  /** The constructor arguments of the contract that the client's arithmetic
      uses (sats per token at the start, and the per-token increase). The
      creator's key hash only selects the contract address. */
  datatype CurveParams = CurveParams(basePrice: int, slope: int)

  /** Numerator of the slope term of the buy price:
      `slope * amount * (2 * held - amount)`. */
  function BuyNumerator(held: int, amount: int, slope: int): int {
    slope * amount * (2 * held - amount)
  }

  /** `calculateBuyCost`: the price of `amount` tokens when the contract
      currently holds `held`, with the `bigint` division truncating. */
  function BuyCost(held: int, amount: int, basePrice: int, slope: int): int {
    amount * basePrice + TruncDiv(BuyNumerator(held, amount, slope), 2)
  }

  /** The numerator is non-negative on the range the curve is used on. */
  lemma BuyNumeratorNonNegative(held: int, amount: int, slope: int)
    requires slope >= 0 && 0 <= amount <= 2 * held
    ensures BuyNumerator(held, amount, slope) >= 0
  {
    assert slope * amount >= 0;
    assert (slope * amount) * (2 * held - amount) >= 0;
  }

  /** Truncation equals floor division whenever `0 <= amount <= 2 * held`,
      so the client and a flooring evaluator agree there. */
  lemma BuyCostIsFloor(held: int, amount: int, basePrice: int, slope: int)
    requires slope >= 0 && 0 <= amount <= 2 * held
    ensures BuyCost(held, amount, basePrice, slope)
            == amount * basePrice + BuyNumerator(held, amount, slope) / 2
  {
    BuyNumeratorNonNegative(held, amount, slope);
  }

  /** With non-negative parameters and an amount the contract can supply,
      the price is at least the flat price `amount * basePrice >= 0`. */
  lemma BuyCostLowerBound(held: int, amount: int, basePrice: int, slope: int)
    requires basePrice >= 0 && slope >= 0 && 0 <= amount <= held
    ensures 0 <= amount * basePrice <= BuyCost(held, amount, basePrice, slope)
  {
    BuyNumeratorNonNegative(held, amount, slope);
  }

  /** The slope term grows with the amount on `0..held`:
      N(a2) - N(a1) = slope * (a2 - a1) * (2 * held - a1 - a2). */
  lemma BuyNumeratorMonotone(held: int, a1: int, a2: int, slope: int)
    requires slope >= 0 && 0 <= a1 <= a2 <= held
    ensures 0 <= BuyNumerator(held, a1, slope) <= BuyNumerator(held, a2, slope)
  {
    BuyNumeratorNonNegative(held, a1, slope);
    var d := a2 - a1;
    assert BuyNumerator(held, a2, slope) - BuyNumerator(held, a1, slope)
           == slope * (d * (2 * held - a1 - a2));
    assert d * (2 * held - a1 - a2) >= 0;
    assert slope * (d * (2 * held - a1 - a2)) >= 0;
  }

  /** Halving keeps order. */
  lemma HalfMonotone(x: int, y: int)
    requires x <= y
    ensures x / 2 <= y / 2
  {
  }

  /** Buying more never costs less, on `0..held`. */
  lemma BuyCostMonotone(held: int, a1: int, a2: int, basePrice: int, slope: int)
    requires basePrice >= 0 && slope >= 0 && 0 <= a1 <= a2 <= held
    ensures BuyCost(held, a1, basePrice, slope) <= BuyCost(held, a2, basePrice, slope)
  {
    var n1, n2 := BuyNumerator(held, a1, slope), BuyNumerator(held, a2, slope);
    BuyNumeratorMonotone(held, a1, a2, slope);
    HalfMonotone(n1, n2);
    TruncDivOfNonNegative(n1, 2);
    TruncDivOfNonNegative(n2, 2);
    assert a1 * basePrice <= a2 * basePrice by {
      assert a2 * basePrice - a1 * basePrice == (a2 - a1) * basePrice;
    }
  }

  /** With a positive base price buying more strictly costs more. (With a
      zero base price and slope 1, `BuyCost(1, 1, 0, 1) == BuyCost(1, 0, 0, 1) == 0`:
      truncation can make the price flat.) */
  lemma BuyCostStrictlyMonotone(held: int, a1: int, a2: int, basePrice: int, slope: int)
    requires basePrice > 0 && slope >= 0 && 0 <= a1 < a2 <= held
    ensures BuyCost(held, a1, basePrice, slope) < BuyCost(held, a2, basePrice, slope)
  {
    var n1, n2 := BuyNumerator(held, a1, slope), BuyNumerator(held, a2, slope);
    BuyNumeratorMonotone(held, a1, a2, slope);
    HalfMonotone(n1, n2);
    TruncDivOfNonNegative(n1, 2);
    TruncDivOfNonNegative(n2, 2);
    assert a1 * basePrice < a2 * basePrice by {
      assert a2 * basePrice - a1 * basePrice == (a2 - a1) * basePrice;
    }
  }

  /** With slope zero the curve is a fixed-price sale. */
  lemma BuyCostFlatWithoutSlope(held: int, amount: int, basePrice: int)
    ensures BuyCost(held, amount, basePrice, 0) == amount * basePrice
  {
  }

  /** The transaction every buy path builds from the state UTXO `st`: spend
      it through the covenant's `buy` branch; recreate it at the contract's
      token address with `cost` more sats and `amount` fewer tokens; send the
      bought tokens, of the same category, on a dust output to the buyer.
      There is no funding input from the buyer. */
  predicate IsBuyPlan(st: Utxo, cost: int, contractTokenAddress: string,
                      buyerTokenAddress: string, amount: int, p: Plan)
  {
    && st.token.Some?
    && var cat := st.token.value.category;
    && p.inputs == [Input(st, CovenantBuy)]
    && p.outputs == [
         Output(contractTokenAddress, st.sats + cost, Some(Token(cat, st.token.value.amount - amount))),
         Output(buyerTokenAddress, TokenOutputSats, Some(Token(cat, amount)))
       ]
  }

  /** A buy plan moves tokens and never creates or destroys any: the
      contract's remainder plus the buyer's tokens equal what the state UTXO
      held, both in the state UTXO's category. */
  lemma BuyPlanConservesTokens(st: Utxo, cost: int, contractTokenAddress: string,
                               buyerTokenAddress: string, amount: int, p: Plan)
    requires IsBuyPlan(st, cost, contractTokenAddress, buyerTokenAddress, amount, p)
    ensures ConservesTokens(p)
    ensures p.outputs[0].token.value.amount + p.outputs[1].token.value.amount
            == st.token.value.amount
    ensures p.outputs[0].token.value.category == p.outputs[1].token.value.category
            == st.token.value.category
  {
    forall cat: string
      ensures TokensIn(p, cat) == TokensOut(p, cat)
    {
      SumOne(p.inputs[0], (i: Input) => AmountOf(i.coin.token, cat));
      SumTwo(p.outputs[0], p.outputs[1], (o: Output) => AmountOf(o.token, cat));
    }
  }

  /** A buy plan does not balance: its outputs carry exactly `cost` plus the
      buyer's dust more than its single input, which nothing in the plan
      funds. */
  lemma BuyPlanValueGap(st: Utxo, cost: int, contractTokenAddress: string,
                        buyerTokenAddress: string, amount: int, p: Plan)
    requires IsBuyPlan(st, cost, contractTokenAddress, buyerTokenAddress, amount, p)
    ensures |p.inputs| == 1 && |p.outputs| == 2
    ensures SatsOut(p) == SatsIn(p) + cost + TokenOutputSats
    ensures cost >= 0 ==> SatsOut(p) > SatsIn(p)
  {
    SumOne(p.inputs[0], (i: Input) => i.coin.sats);
    SumTwo(p.outputs[0], p.outputs[1], (o: Output) => o.sats);
  }

  datatype BuyError = NoTokenUtxo | NotEnoughTokens(available: int, requested: int)

  /** `buyTokens` up to the broadcast: find the state UTXO, refuse amounts
      above what it holds, price the purchase and build the plan. Zero and
      negative amounts are not refused. */
  function PlanBuyTokens(contractUtxos: seq<Utxo>, params: CurveParams,
                         contractTokenAddress: string, buyer: Wallet, tokenAmount: int)
    : (r: Result<Plan, BuyError>)
    ensures StateUtxo(contractUtxos).None? ==> r == Err(NoTokenUtxo)
    ensures StateUtxo(contractUtxos).Some? ==>
              var held := StateUtxo(contractUtxos).value.token.value.amount;
              && (r.Err? <==> tokenAmount > held)
              && (r.Err? ==> r.error == NotEnoughTokens(held, tokenAmount))
    ensures r.Ok? ==>
              && StateUtxo(contractUtxos).Some?
              && var st := StateUtxo(contractUtxos).value;
              && IsBuyPlan(st, BuyCost(st.token.value.amount, tokenAmount, params.basePrice, params.slope),
                           contractTokenAddress, buyer.tokenAddress, tokenAmount, r.value)
              && r.value.outputs[0].token.value.amount >= 0
  {
    match StateUtxo(contractUtxos)
    case None => Err(NoTokenUtxo)
    case Some(st) =>
      var currentSupply := st.token.value.amount;
      if tokenAmount > currentSupply then
        Err(NotEnoughTokens(currentSupply, tokenAmount))
      else
        var cost := BuyCost(currentSupply, tokenAmount, params.basePrice, params.slope);
        var category := st.token.value.category;
        Ok(Plan(
          [Input(st, CovenantBuy)],
          [ Output(contractTokenAddress, st.sats + cost, Some(Token(category, currentSupply - tokenAmount))),
            Output(buyer.tokenAddress, TokenOutputSats, Some(Token(category, tokenAmount))) ]))
  }

  /** Buying out the whole remaining supply is accepted and leaves the
      contract with zero tokens. */
  lemma BuyTokensBuyOut(contractUtxos: seq<Utxo>, params: CurveParams,
                        contractTokenAddress: string, buyer: Wallet)
    requires StateUtxo(contractUtxos).Some?
    ensures var held := StateUtxo(contractUtxos).value.token.value.amount;
            var r := PlanBuyTokens(contractUtxos, params, contractTokenAddress, buyer, held);
            r.Ok? && r.value.outputs[0].token.value.amount == 0
            && PlanBuyTokens(contractUtxos, params, contractTokenAddress, buyer, held + 1)
               == Err(NotEnoughTokens(held, held + 1))
  {
  }

  /** Nothing rejects a negative amount: the plan then hands the buyer a
      negative token amount and the contract more tokens than it held. */
  lemma BuyTokensAcceptsNegativeAmount()
    ensures var st := Utxo(5000, Some(Token("c", 10)));
            var r := PlanBuyTokens([st], CurveParams(100, 1), "contract", Wallet("a", "t"), -3);
            r.Ok? && r.value.outputs[1].token == Some(Token("c", -3))
            && r.value.outputs[0].token == Some(Token("c", 13))
  {
  }

  datatype WithdrawError = NoUtxo

  /** `withdrawFromContract` up to the broadcast: the creator spends the
      state UTXO through the `withdraw` branch into one output at the
      creator's token address. */
  function PlanWithdraw(contractUtxos: seq<Utxo>, creator: Wallet): (r: Result<Plan, WithdrawError>)
    ensures r.Err? <==> StateUtxo(contractUtxos).None?
    ensures r.Ok? ==>
              && r.value.inputs == [Input(StateUtxo(contractUtxos).value, CovenantWithdraw)]
              && |r.value.outputs| == 1
              && r.value.outputs[0].to == creator.tokenAddress
  {
    match StateUtxo(contractUtxos)
    case None => Err(NoUtxo)
    case Some(st) =>
      Ok(Plan([Input(st, CovenantWithdraw)], [Output(creator.tokenAddress, st.sats, st.token)]))
  }

  /** The withdrawal moves everything: all of the state UTXO's sats and its
      whole token payload, category included, and creates no value. */
  lemma WithdrawMovesEverything(contractUtxos: seq<Utxo>, creator: Wallet)
    requires PlanWithdraw(contractUtxos, creator).Ok?
    ensures var p := PlanWithdraw(contractUtxos, creator).value;
            && SatsOut(p) == SatsIn(p) == StateUtxo(contractUtxos).value.sats
            && ConservesTokens(p)
            && p.outputs[0].token == StateUtxo(contractUtxos).value.token
  {
    var p := PlanWithdraw(contractUtxos, creator).value;
    SumOne(p.inputs[0], (i: Input) => i.coin.sats);
    SumOne(p.outputs[0], (o: Output) => o.sats);
    forall cat: string
      ensures TokensIn(p, cat) == TokensOut(p, cat)
    {
      SumOne(p.inputs[0], (i: Input) => AmountOf(i.coin.token, cat));
      SumOne(p.outputs[0], (o: Output) => AmountOf(o.token, cat));
    }
  }
}
