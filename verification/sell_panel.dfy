/** The sell panel: its revenue preview, the refund the contract pays, and
    the plan its click handler builds (trader UTXO selection, liquidity
    floor, fixed fee and token change). */
module SellPanel {
  import opened Results
  import opened Seqs
  import opened JsArith
  import opened Ledger
  import opened BondingCurve

  /** The least value the contract output may keep after paying a refund. */
  const MinContractBalance: int := 1000

  /** The miner fee the seller pays, taken from the seller's payout. */
  const TxFee: int := 1000

  /** Numerator of the slope term of the refund:
      `slope * amount * (2 * held + amount)`. */
  function SellNumerator(held: int, amount: int, slope: int): int {
    slope * amount * (2 * held + amount)
  }

  /** The refund for returning `amount` tokens to a contract that holds
      `held`, with the `bigint` division truncating. */
  function SellRefund(held: int, amount: int, basePrice: int, slope: int): int {
    amount * basePrice + TruncDiv(SellNumerator(held, amount, slope), 2)
  }

  /** Twice the "You receive" preview, computed from the supply after the
      sale; the preview divides by 2 without truncating. */
  function RevenuePreviewDoubled(currentSupply: int, tokenAmount: int, basePrice: int, slope: int): int {
    var newSupply := currentSupply + tokenAmount;
    if tokenAmount > 0 then
      2 * tokenAmount * basePrice + slope * tokenAmount * (2 * newSupply - tokenAmount)
    else 0
  }

  /** Selling right after buying returns exactly the price paid, truncation
      included: the refund at the post-buy holding `held - amount` is the
      buy price at `held`. Buying back right after selling costs exactly the
      refund. */
  lemma RoundTrip(held: int, amount: int, basePrice: int, slope: int)
    ensures SellRefund(held - amount, amount, basePrice, slope) == BuyCost(held, amount, basePrice, slope)
    ensures BuyCost(held + amount, amount, basePrice, slope) == SellRefund(held, amount, basePrice, slope)
  {
    assert SellNumerator(held - amount, amount, slope) == BuyNumerator(held, amount, slope);
    assert BuyNumerator(held + amount, amount, slope) == SellNumerator(held, amount, slope);
  }

  /** The preview's numerator `2 * (S + a) - a` is the refund's `2 * S + a`,
      so the preview is within half a sat of the refund, and exact when the
      numerator is even. */
  lemma RevenuePreviewWithinHalfSat(currentSupply: int, tokenAmount: int, basePrice: int, slope: int)
    requires tokenAmount > 0
    ensures var preview2 := RevenuePreviewDoubled(currentSupply, tokenAmount, basePrice, slope);
            var refund := SellRefund(currentSupply, tokenAmount, basePrice, slope);
            && preview2 == 2 * tokenAmount * basePrice + SellNumerator(currentSupply, tokenAmount, slope)
            && preview2 - 1 <= 2 * refund <= preview2 + 1
            && (2 * refund == preview2 <==> SellNumerator(currentSupply, tokenAmount, slope) % 2 == 0)
  {
    var n := SellNumerator(currentSupply, tokenAmount, slope);
    assert 2 * (currentSupply + tokenAmount) - tokenAmount == 2 * currentSupply + tokenAmount;
    var m := TruncMod(n, 2);
    assert 2 * TruncDiv(n, 2) == n - m;
    assert m == 0 <==> n % 2 == 0;
  }

  lemma SellNumeratorMonotone(held: int, a1: int, a2: int, slope: int)
    requires slope >= 0 && held >= 0 && 0 <= a1 <= a2
    ensures 0 <= SellNumerator(held, a1, slope) <= SellNumerator(held, a2, slope)
  {
    assert slope * a1 >= 0;
    assert (slope * a1) * (2 * held + a1) >= 0;
    var d := a2 - a1;
    assert SellNumerator(held, a2, slope) - SellNumerator(held, a1, slope)
           == slope * (d * (2 * held + a1 + a2));
    assert d * (2 * held + a1 + a2) >= 0;
    assert slope * (d * (2 * held + a1 + a2)) >= 0;
  }

  /** With non-negative parameters the refund is at least the flat price and
      grows with the amount sold. */
  lemma SellRefundBoundedAndMonotone(held: int, a1: int, a2: int, basePrice: int, slope: int)
    requires basePrice >= 0 && slope >= 0 && held >= 0 && 0 <= a1 <= a2
    ensures 0 <= a1 * basePrice <= SellRefund(held, a1, basePrice, slope)
    ensures SellRefund(held, a1, basePrice, slope) <= SellRefund(held, a2, basePrice, slope)
  {
    SellNumeratorMonotone(held, a1, a2, slope);
    HalfMonotone(SellNumerator(held, a1, slope), SellNumerator(held, a2, slope));
    assert a1 * basePrice <= a2 * basePrice by {
      assert a2 * basePrice - a1 * basePrice == (a2 - a1) * basePrice;
    }
  }

  /** Whether a trader UTXO can fund a sale of `amount` tokens of `cat`. */
  predicate CanCover(u: Utxo, cat: string, amount: int) {
    u.token.Some? && u.token.value.category == cat && u.token.value.amount >= amount
  }

  /** The trader UTXO the panel spends: the first one holding at least
      `amount` tokens of the contract's category. */
  function SellerUtxo(userUtxos: seq<Utxo>, cat: string, amount: int): (r: Option<Utxo>)
    ensures r.None? <==> forall u :: u in userUtxos ==> !CanCover(u, cat, amount)
    ensures r.Some? ==> CanCover(r.value, cat, amount)
    ensures r.Some? ==> exists i :: 0 <= i < |userUtxos| && userUtxos[i] == r.value
                                    && forall j :: 0 <= j < i ==> !CanCover(userUtxos[j], cat, amount)
  {
    match FindFirst(userUtxos, (u: Utxo) => CanCover(u, cat, amount))
    case None => None
    case Some(i) => Some(userUtxos[i])
  }

  datatype SellError = NoTokensInContract | NotEnoughSellerTokens | ContractUnderfunded

  /** `handleSell` up to the broadcast. */
  function HandleSell(wallet: Option<Wallet>, tokenAmount: int, basePrice: int, slope: int,
                      contractTokenAddress: string, contractUtxos: seq<Utxo>, userUtxos: seq<Utxo>)
    : (r: Action<SellError>)
    ensures r.Skipped? <==> wallet.None? || tokenAmount <= 0
    ensures r == Failed(NoTokensInContract) <==> !r.Skipped? && StateUtxo(contractUtxos).None?
    ensures r == Failed(NotEnoughSellerTokens) <==>
              && !r.Skipped? && StateUtxo(contractUtxos).Some?
              && SellerUtxo(userUtxos, StateUtxo(contractUtxos).value.token.value.category, tokenAmount).None?
    ensures r == Failed(ContractUnderfunded) <==>
              && !r.Skipped? && StateUtxo(contractUtxos).Some?
              && var c := StateUtxo(contractUtxos).value;
              && SellerUtxo(userUtxos, c.token.value.category, tokenAmount).Some?
              && c.sats - SellRefund(c.token.value.amount, tokenAmount, basePrice, slope) < MinContractBalance
    ensures r.Planned? ==>
              && StateUtxo(contractUtxos).Some?
              && var c := StateUtxo(contractUtxos).value;
              && SellerUtxo(userUtxos, c.token.value.category, tokenAmount).Some?
              && r.plan.inputs == [Input(c, CovenantSell),
                                   Input(SellerUtxo(userUtxos, c.token.value.category, tokenAmount).value, Signature)]
              && 2 <= |r.plan.outputs| <= 3
              && r.plan.outputs[0].to == contractTokenAddress
              && r.plan.outputs[1] == Output(wallet.value.address, r.plan.outputs[1].sats, None)
              && (|r.plan.outputs| == 3 ==> r.plan.outputs[2].to == wallet.value.tokenAddress)
  {
    if wallet.None? || tokenAmount <= 0 then Skipped
    else
      match StateUtxo(contractUtxos)
      case None => Failed(NoTokensInContract)
      case Some(contractTokenUtxo) =>
        var held := contractTokenUtxo.token.value.amount;
        var category := contractTokenUtxo.token.value.category;
        match SellerUtxo(userUtxos, category, tokenAmount)
        case None => Failed(NotEnoughSellerTokens)
        case Some(userTokenUtxo) =>
          var sellAmount := tokenAmount;
          var sellRefund := SellRefund(held, sellAmount, basePrice, slope);
          if contractTokenUtxo.sats - sellRefund < MinContractBalance then Failed(ContractUnderfunded)
          else
            var userToken := userTokenUtxo.token.value;
            var hasRemainingTokens := userToken.amount > sellAmount;
            var outputs := [
              Output(contractTokenAddress, contractTokenUtxo.sats - sellRefund, Some(Token(category, held + sellAmount))),
              Output(wallet.value.address,
                     sellRefund + userTokenUtxo.sats - TxFee - (if hasRemainingTokens then TokenOutputSats else 0),
                     None)
            ];
            var change := Output(wallet.value.tokenAddress, TokenOutputSats,
                                 Some(Token(userToken.category, userToken.amount - sellAmount)));
            Planned(Plan(
              [Input(contractTokenUtxo, CovenantSell), Input(userTokenUtxo, Signature)],
              if hasRemainingTokens then outputs + [change] else outputs))
  }

  /** The contract output of a sale: it keeps at least the dust floor, gains
      exactly the tokens sold, keeps its category, and pays out exactly the
      refund. */
  lemma SellContractOutput(wallet: Option<Wallet>, tokenAmount: int, basePrice: int, slope: int,
                           contractTokenAddress: string, contractUtxos: seq<Utxo>, userUtxos: seq<Utxo>)
    requires HandleSell(wallet, tokenAmount, basePrice, slope, contractTokenAddress, contractUtxos, userUtxos).Planned?
    ensures var p := HandleSell(wallet, tokenAmount, basePrice, slope, contractTokenAddress, contractUtxos, userUtxos).plan;
            var c := StateUtxo(contractUtxos).value;
            && p.outputs[0].sats >= MinContractBalance
            && p.outputs[0].sats == c.sats - SellRefund(c.token.value.amount, tokenAmount, basePrice, slope)
            && p.outputs[0].token == Some(Token(c.token.value.category, c.token.value.amount + tokenAmount))
  {
  }

  /** A token change output exists exactly when the seller's UTXO holds more
      than is sold, and then carries the difference in the same category. */
  lemma SellChangeOutput(wallet: Option<Wallet>, tokenAmount: int, basePrice: int, slope: int,
                         contractTokenAddress: string, contractUtxos: seq<Utxo>, userUtxos: seq<Utxo>)
    requires HandleSell(wallet, tokenAmount, basePrice, slope, contractTokenAddress, contractUtxos, userUtxos).Planned?
    ensures var p := HandleSell(wallet, tokenAmount, basePrice, slope, contractTokenAddress, contractUtxos, userUtxos).plan;
            var u := p.inputs[1].coin.token.value;
            && (|p.outputs| == 3 <==> u.amount > tokenAmount)
            && (|p.outputs| == 3 ==> p.outputs[2].token == Some(Token(u.category, u.amount - tokenAmount))
                                     && p.outputs[2].sats == TokenOutputSats)
            && (|p.outputs| == 2 ==> u.amount == tokenAmount)
  {
  }

  /** No token is created or destroyed by a sale, whether or not there is a
      change output. */
  lemma SellConservesTokens(wallet: Option<Wallet>, tokenAmount: int, basePrice: int, slope: int,
                            contractTokenAddress: string, contractUtxos: seq<Utxo>, userUtxos: seq<Utxo>)
    requires HandleSell(wallet, tokenAmount, basePrice, slope, contractTokenAddress, contractUtxos, userUtxos).Planned?
    ensures ConservesTokens(HandleSell(wallet, tokenAmount, basePrice, slope,
                                       contractTokenAddress, contractUtxos, userUtxos).plan)
  {
    var p := HandleSell(wallet, tokenAmount, basePrice, slope, contractTokenAddress, contractUtxos, userUtxos).plan;
    forall cat: string
      ensures TokensIn(p, cat) == TokensOut(p, cat)
    {
      var fi := (i: Input) => AmountOf(i.coin.token, cat);
      var fo := (o: Output) => AmountOf(o.token, cat);
      SumTwo(p.inputs[0], p.inputs[1], fi);
      if |p.outputs| == 3 {
        assert p.outputs == [p.outputs[0], p.outputs[1], p.outputs[2]];
        SumThree(p.outputs[0], p.outputs[1], p.outputs[2], fo);
      } else {
        assert p.outputs == [p.outputs[0], p.outputs[1]];
        SumTwo(p.outputs[0], p.outputs[1], fo);
      }
    }
  }

  /** Value: the outputs carry exactly the inputs' sats minus the fixed fee,
      whether or not there is a change output. */
  lemma SellPaysFixedFee(wallet: Option<Wallet>, tokenAmount: int, basePrice: int, slope: int,
                         contractTokenAddress: string, contractUtxos: seq<Utxo>, userUtxos: seq<Utxo>)
    requires HandleSell(wallet, tokenAmount, basePrice, slope, contractTokenAddress, contractUtxos, userUtxos).Planned?
    ensures var p := HandleSell(wallet, tokenAmount, basePrice, slope, contractTokenAddress, contractUtxos, userUtxos).plan;
            SatsOut(p) == SatsIn(p) - TxFee
  {
    var p := HandleSell(wallet, tokenAmount, basePrice, slope, contractTokenAddress, contractUtxos, userUtxos).plan;
    var fi := (i: Input) => i.coin.sats;
    var fo := (o: Output) => o.sats;
    SumTwo(p.inputs[0], p.inputs[1], fi);
    if |p.outputs| == 3 {
      assert p.outputs == [p.outputs[0], p.outputs[1], p.outputs[2]];
      SumThree(p.outputs[0], p.outputs[1], p.outputs[2], fo);
    } else {
      assert p.outputs == [p.outputs[0], p.outputs[1]];
      SumTwo(p.outputs[0], p.outputs[1], fo);
    }
  }

  /** Nothing checks the seller's payout: selling one of the two tokens
      of a 1000-sat trader UTXO to a contract holding none gives a
      refund of 100 sats and a payout of -900 sats (with a change output:
      100 + 1000 - 1000 - 1000). */
  lemma SellPayoutCanBeNegative()
    ensures var r := HandleSell(Some(Wallet("q", "z")), 1, 100, 1, "p",
                                [Utxo(5000, Some(Token("c", 0)))],
                                [Utxo(1000, Some(Token("c", 2)))]);
            r.Planned? && r.plan.outputs[1].sats == -900
  {
    var c := Utxo(5000, Some(Token("c", 0)));
    var u := Utxo(1000, Some(Token("c", 2)));
    assert StateUtxo([c]) == Some(c);
    assert SellerUtxo([u], "c", 1) == Some(u);
    assert SellRefund(0, 1, 100, 1) == 100;
  }
}
