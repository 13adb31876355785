# CashLaunch bonding-curve trading, modelled in Dafny

CashLaunch lets a creator mint a fungible CashToken on Bitcoin Cash and sell
it from a covenant contract along a linear bonding curve. This project models
the client side of that trading: the price formula, and the transaction plans
the client hands to the transaction builder for a buy, a sell and a creator
withdrawal. It also models the client-side token registry and the two computed
values on a token card.

Every trade is a pure function here. It takes the contract's UTXO list, the
trader's UTXO list, an amount and the curve parameters `(basePrice, slope)`,
and returns an error or a `Plan`: the inputs spent, with how each is unlocked,
and the outputs created, in order. Broadcasting the plan is not modelled.
Arithmetic is on unbounded `int`, as on the source's `bigint`. `TruncDiv` and
`TruncMod` give JavaScript's truncating division and remainder. `ToInt32`
gives the wrap-around of the bitwise operators.

Modules (one per source file, plus shared helpers):

- `JsArith`: JavaScript integer semantics (truncating `/` and `%`, ToInt32, `<<`).
- `Results`, `Seqs`: `Option`/`Result`; `FindFirst` (the `find`/`findIndex` idiom) and sums.
- `Ledger`: `Token`, `Utxo`, `Input`, `Output`, `Plan`, `Wallet`, the state-UTXO pick, and value and token totals.
- `BondingCurve`: `calculateBuyCost`, `buyTokens`, `withdrawFromContract` (src/lib/bch/bonding-curve.ts).
- `BuyPanel`, `SellPanel`: the two trading panels' previews and click handlers.
- `TokenStore`: the fixed curve, the seeded demo list, upsert and lookup (src/lib/token-store.ts).
- `TokenCard`: `timeAgo` and the category-id hash behind the progress figure.

The source's gaps are modelled as written, and lemmas exhibit them:

- A buy plan has no input from the buyer. Its outputs exceed its one input by
  exactly `cost + 1000` sats (`BondingCurve.BuyPlanValueGap`).
- `buyTokens` accepts zero and negative amounts
  (`BondingCurve.BuyTokensAcceptsNegativeAmount`).
- The buy panel never checks the amount against the contract's holding. Its
  plan can give the contract a negative token amount
  (`BuyPanel.HandleBuyLacksSupplyGuard`).
- Nothing checks the sell panel's payout output. It can be negative
  (`SellPanel.SellPayoutCanBeNegative`: a payout of -900 sats).
- The state UTXO is the first token-bearing UTXO. Its category is not checked
  and neither is whether more than one UTXO qualifies (`Ledger.StateUtxo`).

The program's comments and charts disagree with its price formula. The
`CURVE` comment in src/lib/token-store.ts:10-12 describes a price that rises
with tokens sold, from 100 sats to 10,100 sats. The bonding-curve chart
(src/components/BondingCurveChart.tsx:37-38) and the token card
(src/components/TokenCard.tsx:32-34) draw it the same way. But
`calculateBuyCost` (src/lib/bch/bonding-curve.ts:85-87) prices from the
tokens the contract holds (`2·held − amount`). So the single-token prices run
the other way: the first token from a full contract costs 10,099 sats and the
last costs 100 (`TokenStore.CurveSingleTokenPrices`). The first ten tokens
cost 100,950 sats, not the 1,050 a price rising with tokens sold would charge
(`TokenStore.CurveFirstTenTokens`). The whole supply still costs 51,000,000
sats either way (`TokenStore.CurveFigures`). The model follows
`calculateBuyCost`.

## Model

| member | source | states |
|---|---|---|
| JsArith.TruncDiv | src/lib/bch/bonding-curve.ts:98-99 | the `bigint` quotient's magnitude is the floor of the magnitude, with the dividend's sign |
| JsArith.TruncDivOfNonNegative | src/lib/bch/bonding-curve.ts:98-99 | truncating and floor division agree when the numerator is non-negative |
| JsArith.TruncDivOdd | src/lib/bch/bonding-curve.ts:98-99 | truncating division is symmetric in the numerator's sign, unlike Euclidean division |
| JsArith.TruncMod | src/components/TokenCard.tsx:30 | the JavaScript remainder has the dividend's sign and lies strictly within ±divisor |
| JsArith.ToInt32 | src/components/TokenCard.tsx:29 | the bitwise-or with zero is the unique signed 32-bit value congruent to `x` modulo 2^32 |
| JsArith.ShiftLeftCongruent | src/components/TokenCard.tsx:29 | `a << n` is congruent to `a·2^n` modulo 2^32 |
| Seqs.FindFirst | src/lib/bch/bonding-curve.ts:114 | `find` returns the first index whose element satisfies the predicate, or nothing if none does |
| Ledger.StateUtxo | src/lib/bch/bonding-curve.ts:113-118 | the state UTXO is the first token-bearing UTXO; there is none exactly when no UTXO carries a token |
| BondingCurve.BuyCostIsFloor | src/lib/bch/bonding-curve.ts:98-99 | when `0 ≤ amount ≤ 2·held` and `slope ≥ 0`, the truncated price equals the floored one |
| BondingCurve.BuyCostLowerBound | src/lib/bch/bonding-curve.ts:92-100 | for `basePrice, slope ≥ 0` and `0 ≤ amount ≤ held`, `0 ≤ amount·basePrice ≤ cost` |
| BondingCurve.BuyCostMonotone | src/lib/bch/bonding-curve.ts:92-100 | on `0..held`, buying more never costs less |
| BondingCurve.BuyCostStrictlyMonotone | src/lib/bch/bonding-curve.ts:92-100 | with a positive base price, buying more costs strictly more |
| BondingCurve.BuyCostFlatWithoutSlope | src/lib/bch/bonding-curve.ts:98-99 | with slope 0 the price is `amount·basePrice` |
| BondingCurve.PlanBuyTokens | src/lib/bch/bonding-curve.ts:108-157 | no token UTXO gives an error; otherwise it fails exactly when `amount > held`, so a buy-out is accepted; a success is the buy plan with the curve price and a non-negative remainder |
| BondingCurve.BuyPlanConservesTokens | src/lib/bch/bonding-curve.ts:134-157 | for the plan of either buy path (`PlanBuyTokens`, `HandleBuy`), every category's token total is the same in inputs and outputs; remainder plus bought equals held; both outputs keep the input's category |
| BondingCurve.BuyPlanValueGap | src/lib/bch/bonding-curve.ts:136-157 | one input and two outputs; output sats exceed input sats by exactly `cost + 1000` |
| BondingCurve.BuyTokensBuyOut | src/lib/bch/bonding-curve.ts:120-125 | buying exactly the held amount succeeds and leaves zero tokens; one more fails with the not-enough-tokens error |
| BondingCurve.BuyTokensAcceptsNegativeAmount | src/lib/bch/bonding-curve.ts:120-125 | a negative amount is planned: the buyer gets negative tokens and the contract more than it held |
| BondingCurve.PlanWithdraw | src/lib/bch/bonding-curve.ts:168-191 | fails exactly when no UTXO carries a token; otherwise spends the state UTXO via `withdraw` into one output at the creator's token address |
| BondingCurve.WithdrawMovesEverything | src/lib/bch/bonding-curve.ts:182-191 | the output carries exactly the input's sats and token payload; tokens are conserved per category |
| BuyPanel.PreviewWithinHalfSat | src/components/BuyPanel.tsx:30-34 | twice the preview is within 1 of twice the on-chain price, and equal exactly when the slope numerator is even |
| BuyPanel.PreviewOfNonPositiveAmount | src/components/BuyPanel.tsx:30-34 | the preview is 0 for a non-positive amount |
| BuyPanel.QuickAmount | src/components/BuyPanel.tsx:122 | a quick button sets `min(q, supply)`, never more than the supply |
| BuyPanel.MaxAmount | src/components/BuyPanel.tsx:129 | MAX's amount never exceeds the supply (`ButtonAmountsAccepted` shows `buyTokens` accepts it) |
| BuyPanel.ButtonAmountsAccepted | src/components/BuyPanel.tsx:119-133 | when the panel's supply is the state UTXO's holding, every button amount passes the supply check of `buyTokens` |
| BuyPanel.HandleBuy | src/components/BuyPanel.tsx:37-87 | returns early exactly without a wallet or for a non-positive amount; fails exactly when no UTXO carries a token; its inline price is `calculateBuyCost` of the state UTXO's holding |
| BuyPanel.HandleBuyAgreesWithBuyTokens | src/components/BuyPanel.tsx:56-87 | within supply, the panel's plan is exactly the plan of `buyTokens` |
| BuyPanel.HandleBuyLacksSupplyGuard | src/components/BuyPanel.tsx:61-62 | above supply, `buyTokens` refuses but the panel plans a negative contract token amount |
| SellPanel.RoundTrip | src/components/SellPanel.tsx:76-81 | the refund at holding `held − a` equals the buy price of `a` at `held`, truncation included, and conversely |
| SellPanel.RevenuePreviewWithinHalfSat | src/components/SellPanel.tsx:31-36 | the preview's numerator `2(S+a) − a` is the refund's `2S + a`; twice the preview is within 1 of twice the refund |
| SellPanel.SellRefundBoundedAndMonotone | src/components/SellPanel.tsx:76-81 | for non-negative holding and parameters, the refund is at least `a·basePrice ≥ 0` and grows with `a` |
| SellPanel.SellerUtxo | src/components/SellPanel.tsx:64-73 | picks the first trader UTXO holding at least the amount in the contract's category; none exactly when no UTXO qualifies |
| SellPanel.HandleSell | src/components/SellPanel.tsx:39-124 | returns early, or fails for no contract tokens, too few trader tokens or a contract left under 1000 sats, each exactly when its condition holds; a plan spends the state and trader UTXOs and has 2 or 3 outputs |
| SellPanel.SellContractOutput | src/components/SellPanel.tsx:83-103 | the contract output keeps at least 1000 sats, pays out exactly the refund, and gains the sold tokens in its own category |
| SellPanel.SellChangeOutput | src/components/SellPanel.tsx:114-124 | a token-change output exists exactly when the trader UTXO holds more than is sold, and carries the difference |
| SellPanel.SellConservesTokens | src/components/SellPanel.tsx:92-124 | every category's token total is the same in inputs and outputs, with or without change |
| SellPanel.SellPaysFixedFee | src/components/SellPanel.tsx:90-124 | output sats are input sats minus exactly the 1000-sat fee, with or without change |
| SellPanel.SellPayoutCanBeNegative | src/components/SellPanel.tsx:105-111 | a concrete sale whose payout output is −900 sats is planned |
| TokenStore.MakeLogo | src/lib/token-store.ts:60-64 | the badge's second hue is the first turned by 40 degrees, in `0..359` |
| TokenStore.Upsert | src/lib/token-store.ts:44-53 | an entry with the id is replaced in place at the first such index, length unchanged; otherwise the token is prepended ahead of the old entries in order |
| TokenStore.Lookup | src/lib/token-store.ts:55-57 | finds the first entry with the id, or nothing exactly when no entry has it |
| TokenStore.SaveToken | src/lib/token-store.ts:44-57 | the save fails exactly when there is no window; after a save, `getTokenById` of the token's id returns the token at any later time, and every other id reads as it did before the save |
| TokenStore.LookupAfterUpsert | src/lib/token-store.ts:44-57 | after upserting a token, looking up its id returns that token |
| TokenStore.UpsertKeepsOthers | src/lib/token-store.ts:44-57 | lookups of every other id are unchanged by an upsert |
| TokenStore.UpsertKeepsEveryOther | src/lib/token-store.ts:44-57 | the same, for all other ids at once |
| TokenStore.UpsertKeepsIdsDistinct | src/lib/token-store.ts:44-53 | pairwise distinct ids stay distinct |
| TokenStore.UpsertIdempotent | src/lib/token-store.ts:44-53 | saving the same token twice gives the list saving it once gives |
| TokenStore.SaveThenGetById | src/lib/token-store.ts:44-57 | after `saveToken(t)` in a browser, `getTokenById(t.categoryId)` returns `t`, from any prior storage |
| TokenStore.StorageFallback | src/lib/token-store.ts:33-42 | missing or unparsable storage reads as the seeded list; parsed storage as its content; no window as empty |
| TokenStore.SeededTokensUseCurve | src/lib/token-store.ts:67-129 | five seeded tokens, all on the fixed curve, with distinct ids, created whole hours before now |
| TokenStore.CurveFigures | src/lib/token-store.ts:7-14 | buying the whole 10,000-token supply from a full contract costs 51,000,000 sats, as the `CURVE` comment says |
| TokenStore.CurveSingleTokenPrices | src/lib/token-store.ts:10-12 | the first token from a full contract costs 10,099 sats and the last costs 100: the reverse of the comment's start price 100 and end price 10,100 |
| TokenStore.CurveFirstTenTokens | src/lib/bch/bonding-curve.ts:82-100 | the first ten tokens from a full contract cost 100,950 sats under the held-tokens anchor |
| TokenCard.TimeAgo | src/components/TokenCard.tsx:14-23 | just now exactly when under a minute has passed, future times included; otherwise minutes 1..59, hours 1..23 or days ≥ 1, each the floor of the elapsed time in that unit |
| TokenCard.CodeUnits | src/components/TokenCard.tsx:27-29 | the UTF-16 code units of the id, each below 2^16; one per character when all are in the Basic Multilingual Plane |
| TokenCard.HashCode | src/components/TokenCard.tsx:27-29 | the folded hash is a signed 32-bit integer |
| TokenCard.HashStepIsTimes31Plus | src/components/TokenCard.tsx:28-29 | each fold step equals `31·a + c` wrapped to int32 |
| TokenCard.HashCodeIsWrappedPolyHash | src/components/TokenCard.tsx:27-29 | the folded hash equals the unbounded polynomial hash wrapped once to int32 |
| TokenCard.Progress | src/components/TokenCard.tsx:30 | the progress figure lies in `5..54` for every category id |

## Left out

- Ledger and network I/O (`getUtxos`, `tx.send`, the Electrum provider). UTXO lists are parameters and a plan is the result.
- Contract instantiation and addresses (`createBondingCurve`, `compileFile`, the panels building the contract from the connected wallet's key hash). Contract and wallet addresses are parameters.
- `createTokenSale` and the covenant script itself. Only what the client computes and checks is modelled, not what the script enforces.
- Keys and signatures. A trader input is marked `Signature` and a withdrawal `CovenantWithdraw`. The signature template is not modelled.
- Floating point. The previews are modelled doubled, as exact integers. Rounding of JavaScript numbers above 2^53 is not modelled, and neither are `cost / 1e8`, `toFixed` or the per-token average.
- NFT payloads. `Token` carries only a category and an amount. Every output payload the client builds is `{amount, category}` (src/lib/bch/bonding-curve.ts:145-148 and 187-190, src/components/SellPanel.tsx:99-102 and 119-122), which would drop an NFT on a spent UTXO. That loss is not modelled.
- Parsing the amount field (`parseInt(amount) || 0`). The amount is an integer parameter.
- React state: loading flags, error and transaction-id strings, `onBuy`/`onSell` callbacks. Error messages become error constructors.
- UI-only branches: demo-token and not-connected buttons, the `min`/`max` attributes of the input. The sell panel's quick buttons set `q` unclamped and are not modelled.
- TokenStore.MakeLogo: the SVG text and `encodeURIComponent` are not modelled. A generated logo is represented by its initials and two hues.
- JSON (de)serialisation of the stored list. Storage is `Missing`, `Unparsable` or `Parsed(list)`. Valid JSON that is not a token list is not modelled.
- TokenCard.TimeAgo: `Math.floor(diff / 60000)` is modelled as exact floor division of integers. Double rounding of the quotient is not modelled.
- `formatNumber`, the estimated-sold and market-cap figures, the card's hue, and the chart's sampled points. These are floating-point display.
- `Date.now`. The current time is the `now` parameter.
- Staleness between the panel's supply prop and the UTXOs fetched at click time. This is a race with the ledger, not sequential logic.
