/** The client-side registry of launched tokens: the fixed curve every
    launch uses, the seeded demo list, and the upsert and lookup by
    category id. Browser storage is a value passed in and returned. */
module TokenStore {
  import opened Results
  import opened Seqs
  import opened JsArith
  import opened BondingCurve

  /** The fixed curve of every launch. */
  const CurveTotalSupply: int := 10_000
  const CurveBasePrice: int := 100
  const CurveSlope: int := 1

  /** A token's logo: a stored URL, or the generated gradient badge (the
      rendered SVG data URL is replaced by what it is drawn from). */
  datatype Logo = LogoUrl(url: string) | Badge(initials: string, hue: int, hue2: int)

  datatype LaunchedToken = LaunchedToken(
    categoryId: string,
    name: string,
    symbol: string,
    description: string,
    totalSupply: int,
    basePrice: int,
    slope: int,
    contractAddress: string,
    tokenAddress: string,
    creatorAddress: string,
    createdAt: int,
    logo: Option<Logo>)

  /** What `localStorage.getItem` yields under the store's key, as far as
      the store can tell after `JSON.parse`. */
  datatype StoredItem = Missing | Unparsable | Parsed(tokens: seq<LaunchedToken>)

  /** Server-side rendering has no `window`; in a browser there is an item. */
  datatype Storage = NoWindow | Browser(item: StoredItem)

  datatype StoreError = NoLocalStorage

  /** `makeLogo`: the second hue is the first turned by 40 degrees. */
  function MakeLogo(initials: string, hue: int): (l: Logo)
    requires 0 <= hue < 360
    ensures l.Badge? && l.initials == initials && l.hue == hue
    ensures 0 <= l.hue2 < 360 && (l.hue2 - hue - 40) % 360 == 0
  {
    Badge(initials, hue, TruncMod(hue + 40, 360))
  }

  /** One hour in milliseconds, the unit the seeded creation times use. */
  const HourMs: int := 3_600_000

  function Seeded(categoryId: string, name: string, symbol: string, description: string,
                  createdAt: int, logo: Logo): LaunchedToken
  {
    LaunchedToken(categoryId, name, symbol, description,
                  CurveTotalSupply, CurveBasePrice, CurveSlope,
                  "bchtest:p...", "bchtest:r...", "bchtest:q...", createdAt, Some(logo))
  }

  /** The demo tokens shown when nothing is stored, dated relative to `now`. */
  function SeededTokens(now: int): seq<LaunchedToken>
  {
    [ Seeded("demo-cashcat", "CashCat", "CCAT",
             "The first meme token on CashLaunch. Cats love BCH.",
             now - HourMs * 24, MakeLogo("CC", 15)),
      Seeded("demo-greenbch", "GreenBCH", "GBCH",
             "Eco-friendly token for the Bitcoin Cash ecosystem.",
             now - HourMs * 12, MakeLogo("GB", 140)),
      Seeded("demo-chipnet", "ChipNet OG", "CHIP",
             "For the OG testnet degens. Built different.",
             now - HourMs * 6, MakeLogo("CH", 260)),
      Seeded("demo-bchbuilder", "BCH Builder", "BLDR",
             "Supporting builders in the Bitcoin Cash community.",
             now - HourMs * 2, MakeLogo("BL", 30)),
      Seeded("demo-satoshi", "Satoshi Vision", "SATO",
             "Peer-to-peer electronic cash. The original vision.",
             now - HourMs, MakeLogo("SV", 200)) ]
  }

  /** `getTokens`. */
  function GetTokens(storage: Storage, now: int): seq<LaunchedToken>
  {
    match storage
    case NoWindow => []
    case Browser(Missing) => SeededTokens(now)
    case Browser(Unparsable) => SeededTokens(now)
    case Browser(Parsed(tokens)) => tokens
  }

  predicate HasId(t: LaunchedToken, categoryId: string) {
    t.categoryId == categoryId
  }

  /** Position of the first entry with the given category id. */
  function IndexOfId(tokens: seq<LaunchedToken>, categoryId: string): Option<nat> {
    FindFirst(tokens, (t: LaunchedToken) => HasId(t, categoryId))
  }

  /** The list `saveToken` writes back: the first entry with the token's
      category id is replaced in place; otherwise the token is prepended. */
  function Upsert(tokens: seq<LaunchedToken>, token: LaunchedToken): (r: seq<LaunchedToken>)
    ensures IndexOfId(tokens, token.categoryId).Some? ==>
              && |r| == |tokens|
              && var i := IndexOfId(tokens, token.categoryId).value;
              && r[i] == token
              && forall j :: 0 <= j < |tokens| && j != i ==> r[j] == tokens[j]
    ensures IndexOfId(tokens, token.categoryId).None? ==>
              |r| == |tokens| + 1 && r[0] == token && r[1..] == tokens
  {
    match IndexOfId(tokens, token.categoryId)
    case Some(existing) => tokens[existing := token]
    case None => [token] + tokens
  }

  /** `find` by category id: the first entry with the id. */
  function Lookup(tokens: seq<LaunchedToken>, categoryId: string): (r: Option<LaunchedToken>)
    ensures r.None? <==> forall t :: t in tokens ==> !HasId(t, categoryId)
    ensures r.Some? ==> HasId(r.value, categoryId) && r.value in tokens
    ensures r.Some? ==>
              exists i :: 0 <= i < |tokens| && tokens[i] == r.value &&
                          forall j :: 0 <= j < i ==> !HasId(tokens[j], categoryId)
  {
    match IndexOfId(tokens, categoryId)
    case None => None
    case Some(i) => Some(tokens[i])
  }

  /** `saveToken`: read the list, upsert, write it back. Without a window
      the write throws. After a save, reading the token's id back, at any
      later time, finds the token, and every other id reads as it did
      before the save. */
  function SaveToken(storage: Storage, now: int, token: LaunchedToken): (r: Result<Storage, StoreError>)
    ensures r.Err? <==> storage.NoWindow?
    ensures r.Ok? ==> r.value.Browser? && r.value.item.Parsed?
    ensures r.Ok? ==> forall later :: GetTokenById(r.value, later, token.categoryId) == Some(token)
    ensures r.Ok? ==>
              forall id, later :: id != token.categoryId ==>
                GetTokenById(r.value, later, id) == GetTokenById(storage, now, id)
  {
    match storage
    case NoWindow => Err(NoLocalStorage)
    case Browser(_) =>
      var tokens := GetTokens(storage, now);
      LookupAfterUpsert(tokens, token);
      UpsertKeepsEveryOther(tokens, token);
      Ok(Browser(Parsed(Upsert(tokens, token))))
  }

  /** `getTokenById`. */
  function GetTokenById(storage: Storage, now: int, categoryId: string): Option<LaunchedToken> {
    Lookup(GetTokens(storage, now), categoryId)
  }

  /** After an upsert, looking the token's id up finds exactly that token. */
  lemma LookupAfterUpsert(tokens: seq<LaunchedToken>, token: LaunchedToken)
    ensures Lookup(Upsert(tokens, token), token.categoryId) == Some(token)
  {
    var id := token.categoryId;
    var p := (t: LaunchedToken) => HasId(t, id);
    var r := Upsert(tokens, token);
    match IndexOfId(tokens, id)
    case Some(i) =>
      var k := IndexOfId(r, id);
      assert p(r[i]);
      assert k.Some? && k.value <= i;
    case None =>
      assert r == [token] + tokens;
      FindFirstPrepend(token, tokens, p);
  }

  /** Entries under other category ids are found exactly as before. */
  lemma UpsertKeepsOthers(tokens: seq<LaunchedToken>, token: LaunchedToken, categoryId: string)
    requires categoryId != token.categoryId
    ensures Lookup(Upsert(tokens, token), categoryId) == Lookup(tokens, categoryId)
  {
    var p := (t: LaunchedToken) => HasId(t, categoryId);
    var r := Upsert(tokens, token);
    match IndexOfId(tokens, token.categoryId)
    case Some(i) =>
      assert forall j :: 0 <= j < |r| ==> p(r[j]) == p(tokens[j]);
      FindFirstAgree(r, tokens, p);
      if IndexOfId(r, categoryId).Some? {
        var k := IndexOfId(r, categoryId).value;
        assert k != i;
      }
    case None =>
      assert r == [token] + tokens;
      FindFirstPrepend(token, tokens, p);
  }

  /** `UpsertKeepsOthers` for every other id at once. */
  lemma UpsertKeepsEveryOther(tokens: seq<LaunchedToken>, token: LaunchedToken)
    ensures forall id :: id != token.categoryId ==>
              Lookup(Upsert(tokens, token), id) == Lookup(tokens, id)
  {
    forall id | id != token.categoryId
      ensures Lookup(Upsert(tokens, token), id) == Lookup(tokens, id)
    {
      UpsertKeepsOthers(tokens, token, id);
    }
  }

  /** No two entries share a category id. */
  predicate DistinctIds(tokens: seq<LaunchedToken>) {
    forall i, j :: 0 <= i < j < |tokens| ==> tokens[i].categoryId != tokens[j].categoryId
  }

  /** Upserting keeps category ids distinct. */
  lemma UpsertKeepsIdsDistinct(tokens: seq<LaunchedToken>, token: LaunchedToken)
    requires DistinctIds(tokens)
    ensures DistinctIds(Upsert(tokens, token))
  {
    var r := Upsert(tokens, token);
    match IndexOfId(tokens, token.categoryId)
    case Some(i) =>
      assert forall j :: 0 <= j < |r| ==> r[j].categoryId == tokens[j].categoryId;
    case None =>
      assert forall j :: 0 <= j < |tokens| ==> !HasId(tokens[j], token.categoryId);
      assert forall j :: 1 <= j < |r| ==> r[j] == tokens[j - 1];
  }

  /** Saving the same token twice leaves the list as saving it once. */
  lemma UpsertIdempotent(tokens: seq<LaunchedToken>, token: LaunchedToken)
    ensures Upsert(Upsert(tokens, token), token) == Upsert(tokens, token)
  {
    var id := token.categoryId;
    var p := (t: LaunchedToken) => HasId(t, id);
    var r := Upsert(tokens, token);
    match IndexOfId(tokens, id)
    case Some(i) =>
      assert forall j :: 0 <= j < |r| ==> p(r[j]) == p(tokens[j]);
      FindFirstAgree(r, tokens, p);
      assert r[i := token] == r;
    case None =>
      assert r == [token] + tokens;
      FindFirstPrepend(token, tokens, p);
      assert r[0 := token] == r;
  }

  /** Saving then reading back through storage finds the saved token, from
      any prior storage content. */
  lemma SaveThenGetById(storage: Storage, now: int, later: int, token: LaunchedToken)
    requires storage.Browser?
    ensures SaveToken(storage, now, token).Ok?
    ensures GetTokenById(SaveToken(storage, now, token).value, later, token.categoryId) == Some(token)
  {
    LookupAfterUpsert(GetTokens(storage, now), token);
  }

  /** Empty or unparsable storage reads as the seeded tokens, parsed
      storage as what it holds, and server-side rendering as nothing. */
  lemma StorageFallback(storage: Storage, now: int)
    ensures storage.NoWindow? ==> GetTokens(storage, now) == []
    ensures storage.Browser? && !storage.item.Parsed? ==> GetTokens(storage, now) == SeededTokens(now)
    ensures storage.Browser? && storage.item.Parsed? ==> GetTokens(storage, now) == storage.item.tokens
  {
  }

  /** The five seeded tokens all carry the fixed curve, have distinct ids,
      and were created whole hours before `now`. */
  lemma SeededTokensUseCurve(now: int)
    ensures |SeededTokens(now)| == 5
    ensures forall t :: t in SeededTokens(now) ==>
              && t.totalSupply == CurveTotalSupply && t.basePrice == CurveBasePrice && t.slope == CurveSlope
              && t.createdAt < now && (now - t.createdAt) % HourMs == 0
    ensures DistinctIds(SeededTokens(now))
  {
  }

  /** Buying the whole supply from a full contract costs 51,000,000 sats
      (about 0.51 BCH), as the curve's description says. */
  lemma CurveFigures()
    ensures BuyCost(CurveTotalSupply, CurveTotalSupply, CurveBasePrice, CurveSlope) == 51_000_000
  {
    assert BuyNumerator(CurveTotalSupply, CurveTotalSupply, CurveSlope) == 100_000_000;
  }

  /** The single-token prices run the other way from the described start
      price of 100 and end price of 10,100: the first token, from a full
      contract, costs 10,099 sats and the last, from a contract holding one,
      costs the base price of 100. */
  lemma CurveSingleTokenPrices()
    ensures BuyCost(CurveTotalSupply, 1, CurveBasePrice, CurveSlope) == 10_099
    ensures BuyCost(1, 1, CurveBasePrice, CurveSlope) == CurveBasePrice
  {
    calc {
      BuyCost(CurveTotalSupply, 1, CurveBasePrice, CurveSlope);
      CurveBasePrice + TruncDiv(BuyNumerator(CurveTotalSupply, 1, CurveSlope), 2);
      { assert BuyNumerator(CurveTotalSupply, 1, CurveSlope) == 19_999; }
      100 + TruncDiv(19_999, 2);
      { TruncDivOfNonNegative(19_999, 2); }
      10_099;
    }
    calc {
      BuyCost(1, 1, CurveBasePrice, CurveSlope);
      CurveBasePrice + TruncDiv(BuyNumerator(1, 1, CurveSlope), 2);
      { assert BuyNumerator(1, 1, CurveSlope) == 1; }
      100 + TruncDiv(1, 2);
      { TruncDivOfNonNegative(1, 2); }
      CurveBasePrice;
    }
  }

  /** The price is anchored at the tokens the contract holds, so the first
      ten tokens bought from a full contract cost 10 * 100 + 1 * 10 * 19,990 / 2
      = 100,950 sats, not the 1,050 a curve rising with tokens sold would
      charge. */
  lemma CurveFirstTenTokens()
    ensures BuyCost(CurveTotalSupply, 10, CurveBasePrice, CurveSlope) == 100_950
  {
    assert BuyNumerator(CurveTotalSupply, 10, CurveSlope) == 199_900;
  }
}
