/** The query-option enums of the client (`model/queryparams.rs`) and the
    wire tokens their `get_string` maps them to. The price-window mapping is
    reproduced exactly as written: `Days30` and `Days14` share "14d", and
    `Days200` is sent as "30d". */
module QueryParams {
  import opened Optional

  // ---------------------------------------------------------------------
  // TrustOrder: ordering of ticker lists
  // ---------------------------------------------------------------------

  datatype TrustOrder = TrustScoreDesc | TrustScoreAsc | VolumeDesc

  /** `TrustOrder::get_string`. */
  function TrustOrderString(o: TrustOrder): string
  {
    match o
    case TrustScoreDesc => "trust_score_desc"
    case TrustScoreAsc => "trust_score_asc"
    case VolumeDesc => "volume_desc"
  }

  function ParseTrustOrder(s: string): Option<TrustOrder>
  {
    if s == "trust_score_desc" then Some(TrustScoreDesc)
    else if s == "trust_score_asc" then Some(TrustScoreAsc)
    else if s == "volume_desc" then Some(TrustOrder.VolumeDesc)
    else None
  }

  /** The three tokens are distinct, and a token names exactly one ordering. */
  lemma TrustOrderTokens(a: TrustOrder, b: TrustOrder, s: string)
    ensures ParseTrustOrder(TrustOrderString(a)) == Some(a)
    ensures TrustOrderString(a) == TrustOrderString(b) ==> a == b
    ensures ParseTrustOrder(s) == Some(a) ==> TrustOrderString(a) == s
    ensures TrustOrderString(a) in {"trust_score_desc", "trust_score_asc", "volume_desc"}
  {
  }

  // ---------------------------------------------------------------------
  // MarketOrder: ordering of the market snapshot list
  // ---------------------------------------------------------------------

  datatype MarketOrder =
    | MarketCapDesc | MarketCapAsc
    | GeckoDesc | GeckoAsc
    | VolumeAsc | VolumeDesc
    | IdAsc | IdDesc

  /** `MarketOrder::get_string`. */
  function MarketOrderString(o: MarketOrder): string
  {
    match o
    case MarketCapDesc => "market_cap_desc"
    case MarketCapAsc => "market_cap_asc"
    case GeckoDesc => "gecko_desc"
    case GeckoAsc => "gecko_asc"
    case VolumeAsc => "volume_asc"
    case VolumeDesc => "volume_desc"
    case IdAsc => "id_asc"
    case IdDesc => "id_desc"
  }

  function ParseMarketOrder(s: string): Option<MarketOrder>
  {
    if s == "market_cap_desc" then Some(MarketCapDesc)
    else if s == "market_cap_asc" then Some(MarketCapAsc)
    else if s == "gecko_desc" then Some(GeckoDesc)
    else if s == "gecko_asc" then Some(GeckoAsc)
    else if s == "volume_asc" then Some(VolumeAsc)
    else if s == "volume_desc" then Some(MarketOrder.VolumeDesc)
    else if s == "id_asc" then Some(IdAsc)
    else if s == "id_desc" then Some(IdDesc)
    else None
  }

  /** The eight tokens are pairwise distinct, and a token names exactly one
      ordering. */
  lemma MarketOrderTokens(a: MarketOrder, b: MarketOrder, s: string)
    ensures ParseMarketOrder(MarketOrderString(a)) == Some(a)
    ensures MarketOrderString(a) == MarketOrderString(b) ==> a == b
    ensures ParseMarketOrder(s) == Some(a) ==> MarketOrderString(a) == s
    ensures MarketOrderString(a) in
      {"market_cap_desc", "market_cap_asc", "gecko_desc", "gecko_asc",
       "volume_asc", "volume_desc", "id_asc", "id_desc"}
  {
  }

  // ---------------------------------------------------------------------
  // PriceChange: price-change windows
  // ---------------------------------------------------------------------

  datatype PriceChange = Hours1 | Hours24 | Days7 | Days14 | Days30 | Days200 | Years1

  /** `PriceChange::get_string`, as written. */
  function PriceChangeString(p: PriceChange): string
  {
    match p
    case Hours1 => "1h"
    case Hours24 => "24h"
    case Days7 => "7d"
    case Days30 => "14d"
    case Days200 => "30d"
    case Years1 => "1y"
    case Days14 => "14d"
  }

  /** The variant a token is read back as; "14d" reads as `Days14`. */
  function ParsePriceChange(s: string): Option<PriceChange>
  {
    if s == "1h" then Some(Hours1)
    else if s == "24h" then Some(Hours24)
    else if s == "7d" then Some(Days7)
    else if s == "14d" then Some(Days14)
    else if s == "30d" then Some(Days200)
    else if s == "1y" then Some(Years1)
    else None
  }

  /** Every token is a short code without a comma (so a comma-joined list
      of them can be split back into its tokens), every token parses, and
      re-encoding is stable: reading a token back and encoding it again
      yields the same token; parsing accepts only tokens. */
  lemma PriceChangeReencode(p: PriceChange, s: string)
    ensures |PriceChangeString(p)| >= 2 && ',' !in PriceChangeString(p)
    ensures ParsePriceChange(PriceChangeString(p)).Some?
    ensures PriceChangeString(ParsePriceChange(PriceChangeString(p)).value) == PriceChangeString(p)
    ensures ParsePriceChange(s).Some? ==> PriceChangeString(ParsePriceChange(s).value) == s
  {
  }

  /** The mapping as written is not injective: `Days14` and `Days30` share
      a token, and that is the only collision. */
  lemma PriceChangeCollision(a: PriceChange, b: PriceChange)
    ensures PriceChangeString(Days14) == PriceChangeString(Days30) == "14d"
    ensures PriceChangeString(Days200) == "30d"
    ensures a != b && PriceChangeString(a) == PriceChangeString(b) ==>
              (a == Days14 && b == Days30) || (a == Days30 && b == Days14)
  {
  }

  /** The tokens for the windows whose names match them. */
  lemma PriceChangeNamedTokens()
    ensures PriceChangeString(Hours1) == "1h"
    ensures PriceChangeString(Hours24) == "24h"
    ensures PriceChangeString(Days7) == "7d"
    ensures PriceChangeString(Years1) == "1y"
  {
  }

  /** The evidently intended window tokens: each variant sent as the
      window it is named after. */
  function IntendedPriceChangeString(p: PriceChange): (r: string)
    ensures |r| >= 2 && ',' !in r
  {
    match p
    case Hours1 => "1h"
    case Hours24 => "24h"
    case Days7 => "7d"
    case Days14 => "14d"
    case Days30 => "30d"
    case Days200 => "200d"
    case Years1 => "1y"
  }

  /** With the intended tokens every window has its own token, and the
      mapping differs from the written one in exactly the two variants. */
  lemma IntendedPriceChangeInjective(a: PriceChange, b: PriceChange)
    ensures IntendedPriceChangeString(a) == IntendedPriceChangeString(b) ==> a == b
    ensures IntendedPriceChangeString(a) != PriceChangeString(a) <==> a == Days30 || a == Days200
  {
  }
}
