/** The second copy of the option enums, kept next to the response types
    (`model/responses.rs`), with its `get_string` and `AsRef<str>`. Each
    copy is related to the `QueryParams` copy variant by variant. */
module Responses {
  import QueryParams

  datatype PriceChange = Hours1 | Hours24 | Days7 | Days14 | Days30 | Days200 | Years1

  datatype MarketOrder =
    | MarketCapDesc | MarketCapAsc
    | GeckoDesc | GeckoAsc
    | VolumeAsc | VolumeDesc
    | IdAsc | IdDesc

  datatype TrustOrders = TrustScoreDesc | TrustScoreAsc | VolumeDesc

  /** The variant of the same name in the other copy. */
  function PriceChangeVariant(p: PriceChange): QueryParams.PriceChange
  {
    match p
    case Hours1 => QueryParams.Hours1
    case Hours24 => QueryParams.Hours24
    case Days7 => QueryParams.Days7
    case Days14 => QueryParams.Days14
    case Days30 => QueryParams.Days30
    case Days200 => QueryParams.Days200
    case Years1 => QueryParams.Years1
  }

  function MarketOrderVariant(o: MarketOrder): QueryParams.MarketOrder
  {
    match o
    case MarketCapDesc => QueryParams.MarketCapDesc
    case MarketCapAsc => QueryParams.MarketCapAsc
    case GeckoDesc => QueryParams.GeckoDesc
    case GeckoAsc => QueryParams.GeckoAsc
    case VolumeAsc => QueryParams.VolumeAsc
    case VolumeDesc => QueryParams.MarketOrder.VolumeDesc
    case IdAsc => QueryParams.IdAsc
    case IdDesc => QueryParams.IdDesc
  }

  function TrustOrdersVariant(o: TrustOrders): QueryParams.TrustOrder
  {
    match o
    case TrustScoreDesc => QueryParams.TrustScoreDesc
    case TrustScoreAsc => QueryParams.TrustScoreAsc
    case VolumeDesc => QueryParams.TrustOrder.VolumeDesc
  }

  /** `PriceChange::get_string` of this copy: the same token as the other
      copy gives the variant of the same name, "14d" for `Days30` and
      "30d" for `Days200` included. */
  function PriceChangeString(p: PriceChange): (r: string)
    ensures r == QueryParams.PriceChangeString(PriceChangeVariant(p))
  {
    match p
    case Hours1 => "1h"
    case Hours24 => "24h"
    case Days7 => "7d"
    case Days30 => "14d"
    case Days200 => "30d"
    case Years1 => "1y"
    case Days14 => "14d"
  }

  /** `AsRef<str>` for `PriceChange`. */
  function PriceChangeAsRef(p: PriceChange): (r: string)
    ensures r == QueryParams.PriceChangeString(PriceChangeVariant(p))
  {
    PriceChangeString(p)
  }

  /** `MarketOrder::get_string` of this copy. */
  function MarketOrderString(o: MarketOrder): (r: string)
    ensures r == QueryParams.MarketOrderString(MarketOrderVariant(o))
  {
    match o
    case MarketCapDesc => "market_cap_desc"
    case MarketCapAsc => "market_cap_asc"
    case GeckoDesc => "gecko_desc"
    case GeckoAsc => "gecko_asc"
    case VolumeAsc => "volume_asc"
    case VolumeDesc => "volume_desc"
    case IdAsc => "id_asc"
    case IdDesc => "id_desc"
  }

  /** `AsRef<str>` for `MarketOrder`. */
  function MarketOrderAsRef(o: MarketOrder): (r: string)
    ensures r == QueryParams.MarketOrderString(MarketOrderVariant(o))
  {
    MarketOrderString(o)
  }

  /** `TrustOrders::get_string`: the tokens of `QueryParams.TrustOrder`. */
  function TrustOrdersString(o: TrustOrders): (r: string)
    ensures r == QueryParams.TrustOrderString(TrustOrdersVariant(o))
  {
    match o
    case TrustScoreDesc => "trust_score_desc"
    case TrustScoreAsc => "trust_score_asc"
    case VolumeDesc => "volume_desc"
  }

  /** The variant correspondences are bijections, so the two copies
      describe the same enumerations. */
  lemma CopiesCorrespond(p: PriceChange, q: PriceChange, o: MarketOrder, o': MarketOrder,
                         t: TrustOrders, t': TrustOrders, x: QueryParams.PriceChange,
                         m: QueryParams.MarketOrder, u: QueryParams.TrustOrder)
    ensures PriceChangeVariant(p) == PriceChangeVariant(q) ==> p == q
    ensures MarketOrderVariant(o) == MarketOrderVariant(o') ==> o == o'
    ensures TrustOrdersVariant(t) == TrustOrdersVariant(t') ==> t == t'
    ensures exists y :: PriceChangeVariant(y) == x
    ensures exists y :: MarketOrderVariant(y) == m
    ensures exists y :: TrustOrdersVariant(y) == u
  {
    PriceChangeOnto(x);
    MarketOrderOnto(m);
    TrustOrdersOnto(u);
  }

  lemma PriceChangeOnto(x: QueryParams.PriceChange)
    ensures exists y :: PriceChangeVariant(y) == x
  {
    match x
    case Hours1 => assert PriceChangeVariant(Hours1) == x;
    case Hours24 => assert PriceChangeVariant(Hours24) == x;
    case Days7 => assert PriceChangeVariant(Days7) == x;
    case Days14 => assert PriceChangeVariant(Days14) == x;
    case Days30 => assert PriceChangeVariant(Days30) == x;
    case Days200 => assert PriceChangeVariant(Days200) == x;
    case Years1 => assert PriceChangeVariant(Years1) == x;
  }

  lemma MarketOrderOnto(m: QueryParams.MarketOrder)
    ensures exists y :: MarketOrderVariant(y) == m
  {
    match m
    case MarketCapDesc => assert MarketOrderVariant(MarketCapDesc) == m;
    case MarketCapAsc => assert MarketOrderVariant(MarketCapAsc) == m;
    case GeckoDesc => assert MarketOrderVariant(GeckoDesc) == m;
    case GeckoAsc => assert MarketOrderVariant(GeckoAsc) == m;
    case VolumeAsc => assert MarketOrderVariant(VolumeAsc) == m;
    case VolumeDesc => assert MarketOrderVariant(MarketOrder.VolumeDesc) == m;
    case IdAsc => assert MarketOrderVariant(IdAsc) == m;
    case IdDesc => assert MarketOrderVariant(IdDesc) == m;
  }

  lemma TrustOrdersOnto(u: QueryParams.TrustOrder)
    ensures exists y :: TrustOrdersVariant(y) == u
  {
    match u
    case TrustScoreDesc => assert TrustOrdersVariant(TrustScoreDesc) == u;
    case TrustScoreAsc => assert TrustOrdersVariant(TrustScoreAsc) == u;
    case VolumeDesc => assert TrustOrdersVariant(TrustOrders.VolumeDesc) == u;
  }
}
