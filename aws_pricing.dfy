/**
 * The AWS Pricing API as the estimators use it: a `get_products` query built from
 * TERM_MATCH filters, and the offers it returns, already decoded from their JSON text.
 * The client itself is an oracle, a function from queries to responses.
 */
module AwsPricing {
  import opened Wrappers
  import opened TerraformPlan

  /** `{'Type': 'TERM_MATCH', 'Field': field, 'Value': value}` */
  datatype Filter = TermMatch(field: string, value: Attr)

  /** `get_products(ServiceCode=serviceCode, Filters=filters, MaxResults=maxResults)` */
  datatype Query = Query(serviceCode: string, filters: seq<Filter>, maxResults: nat)

  /** A USD amount as written in `pricePerUnit`; text that `float()` refuses is `Unparsable`. */
  datatype Amount = Usd(value: real) | Unparsable

  /** One price dimension; `usd` is None when `pricePerUnit` or its `USD` key is absent. */
  datatype Dimension = Dimension(usd: Option<Amount>)

  /** One OnDemand term; `priceDimensions` is None when the key is absent. Dict order is kept. */
  datatype Term = Term(priceDimensions: Option<seq<Dimension>>)

  /**
   * One `PriceList` entry after `json.loads`: `Malformed` when it is not a JSON object;
   * `onDemand` is None when `terms` or `terms.OnDemand` is absent.
   */
  datatype Offer = Malformed | Offer(onDemand: Option<seq<Term>>)

  /** What the client gives back: `Failed` stands for any exception raised by the call. */
  datatype Response = Failed | PriceList(offers: seq<Offer>)

  type PricingClient = Query -> Response

  /** The monthly multiplier applied to every hourly price. */
  const HoursPerMonth: real := 730.0

  /** The pricing location of the us-east-1 region. */
  const UsEastNVirginia: string := "US East (N. Virginia)"

  /**
   * `float(price_per_hour) * 730` for one dimension: a missing `USD` (or `pricePerUnit`)
   * and an unparsable amount both end in 0 (the default 0 or the caught exception).
   */
  function DimensionPrice(d: Dimension): (p: real)
    ensures d.usd == Some(Usd(p / HoursPerMonth)) || (p == 0.0 && (d.usd.None? || d.usd == Some(Unparsable)))
  {
    match d.usd
    case Some(Usd(v)) => v * HoursPerMonth
    case _ => 0.0
  }

  /** The field names of a filter list, in order. */
  function Fields(filters: seq<Filter>): (fs: seq<string>)
    ensures |fs| == |filters|
    ensures forall k :: 0 <= k < |filters| ==> fs[k] == filters[k].field
  {
    if filters == [] then [] else [filters[0].field] + Fields(filters[1..])
  }

  /** Every USD amount of every offer in the response is non-negative. */
  predicate AmountsNonNegative(resp: Response) {
    resp.PriceList? ==>
      forall o, t, d | o in resp.offers && o.Offer? && o.onDemand.Some? && t in o.onDemand.value
                       && t.priceDimensions.Some? && d in t.priceDimensions.value ::
        d.usd.Some? && d.usd.value.Usd? ==> d.usd.value.value >= 0.0
  }
}
