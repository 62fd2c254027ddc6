/**
 * Assembly of the rate table from the exchange-rate service.
 *
 * getConversionData asks the service for the rates of one base currency
 * against some targets, writes the self-rate `rates[base] = 1` into the parsed
 * body and wraps the rates as `{[base]: rates}`.  getAllConversionData chains
 * three such requests (CAD, then USD, then EUR, each against the other two) and
 * merges every result into one accumulator; the first failure rejects the
 * whole chain.  The network request and the JSON parsing are not modelled: the
 * caller supplies their outcome as `fetch`.
 */
module ConversionRates {
  import opened Wrappers

  /** A three-letter currency code, as a string. */
  type Currency = string

  /** An exchange rate; the code never computes with one, it only writes the constant 1. */
  type Rate = real

  /** The `rates` object of one response: target currency to rate. */
  type Rates = map<Currency, Rate>

  /** Base currency to its rates. */
  type RateTable = map<Currency, Rates>

  /** One call of getConversionData: `{base, targets}`. */
  datatype ConversionRequest = ConversionRequest(base: Currency, targets: seq<Currency>)

  /** The parsed JSON body; `rates` is None when the body has no `rates` member. */
  datatype ResponseBody = ResponseBody(rates: Option<Rates>)

  datatype FetchError =
    | Rejected(cause: string)   // the request or `response.json()` rejected
    | NoRatesMember             // the TypeError of writing `rates[base]` when `rates` is undefined

  /** The outcome of `fetch(url).then(response => response.json())` for a request. */
  type Fetch = ConversionRequest -> Result<ResponseBody, FetchError>

  /** The fixed chain of getAllConversionData, in the order the requests are made. */
  const PLAN: seq<ConversionRequest> := [
    ConversionRequest("CAD", ["USD", "EUR"]),
    ConversionRequest("USD", ["CAD", "EUR"]),
    ConversionRequest("EUR", ["USD", "CAD"])
  ]

  /** The three bases the chain covers. */
  const BASES: set<Currency> := {"CAD", "USD", "EUR"}

  /**
   * What getConversionData resolves or rejects with, given the outcome of the
   * fetch for `base`: a one-row table keyed by `base`, in which `base` itself is
   * worth 1 and every other rate is passed through.
   */
  function ConversionData(base: Currency, response: Result<ResponseBody, FetchError>): (r: Result<RateTable, FetchError>)
    ensures response.Failure? ==> r == Failure(response.error)
    ensures response.Success? && response.value.rates.None? ==> r == Failure(NoRatesMember)
    ensures response.Success? && response.value.rates.Some? ==>
      var rates := response.value.rates.value;
      && r.Success?
      && r.value.Keys == {base}
      && r.value[base].Keys == rates.Keys + {base}
      && r.value[base][base] == 1.0
      && forall t :: t in rates && t != base ==> r.value[base][t] == rates[t]
  {
    match response
    case Failure(e) => Failure(e)
    case Success(body) =>
      match body.rates
      case None => Failure(NoRatesMember)
      case Some(rates) => Success(map[base := rates[base := 1.0]])
  }

  /** getConversionData: one request, the self-rate written into the parsed rates, then the wrapping. */
  method GetConversionData(request: ConversionRequest, fetch: Fetch) returns (r: Result<RateTable, FetchError>)
    ensures r == ConversionData(request.base, fetch(request))
  {
    var response := fetch(request);
    if response.Failure? {
      return Failure(response.error);
    }
    var body := response.value;
    if body.rates.None? {
      return Failure(NoRatesMember);
    }
    var rates := body.rates.value;
    rates := rates[request.base := 1.0];
    r := Success(map[request.base := rates]);
  }

  /**
   * The table a chain of requests assembles: each step runs only when every
   * earlier one succeeded, and merges its one-row table into the accumulator
   * (`Object.assign`, so on a shared key the later row wins); the first failure
   * is the result.
   */
  function BuildTable(plan: seq<ConversionRequest>, fetch: Fetch): Result<RateTable, FetchError>
    decreases |plan|
  {
    if plan == [] then Success(map[])
    else
      var last := plan[|plan| - 1];
      match BuildTable(plan[..|plan| - 1], fetch)
      case Failure(e) => Failure(e)
      case Success(acc) =>
        match ConversionData(last.base, fetch(last))
        case Failure(e) => Failure(e)
        case Success(row) => Success(acc + row)
  }

  /**
   * How many requests of the plan a chain sends: all of them when every
   * request before the last succeeded, otherwise it stops after the first one
   * that fails.
   */
  function SentCount(plan: seq<ConversionRequest>, fetch: Fetch): (k: nat)
    ensures k <= |plan|
    decreases |plan|
  {
    if plan == [] then 0
    else if BuildTable(plan[..|plan| - 1], fetch).Failure? then SentCount(plan[..|plan| - 1], fetch)
    else |plan|
  }

  /** The requests a chain sends, in the order it sends them: a prefix of the plan. */
  function Issued(plan: seq<ConversionRequest>, fetch: Fetch): seq<ConversionRequest> {
    plan[..SentCount(plan, fetch)]
  }

  ghost predicate DistinctBases(plan: seq<ConversionRequest>) {
    forall i, j :: 0 <= i < j < |plan| ==> plan[i].base != plan[j].base
  }

  ghost function BasesOf(plan: seq<ConversionRequest>): set<Currency> {
    set i | 0 <= i < |plan| :: plan[i].base
  }

  /** A chain succeeds exactly when every one of its requests would succeed on its own. */
  lemma {:induction false} BuildTableAllOrNothing(plan: seq<ConversionRequest>, fetch: Fetch)
    ensures BuildTable(plan, fetch).Success? <==>
      forall i :: 0 <= i < |plan| ==> ConversionData(plan[i].base, fetch(plan[i])).Success?
  {
    if plan != [] {
      var init := plan[..|plan| - 1];
      BuildTableAllOrNothing(init, fetch);
      assert forall i :: 0 <= i < |init| ==> init[i] == plan[i];
    }
  }

  /** The row for `request.base` in `table` is the one `request` itself produced. */
  ghost predicate HasOwnRow(table: RateTable, request: ConversionRequest, fetch: Fetch) {
    var data := ConversionData(request.base, fetch(request));
    && data.Success?
    && request.base in table
    && table[request.base] == data.value[request.base]
  }

  /** The table of a chain that succeeded has one row per base of its plan. */
  lemma {:induction false} BuildTableKeys(plan: seq<ConversionRequest>, fetch: Fetch)
    ensures BuildTable(plan, fetch).Success? ==> BuildTable(plan, fetch).value.Keys == BasesOf(plan)
  {
    if plan != [] && BuildTable(plan, fetch).Success? {
      var n := |plan| - 1;
      BuildTableKeys(plan[..n], fetch);
      BuildTableLast(plan, fetch);
      BasesOfSnoc(plan);
    }
  }

  /**
   * With distinct bases no merge overwrites an earlier one: each row of the
   * table is exactly the one its own request produced.
   */
  lemma {:induction false} BuildTableRows(plan: seq<ConversionRequest>, fetch: Fetch)
    requires DistinctBases(plan)
    ensures BuildTable(plan, fetch).Success? ==>
      forall i :: 0 <= i < |plan| ==> HasOwnRow(BuildTable(plan, fetch).value, plan[i], fetch)
  {
    if plan != [] && BuildTable(plan, fetch).Success? {
      var n := |plan| - 1;
      var init := plan[..n];
      var last := plan[n];
      assert DistinctBases(init) by {
        assert forall i :: 0 <= i < |init| ==> init[i] == plan[i];
      }
      BuildTableRows(init, fetch);
      BuildTableLast(plan, fetch);
      var acc := BuildTable(init, fetch).value;
      var row := ConversionData(last.base, fetch(last)).value;
      assert row.Keys == {last.base};
      forall i | 0 <= i < n
        ensures HasOwnRow(acc + row, plan[i], fetch)
      {
        assert init[i] == plan[i];
        assert HasOwnRow(acc, plan[i], fetch);
        assert plan[i].base != last.base;
      }
      assert HasOwnRow(acc + row, last, fetch);
    }
  }

  lemma BasesOfSnoc(plan: seq<ConversionRequest>)
    requires plan != []
    ensures BasesOf(plan) == BasesOf(plan[..|plan| - 1]) + {plan[|plan| - 1].base}
  {
  }

  /** A chain that succeeded ran its last step on the table of the steps before it. */
  lemma BuildTableLast(plan: seq<ConversionRequest>, fetch: Fetch)
    requires plan != [] && BuildTable(plan, fetch).Success?
    ensures var last := plan[|plan| - 1];
      && BuildTable(plan[..|plan| - 1], fetch).Success?
      && ConversionData(last.base, fetch(last)).Success?
      && BuildTable(plan, fetch).value
         == BuildTable(plan[..|plan| - 1], fetch).value + ConversionData(last.base, fetch(last)).value
  {
  }

  /** A chain that succeeded sent every request of its plan. */
  lemma IssuedOnSuccess(plan: seq<ConversionRequest>, fetch: Fetch)
    requires BuildTable(plan, fetch).Success?
    ensures Issued(plan, fetch) == plan
  {
    if plan != [] {
      BuildTableLast(plan, fetch);
    }
  }

  /**
   * A chain that failed stopped at its first failing request: every request
   * sent before the last one succeeded, and the last one sent carries the
   * chain's error.
   */
  lemma {:induction false} IssuedOnFailure(plan: seq<ConversionRequest>, fetch: Fetch)
    requires BuildTable(plan, fetch).Failure?
    ensures SentCount(plan, fetch) >= 1
    ensures var last := plan[SentCount(plan, fetch) - 1];
      ConversionData(last.base, fetch(last)) == Failure(BuildTable(plan, fetch).error)
    ensures forall j :: 0 <= j < SentCount(plan, fetch) - 1 ==> ConversionData(plan[j].base, fetch(plan[j])).Success?
  {
    var n := |plan| - 1;
    var init := plan[..n];
    if BuildTable(init, fetch).Failure? {
      IssuedOnFailure(init, fetch);
      var k := SentCount(init, fetch);
      assert init[k - 1] == plan[k - 1];
      forall j | 0 <= j < k - 1 ensures ConversionData(plan[j].base, fetch(plan[j])).Success? {
        assert init[j] == plan[j];
      }
    } else {
      BuildTableAllOrNothing(init, fetch);
      forall j | 0 <= j < n ensures ConversionData(plan[j].base, fetch(plan[j])).Success? {
        assert init[j] == plan[j];
      }
    }
  }

  /** One more step of a chain: skipped after a failure, otherwise its row is merged or its error is the chain's. */
  lemma ChainStep(plan: seq<ConversionRequest>, k: nat, fetch: Fetch)
    requires k < |plan|
    ensures var before := BuildTable(plan[..k], fetch);
      var data := ConversionData(plan[k].base, fetch(plan[k]));
      && (before.Failure? ==>
            BuildTable(plan[..k + 1], fetch) == before && SentCount(plan[..k + 1], fetch) == SentCount(plan[..k], fetch))
      && (before.Success? && data.Failure? ==>
            BuildTable(plan[..k + 1], fetch) == Failure(data.error) && SentCount(plan[..k + 1], fetch) == k + 1)
      && (before.Success? && data.Success? ==>
            BuildTable(plan[..k + 1], fetch) == Success(before.value + data.value) && SentCount(plan[..k + 1], fetch) == k + 1)
  {
    assert plan[..k + 1][..k] == plan[..k];
  }

  /** Once a step has failed, no later request is sent and the chain's result is that failure. */
  lemma {:induction false} ChainStopsAtFailure(plan: seq<ConversionRequest>, k: nat, fetch: Fetch)
    requires k <= |plan| && BuildTable(plan[..k], fetch).Failure?
    ensures BuildTable(plan, fetch) == BuildTable(plan[..k], fetch)
    ensures SentCount(plan, fetch) == SentCount(plan[..k], fetch)
    decreases |plan| - k
  {
    if k < |plan| {
      ChainStep(plan, k, fetch);
      ChainStopsAtFailure(plan, k + 1, fetch);
    } else {
      assert plan[..k] == plan;
    }
  }

  /**
   * The chain asks for each of CAD, USD and EUR once, and each request asks for
   * the other two currencies.
   */
  lemma PlanBases()
    ensures DistinctBases(PLAN)
    ensures BasesOf(PLAN) == BASES
    ensures forall i :: 0 <= i < |PLAN| ==>
      PLAN[i].base !in PLAN[i].targets && (set t | t in PLAN[i].targets) + {PLAN[i].base} == BASES
  {
    assert PLAN[0].base == "CAD" && PLAN[1].base == "USD" && PLAN[2].base == "EUR";
    assert BasesOf(PLAN) == {PLAN[0].base, PLAN[1].base, PLAN[2].base};
  }

  /**
   * The table getAllConversionData resolves with has exactly the keys CAD, USD
   * and EUR, every base is worth 1 against itself, and every other rate is the
   * one the service sent for that base.
   */
  lemma AllConversionDataRows(fetch: Fetch)
    ensures BuildTable(PLAN, fetch).Success? ==>
      var table := BuildTable(PLAN, fetch).value;
      && table.Keys == BASES
      && forall i :: 0 <= i < |PLAN| ==>
           var base := PLAN[i].base;
           var response := fetch(PLAN[i]);
           && response.Success? && response.value.rates.Some?
           && base in table
           && table[base].Keys == response.value.rates.value.Keys + {base}
           && table[base][base] == 1.0
           && forall t :: t in response.value.rates.value && t != base ==> table[base][t] == response.value.rates.value[t]
  {
    PlanBases();
    BuildTableKeys(PLAN, fetch);
    BuildTableRows(PLAN, fetch);
    if BuildTable(PLAN, fetch).Success? {
      var table := BuildTable(PLAN, fetch).value;
      forall i | 0 <= i < |PLAN|
        ensures fetch(PLAN[i]).Success? && fetch(PLAN[i]).value.rates.Some?
        ensures table[PLAN[i].base] == ConversionData(PLAN[i].base, fetch(PLAN[i])).value[PLAN[i].base]
      {
        assert HasOwnRow(table, PLAN[i], fetch);
      }
    }
  }

  /**
   * The part of AllConversionDataRows that GetAllConversionData promises: on
   * success the keys are the three bases and each is worth 1 against itself.
   * Kept apart because it is much cheaper to prove than the whole row fact.
   */
  lemma AllConversionDataSelfRates(fetch: Fetch)
    ensures BuildTable(PLAN, fetch).Success? ==>
      var table := BuildTable(PLAN, fetch).value;
      table.Keys == BASES && forall b :: b in BASES ==> b in table[b] && table[b][b] == 1.0
  {
    PlanBases();
    BuildTableKeys(PLAN, fetch);
    BuildTableRows(PLAN, fetch);
    if BuildTable(PLAN, fetch).Success? {
      var table := BuildTable(PLAN, fetch).value;
      forall b | b in BASES ensures b in table[b] && table[b][b] == 1.0 {
        var i := if b == "CAD" then 0 else if b == "USD" then 1 else 2;
        assert PLAN[i].base == b;
        assert HasOwnRow(table, PLAN[i], fetch);
      }
    }
  }

  /**
   * getAllConversionData: CAD, then USD, then EUR, each merged into `rates`
   * only once it succeeded; the first failure rejects the chain and the partial
   * table is dropped.  `issued` records the requests sent, in order.
   */
  method GetAllConversionData(fetch: Fetch) returns (r: Result<RateTable, FetchError>, ghost issued: seq<ConversionRequest>)
    ensures r == BuildTable(PLAN, fetch)
    ensures issued == Issued(PLAN, fetch)
    ensures r.Success? ==> r.value.Keys == BASES && forall b :: b in BASES ==> b in r.value[b] && r.value[b][b] == 1.0
  {
    assert PLAN[..0] == [] && PLAN[..3] == PLAN;
    var rates: RateTable := map[];

    issued := PLAN[..1];
    var res := GetConversionData(PLAN[0], fetch);
    ChainStep(PLAN, 0, fetch);
    if res.Failure? {
      ChainStopsAtFailure(PLAN, 1, fetch);
      return Failure(res.error), issued;
    }
    rates := rates + res.value;

    issued := PLAN[..2];
    res := GetConversionData(PLAN[1], fetch);
    ChainStep(PLAN, 1, fetch);
    if res.Failure? {
      ChainStopsAtFailure(PLAN, 2, fetch);
      return Failure(res.error), issued;
    }
    rates := rates + res.value;

    issued := PLAN[..3];
    res := GetConversionData(PLAN[2], fetch);
    ChainStep(PLAN, 2, fetch);
    if res.Failure? {
      return Failure(res.error), issued;
    }
    rates := rates + res.value;
    r := Success(rates);
    AllConversionDataSelfRates(fetch);
  }
}
