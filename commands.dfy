/**
 * The two commands of fortum-fetch: `authenticate`, which logs in and gives
 * the access token, and `usage`, which fetches consumption and emits one row
 * per consumption entry.
 *
 * The command-line configuration is the class `Cli`; the `usage` command
 * replaces its access token after a second login. What the browser and the
 * REST services would answer is a `Portal` value.
 */
module Commands {
  import opened Wrappers
  import opened Errors
  import opened Authentication
  import opened UsageApi

  // ---------------------------------------------------------------------
  // Output rows

  /** The values handed to the output template for one consumption entry. */
  datatype Row = Row(
    time: string,
    customerId: uint64,
    meteringPointId: string,
    meteringPointNo: uint64,
    meteringPointAddress: string,
    energy: Float64,
    cost: Float64)

  /**
   * The row of one consumption entry of `item`. `render` stands for the
   * entry's time in the configured zone as RFC 3339 text.
   */
  function RowFor(customerId: uint64, item: Usage, entry: Consumption, render: UsageTime -> string): (row: Row)
    ensures row.time == render(entry.fromTime) && row.customerId == customerId
    ensures row.meteringPointId == item.meteringPoint.meteringPointId
    ensures row.meteringPointNo == item.meteringPoint.meteringPointNo
    ensures row.meteringPointAddress == Format(item.meteringPoint.address)
    ensures row.energy == entry.energy && row.cost == entry.energyCost
  {
    Row(render(entry.fromTime), customerId, item.meteringPoint.meteringPointId,
        item.meteringPoint.meteringPointNo, Format(item.meteringPoint.address), entry.energy, entry.energyCost)
  }

  /** The rows of some consumption entries of `item`: one per entry, in entry order. */
  function EntryRows(customerId: uint64, item: Usage, entries: seq<Consumption>, render: UsageTime -> string): (rows: seq<Row>)
    ensures |rows| == |entries|
    ensures forall j :: 0 <= j < |entries| ==> rows[j] == RowFor(customerId, item, entries[j], render)
  {
    if entries == [] then []
    else EntryRows(customerId, item, entries[..|entries| - 1], render)
         + [RowFor(customerId, item, entries[|entries| - 1], render)]
  }

  /** How many consumption entries the usage items hold together. */
  function EntryCount(data: seq<Usage>): nat
  {
    if data == [] then 0 else EntryCount(data[..|data| - 1]) + |data[|data| - 1].consumption|
  }

  /** The rows of all usage items: item after item, and within an item entry after entry. */
  function RowsOf(customerId: uint64, data: seq<Usage>, render: UsageTime -> string): (rows: seq<Row>)
    ensures |rows| == EntryCount(data)
  {
    if data == [] then []
    else
      var item := data[|data| - 1];
      RowsOf(customerId, data[..|data| - 1], render) + EntryRows(customerId, item, item.consumption, render)
  }

  /** Entry j of item i is the row after all the rows of the items before i and the j entries before it. */
  lemma {:induction false} RowsOfAt(customerId: uint64, data: seq<Usage>, render: UsageTime -> string, i: nat, j: nat)
    requires i < |data| && j < |data[i].consumption|
    ensures EntryCount(data[..i]) + j < |RowsOf(customerId, data, render)|
    ensures RowsOf(customerId, data, render)[EntryCount(data[..i]) + j]
            == RowFor(customerId, data[i], data[i].consumption[j], render)
  {
    var init := data[..|data| - 1];
    var rows := RowsOf(customerId, data, render);
    assert rows == RowsOf(customerId, init, render)
                   + EntryRows(customerId, data[|data| - 1], data[|data| - 1].consumption, render);
    if i == |data| - 1 {
      assert data[..i] == init;
    } else {
      assert init[..i] == data[..i];
      assert init[i] == data[i];
      RowsOfAt(customerId, init, render, i, j);
    }
  }

  /**
   * The loop that writes the rows: for each usage item in order, for each of
   * its consumption entries in order, one row.
   */
  method EmitRows(customerId: uint64, data: seq<Usage>, render: UsageTime -> string) returns (rows: seq<Row>)
    ensures rows == RowsOf(customerId, data, render)
    ensures |rows| == EntryCount(data)
  {
    rows := [];
    for idx := 0 to |data|
      invariant rows == RowsOf(customerId, data[..idx], render)
    {
      var item := data[idx];
      ghost var before := rows;
      for k := 0 to |item.consumption|
        invariant rows == before + EntryRows(customerId, item, item.consumption[..k], render)
      {
        var ci := item.consumption[k];
        var row := Row(render(ci.fromTime), customerId, item.meteringPoint.meteringPointId,
                       item.meteringPoint.meteringPointNo, Format(item.meteringPoint.address), ci.energy, ci.energyCost);
        assert item.consumption[..k + 1][..k] == item.consumption[..k];
        rows := rows + [row];
      }
      assert item.consumption[..|item.consumption|] == item.consumption;
      assert data[..idx + 1][..idx] == data[..idx];
    }
    assert data[..|data|] == data;
  }

  // ---------------------------------------------------------------------
  // The metering point ID filter

  /** The points whose ID is `id`, in their original order. */
  function WithId(points: seq<MeteringPoint>, id: string): (r: seq<MeteringPoint>)
    ensures |r| <= |points|
    ensures forall p :: p in r <==> p in points && p.meteringPointId == id
  {
    if points == [] then []
    else
      var last := points[|points| - 1];
      assert forall p :: p in points <==> p in points[..|points| - 1] || p == last;
      WithId(points[..|points| - 1], id) + (if last.meteringPointId == id then [last] else [])
  }

  /** The filter keeps order: filtering two runs of points is filtering each, one after the other. */
  lemma {:induction false} WithIdAppend(a: seq<MeteringPoint>, b: seq<MeteringPoint>, id: string)
    ensures WithId(a + b, id) == WithId(a, id) + WithId(b, id)
  {
    if b == [] {
      assert a + b == a;
    } else {
      assert (a + b)[..|a + b| - 1] == a + b[..|b| - 1];
      WithIdAppend(a, b[..|b| - 1], id);
    }
  }

  /** When every point has the ID, the filter keeps the list as it is. */
  lemma {:induction false} WithIdKeepsMatchingList(points: seq<MeteringPoint>, id: string)
    requires forall i :: 0 <= i < |points| ==> points[i].meteringPointId == id
    ensures WithId(points, id) == points
  {
    if points != [] {
      var init := points[..|points| - 1];
      WithIdKeepsMatchingList(init, id);
      assert init + [points[|points| - 1]] == points;
    }
  }

  /** When no point has the ID, nothing is left. */
  lemma {:induction false} WithIdNoMatch(points: seq<MeteringPoint>, id: string)
    requires forall i :: 0 <= i < |points| ==> points[i].meteringPointId != id
    ensures WithId(points, id) == []
  {
    if points != [] {
      WithIdNoMatch(points[..|points| - 1], id);
    }
  }

  /** The loop that collects the points with the configured ID. */
  method FilterById(points: seq<MeteringPoint>, id: string) returns (filtered: seq<MeteringPoint>)
    ensures filtered == WithId(points, id)
    ensures forall p :: p in filtered <==> p in points && p.meteringPointId == id
  {
    filtered := [];
    for i := 0 to |points|
      invariant filtered == WithId(points[..i], id)
    {
      var item := points[i];
      assert points[..i + 1][..i] == points[..i];
      if item.meteringPointId == id {
        filtered := filtered + [item];
      }
    }
    assert points[..|points|] == points;
  }

  /** The points the command works on: all of them when no ID is configured. */
  function Selected(points: seq<MeteringPoint>, id: string): seq<MeteringPoint>
  {
    if |id| > 0 then WithId(points, id) else points
  }

  // ---------------------------------------------------------------------
  // The world the commands talk to, and their configuration

  /** Answers of the browser and the REST services. */
  datatype Portal = Portal(
    browser: Browser,                                          // the login page
    customerInfo: string -> Result<CustomerInfo>,              // the customer request, per access token
    contracts: (string, uint64) -> Result<ContractsResponse>,  // the contracts request, per token and customer
    consumption: ConsumptionApi,                               // the consumption requests
    render: UsageTime -> string)                               // a time as text in the configured zone

  /** The command-line configuration the commands read. */
  datatype Config = Config(
    user: string,
    password: string,
    url: string,
    accessToken: string,
    meteringPointId: string,
    from: Option<int>,
    to: Option<int>)

  /** What `doAuthenticate` gives: the token, or the error it stops the program with. */
  function Authenticated(c: Config, browser: Browser): (r: Result<string>)
    ensures NewAuth(Some(c.user), Some(c.password), Some(c.url)).Err? ==>
              r == Err(New("invalid authentication configuration: " + Text(NewAuth(Some(c.user), Some(c.password), Some(c.url)).error)))
    ensures NewAuth(Some(c.user), Some(c.password), Some(c.url)).Ok? ==>
              r == LoginRun(NewAuth(Some(c.user), Some(c.password), Some(c.url)).value, browser).result
    ensures r.Ok? ==> c.user != "" && c.password != "" && c.url != "" && FormSubmitted(browser)
  {
    match NewAuth(Some(c.user), Some(c.password), Some(c.url))
    case Err(e) => Err(New("invalid authentication configuration: " + Text(e)))
    case Ok(auth) => LoginRun(auth, browser).result
  }

  // ---------------------------------------------------------------------
  // The customer lookup of the usage command, with its one retry

  /** The customer found, the error the program stops with, or nothing (a nil pointer). */
  datatype Lookup = Found(info: CustomerInfo) | Failed(fatal: Error) | Missing

  /** The lookup, how many logins it made and the access token afterwards. */
  datatype CustomerStep = CustomerStep(lookup: Lookup, logins: nat, accessToken: string)

  /** The error is, or wraps, a status error with status 401. */
  predicate Unauthorized<T>(r: Result<T>)
  {
    r.Err? && AsStatus(r.error).Some? && AsStatus(r.error).value.status == 401
  }

  /**
   * The customer lookup: a 401 status error leads to one new login and one
   * retry with the new token; any other status error is dropped and leaves no
   * customer; an error that is no status error stops the program.
   */
  function FindCustomer(c: Config, portal: Portal): (s: CustomerStep)
    ensures s.logins <= 1
    ensures var first := GetCustomerInfo(c.url, c.accessToken, portal.customerInfo(c.accessToken));
            && (s.logins == 1 <==> Unauthorized(first))
            && (first.Ok? ==> s == CustomerStep(Found(first.value), 0, c.accessToken))
            && (first.Err? && HasNoStatus(first.error) ==> s == CustomerStep(Failed(first.error), 0, c.accessToken))
            && (first.Err? && !HasNoStatus(first.error) && !Unauthorized(first) ==> s.lookup == Missing)
    ensures c.url != "" && c.accessToken == "" ==> s.logins == 1
    ensures s.accessToken != c.accessToken ==> s.logins == 1 && Authenticated(c, portal.browser) == Ok(s.accessToken)
    ensures s.logins == 1 && Authenticated(c, portal.browser).Err? ==> s.lookup == Failed(Authenticated(c, portal.browser).error)
    ensures s.logins == 1 && s.lookup.Found? ==>
              && Authenticated(c, portal.browser) == Ok(s.accessToken)
              && GetCustomerInfo(c.url, s.accessToken, portal.customerInfo(s.accessToken)) == Ok(s.lookup.info)
    ensures s.logins == 1 && Authenticated(c, portal.browser).Ok? ==>
              && s.accessToken == Authenticated(c, portal.browser).value
              && s.lookup == (var second := GetCustomerInfo(c.url, s.accessToken, portal.customerInfo(s.accessToken));
                              if second.Ok? then Found(second.value) else Failed(second.error))
  {
    var first := GetCustomerInfo(c.url, c.accessToken, portal.customerInfo(c.accessToken));
    if first.Ok? then CustomerStep(Found(first.value), 0, c.accessToken)
    else match AsStatus(first.error)
      case None => CustomerStep(Failed(first.error), 0, c.accessToken)
      case Some(statusError) =>
        if statusError.status != 401 then CustomerStep(Missing, 0, c.accessToken)
        else match Authenticated(c, portal.browser)
          case Err(e) => CustomerStep(Failed(e), 1, c.accessToken)
          case Ok(token) =>
            var second := GetCustomerInfo(c.url, token, portal.customerInfo(token));
            CustomerStep(if second.Ok? then Found(second.value) else Failed(second.error), 1, token)
  }

  // ---------------------------------------------------------------------
  // The usage command as a whole

  /** How the usage command ends. */
  datatype Exit =
    | Fatal(cause: Error)        // log.Fatal
    | NilCustomer                // the missing customer is dereferenced
    | NoMeteringPoints           // early return: no metering point left to fetch
    | NoConsumptionData          // early return: no consumption data
    | Emitted(rows: seq<Row>)    // the rows written, in order

  /** The end of the command, its logins, the access token afterwards, and whether consumption was requested. */
  datatype Run = Run(exit: Exit, logins: nat, accessToken: string, fetched: bool)

  function UsageFlow(c: Config, portal: Portal): (run: Run)
    ensures run.logins == FindCustomer(c, portal).logins <= 1
    ensures run.accessToken == FindCustomer(c, portal).accessToken
    ensures FindCustomer(c, portal).lookup.Failed? ==> run.exit == Fatal(FindCustomer(c, portal).lookup.fatal) && !run.fetched
    ensures FindCustomer(c, portal).lookup.Missing? ==> run.exit == NilCustomer && !run.fetched
    ensures run.exit == NoMeteringPoints ==> !run.fetched
    ensures run.exit.Emitted? || run.exit == NoConsumptionData ==> run.fetched
    ensures forall info, e ::
              FindCustomer(c, portal).lookup == Found(info) &&
              MeteringPointsResult(c.url, portal.contracts(FindCustomer(c, portal).accessToken, info.owner.customerId)) == Err(e) ==>
                run.exit == Fatal(e) && !run.fetched
    ensures forall info, points ::
              FindCustomer(c, portal).lookup == Found(info) &&
              MeteringPointsResult(c.url, portal.contracts(FindCustomer(c, portal).accessToken, info.owner.customerId)) == Ok(points) ==>
                var selected := Selected(points, c.meteringPointId);
                var data := ConsumptionData(portal.consumption, c.url, FindCustomer(c, portal).accessToken,
                                            info.owner.customerId, c.from, c.to, selected);
                && (|selected| == 0 ==> run.exit == NoMeteringPoints && !run.fetched)
                && (|selected| > 0 ==> run.fetched)
                && (|selected| > 0 && data.Err? ==> run.exit == Fatal(data.error))
                && (|selected| > 0 && data.Ok? ==> run.exit == Emitted(RowsOf(info.owner.customerId, data.value, portal.render)))
  {
    var step := FindCustomer(c, portal);
    match step.lookup
    case Failed(e) => Run(Fatal(e), step.logins, step.accessToken, false)
    case Missing => Run(NilCustomer, step.logins, step.accessToken, false)
    case Found(info) =>
      var customerId := info.owner.customerId;
      match MeteringPointsResult(c.url, portal.contracts(step.accessToken, customerId))
      case Err(e) => Run(Fatal(e), step.logins, step.accessToken, false)
      case Ok(points) =>
        var selected := Selected(points, c.meteringPointId);
        if |selected| == 0 then Run(NoMeteringPoints, step.logins, step.accessToken, false)
        else match ConsumptionData(portal.consumption, c.url, step.accessToken, customerId, c.from, c.to, selected)
          case Err(e) => Run(Fatal(e), step.logins, step.accessToken, true)
          case Ok(data) =>
            if |data| == 0 then Run(NoConsumptionData, step.logins, step.accessToken, true)
            else Run(Emitted(RowsOf(customerId, data, portal.render)), step.logins, step.accessToken, true)
  }

  /**
   * No metering point left after the optional ID filter, whether a configured
   * ID matches nothing or the customer has no electricity contract at all: the
   * command stops before asking for any consumption.
   */
  lemma NoSelectedPointsMeansNoFetch(c: Config, portal: Portal, info: CustomerInfo, points: seq<MeteringPoint>)
    requires FindCustomer(c, portal).lookup == Found(info)
    requires MeteringPointsResult(c.url, portal.contracts(FindCustomer(c, portal).accessToken, info.owner.customerId)) == Ok(points)
    requires |Selected(points, c.meteringPointId)| == 0
    ensures UsageFlow(c, portal).exit == NoMeteringPoints && !UsageFlow(c, portal).fetched
  {
  }

  /** A configured ID that no point has leaves no point selected. */
  lemma {:induction false} UnmatchedIdSelectsNothing(points: seq<MeteringPoint>, id: string)
    requires |id| > 0 && forall i :: 0 <= i < |points| ==> points[i].meteringPointId != id
    ensures Selected(points, id) == []
  {
    WithIdNoMatch(points, id);
  }

  /** A customer whose contracts are all for district heat has no point selected, whatever the ID setting. */
  lemma {:induction false} DistrictHeatOnlySelectsNothing(contracts: seq<ActiveContract>, id: string)
    requires forall i :: 0 <= i < |contracts| ==> contracts[i].meteringPoint.isDistrictHeat
    ensures Selected(MeteringPointsOf(contracts), id) == []
  {
    OnlyDistrictHeatGivesNoPoints(contracts);
  }

  /**
   * The consumption data holds one usage per selected point, so the early
   * return for empty consumption data is never taken.
   */
  lemma NeverNoConsumptionData(c: Config, portal: Portal)
    ensures UsageFlow(c, portal).exit != NoConsumptionData
  {
  }

  // ---------------------------------------------------------------------
  // The global configuration and the two commands

  /** The parsed command line (the global `cli` struct). */
  class Cli {
    var user: string
    var password: string
    var url: string
    var accessToken: string
    var meteringPointId: string
    var from: Option<int>
    var to: Option<int>

    function Snapshot(): Config
      reads this
    {
      Config(user, password, url, accessToken, meteringPointId, from, to)
    }

    constructor (c: Config)
      ensures Snapshot() == c
    {
      user, password, url := c.user, c.password, c.url;
      accessToken, meteringPointId := c.accessToken, c.meteringPointId;
      from, to := c.from, c.to;
    }

    /**
     * `doAuthenticate`: build the credentials from the configuration and log
     * in. An error here stops the program; the `Err` is that error.
     */
    method DoAuthenticate(browser: Browser) returns (r: Result<string>)
      ensures r == Authenticated(Snapshot(), browser)
    {
      var auth := NewAuth(Some(user), Some(password), Some(url));
      if auth.Err? {
        return Err(New("invalid authentication configuration: " + Text(auth.error)));
      }
      var token, ran := GetAccessToken(auth.value, browser);
      if token.Err? {
        return Err(token.error);
      }
      return Ok(token.value);
    }

    /**
     * `doUsage`: look the customer up (logging in again once on a 401),
     * list the metering points, keep those with the configured ID, fetch
     * their consumption and write one row per consumption entry.
     */
    method DoUsage(portal: Portal) returns (exit: Exit, logins: nat, fetched: bool)
      modifies this`accessToken
      ensures Run(exit, logins, accessToken, fetched) == UsageFlow(old(Snapshot()), portal)
      ensures logins <= 1
    {
      logins, fetched := 0, false;
      ghost var c := Snapshot();
      var customerInfo := GetCustomerInfo(url, accessToken, portal.customerInfo(accessToken));
      if customerInfo.Err? {
        var statusError := AsStatus(customerInfo.error);
        if statusError.None? {
          return Fatal(customerInfo.error), logins, fetched;
        }
        if statusError.value.status != 401 {
          // customerInfo stays nil and is dereferenced next
          return NilCustomer, logins, fetched;
        }
        logins := logins + 1;
        var token := DoAuthenticate(portal.browser);
        if token.Err? {
          return Fatal(token.error), logins, fetched;
        }
        accessToken := token.value;
        customerInfo := GetCustomerInfo(url, accessToken, portal.customerInfo(accessToken));
        if customerInfo.Err? {
          return Fatal(customerInfo.error), logins, fetched;
        }
      }
      assert FindCustomer(c, portal) == CustomerStep(Found(customerInfo.value), logins, accessToken);
      var customerId := customerInfo.value.owner.customerId;
      var meteringPoints := GetMeteringPoints(url, portal.contracts(accessToken, customerId));
      if meteringPoints.Err? {
        return Fatal(meteringPoints.error), logins, fetched;
      }
      var points := meteringPoints.value;
      if |meteringPointId| > 0 {
        points := FilterById(points, meteringPointId);
      }
      if |points| == 0 {
        return NoMeteringPoints, logins, fetched;
      }
      fetched := true;
      var consumptionData := GetConsumptionData(portal.consumption, url, accessToken, customerId, from, to, points);
      if consumptionData.Err? {
        return Fatal(consumptionData.error), logins, fetched;
      }
      if |consumptionData.value| == 0 {
        return NoConsumptionData, logins, fetched;
      }
      var rows := EmitRows(customerId, consumptionData.value, portal.render);
      return Emitted(rows), logins, fetched;
    }
  }
}
