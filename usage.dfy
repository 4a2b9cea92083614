/**
 * The My Fortum REST side: customer information, the metering points of the
 * active contracts, and consumption per metering point.
 *
 * HTTP, URL building and JSON decoding are not modelled: what a request would
 * return is an input, already decoded. Times are instants in seconds.
 */
module UsageApi {
  import opened Wrappers
  import opened Errors

  /** Go's `uint64`. */
  newtype uint64 = x: int | 0 <= x < 0x1_0000_0000_0000_0000

  /** A Go `float64`, carried as its bits and never computed on. */
  datatype Float64 = Float64(bits: bv64)

  const Hour := 3600
  const Day := 24 * Hour

  // ---------------------------------------------------------------------
  // MeteringPointAddress.Format

  datatype Address = Address(
    streetName: string,
    houseNumber: string,
    houseLetter: string,
    residence: string,
    postalCode: string,
    postalCity: string,
    countryCode: string)

  /**
   * `Format`: the street name, one space, then house number, house letter and
   * residence with nothing between them. Postal code, city and country are not
   * shown.
   */
  function Format(a: Address): (s: string)
    ensures |s| == |a.streetName| + 1 + |a.houseNumber| + |a.houseLetter| + |a.residence|
    ensures s[..|a.streetName|] == a.streetName
    ensures s[|a.streetName|] == ' '
    ensures s[|a.streetName| + 1..] == a.houseNumber + a.houseLetter + a.residence
  {
    a.streetName + " " + a.houseNumber + a.houseLetter + a.residence
  }

  /** The text before the first space (all of it when there is none). */
  function BeforeSpace(s: string): string
  {
    if s == [] || s[0] == ' ' then [] else [s[0]] + BeforeSpace(s[1..])
  }

  lemma {:induction false} BeforeSpaceOfJoin(p: string, q: string)
    requires forall i :: 0 <= i < |p| ==> p[i] != ' '
    ensures BeforeSpace(p + " " + q) == p
  {
    if p != [] {
      assert (p + " " + q)[1..] == p[1..] + " " + q;
      BeforeSpaceOfJoin(p[1..], q);
    }
  }

  /** A street name without spaces is what comes before the first space of the formatted address. */
  lemma StreetNameLeadsFormat(a: Address)
    requires forall i :: 0 <= i < |a.streetName| ==> a.streetName[i] != ' '
    ensures BeforeSpace(Format(a)) == a.streetName
  {
    BeforeSpaceOfJoin(a.streetName, a.houseNumber + a.houseLetter + a.residence);
    assert Format(a) == a.streetName + " " + (a.houseNumber + a.houseLetter + a.residence);
  }

  // ---------------------------------------------------------------------
  // UsageTime.UnmarshalJSON

  datatype UsageTime = UsageTime(instant: int)

  predicate AllQuotes(s: string) { forall i :: 0 <= i < |s| ==> s[i] == '"' }

  function TrimLeadingQuotes(s: string): (r: string)
    ensures |r| <= |s| && r == s[|s| - |r|..] && AllQuotes(s[..|s| - |r|])
    ensures r == [] || r[0] != '"'
  {
    if s != [] && s[0] == '"' then
      var r := TrimLeadingQuotes(s[1..]);
      assert s[..|s| - |r|] == ['"'] + s[1..][..|s| - 1 - |r|];
      r
    else s
  }

  function TrimTrailingQuotes(s: string): (r: string)
    ensures |r| <= |s| && r == s[..|r|] && AllQuotes(s[|r|..])
    ensures r == [] || r[|r| - 1] != '"'
  {
    if s != [] && s[|s| - 1] == '"' then
      var r := TrimTrailingQuotes(s[..|s| - 1]);
      assert s[|r|..] == s[..|s| - 1][|r|..] + ['"'];
      r
    else s
  }

  /** `strings.Trim(s, "\"")`: every leading and every trailing double quote removed. */
  function TrimQuotes(s: string): (r: string)
    ensures r == [] || (r[0] != '"' && r[|r| - 1] != '"')
  {
    TrimTrailingQuotes(TrimLeadingQuotes(s))
  }

  lemma {:induction false} TrimLeadingOfQuoted(p: string, v: string)
    requires AllQuotes(p) && (v == [] || v[0] != '"')
    ensures TrimLeadingQuotes(p + v) == v
  {
    if p != [] {
      assert (p + v)[1..] == p[1..] + v;
      TrimLeadingOfQuoted(p[1..], v);
    }
  }

  lemma {:induction false} TrimTrailingOfQuoted(v: string, q: string)
    requires AllQuotes(q) && (v == [] || v[|v| - 1] != '"')
    ensures TrimTrailingQuotes(v + q) == v
  {
    if q != [] {
      assert (v + q)[..|v + q| - 1] == v + q[..|q| - 1];
      TrimTrailingOfQuoted(v, q[..|q| - 1]);
    }
  }

  /** Trimming undoes any quoting of a value that neither starts nor ends with a quote. */
  lemma TrimQuotesOfQuoted(p: string, v: string, q: string)
    requires AllQuotes(p) && AllQuotes(q)
    requires v == [] || (v[0] != '"' && v[|v| - 1] != '"')
    ensures TrimQuotes(p + v + q) == v
  {
    if v == [] {
      assert p + v + q == p + q;
      TrimLeadingOfQuoted(p + q, []);
      assert p + q + [] == p + q;
    } else {
      assert p + v + q == p + (v + q);
      TrimLeadingOfQuoted(p, v + q);
      TrimTrailingOfQuoted(v, q);
    }
  }

  /** The time after `UnmarshalJSON` and the error it returned. */
  datatype Unmarshalled = Unmarshalled(time: UsageTime, err: Option<Error>)

  /**
   * `UsageTime.UnmarshalJSON` on `ut`. `parse` stands for `time.Parse` with the
   * layout "2006-01-02T15:04:05". The time is replaced only when parsing succeeds.
   */
  function UnmarshalUsageTime(ut: UsageTime, b: string, parse: string -> Result<int>): (u: Unmarshalled)
    ensures TrimQuotes(b) in {"", "null"} ==> u == Unmarshalled(ut, None)
    ensures u.err.Some? ==> u.time == ut
    ensures u.time != ut ==> parse(TrimQuotes(b)) == Ok(u.time.instant)
  {
    var value := TrimQuotes(b);
    if value == "" || value == "null" then Unmarshalled(ut, None)
    else match parse(value)
      case Err(e) => Unmarshalled(ut, Some(e))
      case Ok(t) => Unmarshalled(UsageTime(t), None)
  }

  /** A JSON `null` or an empty string, quoted any number of times, leaves the time as it was. */
  lemma QuotedNullLeavesTime(ut: UsageTime, p: string, q: string, parse: string -> Result<int>)
    requires AllQuotes(p) && AllQuotes(q)
    ensures UnmarshalUsageTime(ut, p + "null" + q, parse) == Unmarshalled(ut, None)
    ensures UnmarshalUsageTime(ut, p + q, parse) == Unmarshalled(ut, None)
  {
    TrimQuotesOfQuoted(p, "null", q);
    TrimQuotesOfQuoted(p, "", q);
    assert p + "" + q == p + q;
  }

  // ---------------------------------------------------------------------
  // getStatusCode

  /** `getStatusCode`: the status of the response, or `defaultValue` when there is none (nil). */
  function StatusCode(response: Option<int>, defaultValue: int): (code: int)
    ensures response.None? ==> code == defaultValue
    ensures response.Some? ==> code == response.value
  {
    if response.None? then defaultValue else response.value
  }

  // ---------------------------------------------------------------------
  // getCustomerInfo

  datatype Owner = Owner(customerId: uint64, firstName: string, lastName: string)
  datatype CustomerInfo = CustomerInfo(error: bool, owner: Owner)

  /**
   * `getCustomerInfo`. `remote` is what the request would give after the
   * argument checks: an error from building or sending it, a status other than
   * 200 or a body that does not decode, or the decoded body.
   */
  function GetCustomerInfo(baseUrl: string, accessToken: string, remote: Result<CustomerInfo>): (r: Result<CustomerInfo>)
    ensures baseUrl == "" ==> r == Err(New("base URL cannot be empty"))
    ensures baseUrl != "" && accessToken == "" ==> r == Err(RequestStatus("accessToken cannot be empty", 401))
    ensures r.Ok? <==> baseUrl != "" && accessToken != "" && remote.Ok? && !remote.value.error
    ensures r.Ok? ==> r == remote
    ensures baseUrl != "" && accessToken != "" && remote.Err? ==> r == remote
  {
    if baseUrl == "" then Err(New("base URL cannot be empty"))
    else if accessToken == "" then Err(RequestStatus("accessToken cannot be empty", 401))
    else match remote
      case Err(e) => Err(e)
      case Ok(info) => if info.error then Err(New("invalid customer info response")) else Ok(info)
  }

  // ---------------------------------------------------------------------
  // getMeteringPoints

  datatype MeteringPoint = MeteringPoint(
    meteringPointId: string,
    meteringPointNo: uint64,
    address: Address,
    isDistrictHeat: bool,
    resolution: string)

  datatype ActiveContract = ActiveContract(
    meteringPoint: MeteringPoint,
    meteringPointAddress: Address,
    productName: string,
    is15minAvailable: bool)

  datatype ContractsResponse = ContractsResponse(error: bool, active: seq<ActiveContract>)

  /** The metering point of a contract with the contract's address and a resolution from `Is15minAvailable`. */
  function ToPoint(c: ActiveContract): (p: MeteringPoint)
    ensures p.meteringPointId == c.meteringPoint.meteringPointId
    ensures p.meteringPointNo == c.meteringPoint.meteringPointNo
    ensures p.isDistrictHeat == c.meteringPoint.isDistrictHeat
    ensures p.address == c.meteringPointAddress
    ensures p.resolution == if c.is15minAvailable then "minute" else "hour"
  {
    c.meteringPoint.(address := c.meteringPointAddress,
                     resolution := if c.is15minAvailable then "minute" else "hour")
  }

  /** How many contracts are not for district heat. */
  function ElectricityCount(cs: seq<ActiveContract>): nat
  {
    if cs == [] then 0
    else ElectricityCount(cs[..|cs| - 1]) + (if cs[|cs| - 1].meteringPoint.isDistrictHeat then 0 else 1)
  }

  /** The points of the contracts that are not for district heat, in contract order. */
  function MeteringPointsOf(cs: seq<ActiveContract>): (r: seq<MeteringPoint>)
    ensures |r| == ElectricityCount(cs) <= |cs|
  {
    if cs == [] then []
    else
      var last := cs[|cs| - 1];
      MeteringPointsOf(cs[..|cs| - 1]) + (if last.meteringPoint.isDistrictHeat then [] else [ToPoint(last)])
  }

  /** No point is for district heat, and every resolution is "minute" or "hour". */
  lemma {:induction false} MeteringPointsAreElectricity(cs: seq<ActiveContract>)
    ensures forall i :: 0 <= i < |MeteringPointsOf(cs)| ==>
              var p := MeteringPointsOf(cs)[i];
              !p.isDistrictHeat && (p.resolution == "minute" || p.resolution == "hour")
  {
    if cs != [] {
      MeteringPointsAreElectricity(cs[..|cs| - 1]);
    }
  }

  /** The point of every contract that is not for district heat is among the points. */
  lemma {:induction false} ElectricityContractsKept(cs: seq<ActiveContract>)
    ensures forall c :: c in cs && !c.meteringPoint.isDistrictHeat ==> ToPoint(c) in MeteringPointsOf(cs)
  {
    if cs != [] {
      var init, last := cs[..|cs| - 1], cs[|cs| - 1];
      ElectricityContractsKept(init);
      assert forall c :: c in cs ==> c in init || c == last;
    }
  }

  /** Contract order is kept: the points of two runs of contracts are the points of each, one after the other. */
  lemma {:induction false} MeteringPointsOfAppend(a: seq<ActiveContract>, b: seq<ActiveContract>)
    ensures MeteringPointsOf(a + b) == MeteringPointsOf(a) + MeteringPointsOf(b)
  {
    if b == [] {
      assert a + b == a;
    } else {
      var last := b[|b| - 1];
      assert (a + b)[..|a + b| - 1] == a + b[..|b| - 1];
      MeteringPointsOfAppend(a, b[..|b| - 1]);
    }
  }

  /** Without district heat, the i-th point is the point of the i-th contract. */
  lemma {:induction false} MeteringPointsWithoutDistrictHeat(cs: seq<ActiveContract>)
    requires forall i :: 0 <= i < |cs| ==> !cs[i].meteringPoint.isDistrictHeat
    ensures |MeteringPointsOf(cs)| == |cs|
    ensures forall i :: 0 <= i < |cs| ==> MeteringPointsOf(cs)[i] == ToPoint(cs[i])
  {
    if cs != [] {
      var n := |cs| - 1;
      var init, rest := cs[..n], MeteringPointsOf(cs[..n]);
      MeteringPointsWithoutDistrictHeat(init);
      assert MeteringPointsOf(cs) == rest + [ToPoint(cs[n])];
    }
  }

  /** Only district heat: no points at all. */
  lemma {:induction false} OnlyDistrictHeatGivesNoPoints(cs: seq<ActiveContract>)
    requires forall i :: 0 <= i < |cs| ==> cs[i].meteringPoint.isDistrictHeat
    ensures MeteringPointsOf(cs) == []
  {
    if cs != [] {
      OnlyDistrictHeatGivesNoPoints(cs[..|cs| - 1]);
    }
  }

  /** What `getMeteringPoints` returns. */
  function MeteringPointsResult(baseUrl: string, remote: Result<ContractsResponse>): Result<seq<MeteringPoint>>
  {
    if baseUrl == "" then Err(New("base URL cannot be empty"))
    else match remote
      case Err(e) => Err(e)
      case Ok(response) =>
        if response.error then Err(New("invalid invoice info response")) else Ok(MeteringPointsOf(response.active))
  }

  /**
   * `getMeteringPoints`. `remote` is what the contracts request would give
   * after the base URL check, as for `GetCustomerInfo`.
   */
  method GetMeteringPoints(baseUrl: string, remote: Result<ContractsResponse>) returns (r: Result<seq<MeteringPoint>>)
    ensures r == MeteringPointsResult(baseUrl, remote)
    ensures baseUrl == "" ==> r == Err(New("base URL cannot be empty"))
    ensures baseUrl != "" && remote.Err? ==> r == Err(remote.error)
    ensures baseUrl != "" && remote.Ok? && remote.value.error ==> r == Err(New("invalid invoice info response"))
    ensures r.Ok? <==> baseUrl != "" && remote.Ok? && !remote.value.error
    ensures r.Ok? ==> r.value == MeteringPointsOf(remote.value.active)
  {
    if baseUrl == "" {
      return Err(New("base URL cannot be empty"));
    }
    if remote.Err? {
      return Err(remote.error);
    }
    if remote.value.error {
      return Err(New("invalid invoice info response"));
    }
    var contracts := remote.value.active;
    var points: seq<MeteringPoint> := [];
    for i := 0 to |contracts|
      invariant points == MeteringPointsOf(contracts[..i])
    {
      var active := contracts[i];
      assert contracts[..i + 1][..i] == contracts[..i];
      if active.meteringPoint.isDistrictHeat {
        continue;
      }
      active := active.(meteringPoint := active.meteringPoint.(address := active.meteringPointAddress));
      if active.is15minAvailable {
        active := active.(meteringPoint := active.meteringPoint.(resolution := "minute"));
      } else {
        active := active.(meteringPoint := active.meteringPoint.(resolution := "hour"));
      }
      points := points + [active.meteringPoint];
    }
    assert contracts[..|contracts|] == contracts;
    return Ok(points);
  }

  // ---------------------------------------------------------------------
  // getMeteringPointUsage

  /** The period asked for: from `then` to `now`. */
  datatype Window = Window(start: int, now: int)

  /**
   * The default window: `to` if given, else one day after the clock; `from` if
   * given, else three days before the end chosen.
   */
  function DefaultWindow(from: Option<int>, to: Option<int>, clock: int): (w: Window)
    ensures w.now == if to.Some? then to.value else clock + Day
    ensures w.start == if from.Some? then from.value else w.now - 3 * Day
    ensures from.None? ==> w.now - w.start == 72 * Hour
    ensures from.None? && to.None? ==> w.start == clock - 48 * Hour
  {
    var now := if to.Some? then to.value else clock + Day;
    var start := if from.Some? then from.value else now - 3 * Day;
    Window(start, now)
  }

  /** The query values set on the consumption request for one metering point. */
  datatype UsageQuery = UsageQuery(
    customerId: uint64,
    meteringPointNo: uint64,
    meteringPointId: string,
    resolution: string,
    from: int,
    to: int,
    latestMeasurement: int)

  datatype Consumption = Consumption(fromTime: UsageTime, energyCost: Float64, energy: Float64)

  datatype Usage = Usage(
    meteringPoint: MeteringPoint,
    error: bool,
    unit: string,
    costUnit: string,
    consumption: seq<Consumption>)

  /** What sending the consumption request gives. */
  datatype Exchange =
    | Unsent(cause: Error, response: Option<int>)      // client.Do failed; the status of a response, if any
    | Answered(status: int, body: Result<Usage>)       // a response and its decoded body

  /** The consumption service: a clock reading per metering point and the answer to each request. */
  datatype ConsumptionApi = ConsumptionApi(
    setup: Option<Error>,                              // url.Parse / http.NewRequest failure
    clock: nat -> int,                                 // time.Now() while fetching the i-th point
    exchange: (string, UsageQuery) -> Exchange)        // answer to a request with this token and query

  function QueryFor(customerId: uint64, point: MeteringPoint, w: Window): UsageQuery
  {
    UsageQuery(customerId, point.meteringPointNo, point.meteringPointId, point.resolution, w.start, w.now, w.now)
  }

  /** `getMeteringPointUsage` for one point, with the clock read as `clock`. */
  function PointUsage(api: ConsumptionApi, accessToken: string, customerId: uint64,
                      from: Option<int>, to: Option<int>, clock: int, point: MeteringPoint): (r: Result<Usage>)
    ensures var ex := api.exchange(accessToken, QueryFor(customerId, point, DefaultWindow(from, to, clock)));
            && (r.Ok? <==> ex.Answered? && ex.status == 200 && ex.body.Ok?)
            && (r.Ok? ==> r.value == ex.body.value.(meteringPoint := point))
            && (ex.Unsent? ==> r == Err(RequestStatus(Text(ex.cause), StatusCode(ex.response, 500))))
            && (ex.Answered? && ex.status != 200 ==>
                  r == Err(RequestStatus("invalid response status for meteringPointId " + point.meteringPointId, ex.status)))
            && (ex.Answered? && ex.status == 200 && ex.body.Err? ==>
                  r == Err(Joined(New("unable to parse usage response for meteringPointId " + point.meteringPointId), ex.body.error)))
  {
    var w := DefaultWindow(from, to, clock);
    match api.exchange(accessToken, QueryFor(customerId, point, w))
    case Unsent(cause, response) => Err(RequestStatus(Text(cause), StatusCode(response, 500)))
    case Answered(status, body) =>
      if status != 200 then
        Err(RequestStatus("invalid response status for meteringPointId " + point.meteringPointId, status))
      else match body
        case Err(e) => Err(Joined(New("unable to parse usage response for meteringPointId " + point.meteringPointId), e))
        case Ok(u) => Ok(u.(meteringPoint := point))
  }

  // ---------------------------------------------------------------------
  // getConsumptionData

  function UsageError(point: MeteringPoint, cause: Error): Error
  {
    Joined(New("could not get usage for meteringPointId " + point.meteringPointId), cause)
  }

  /** The usage of the i-th point: its fetch reads the i-th clock value. */
  function UsageAt(api: ConsumptionApi, accessToken: string, customerId: uint64,
                   from: Option<int>, to: Option<int>, points: seq<MeteringPoint>, i: nat): Result<Usage>
    requires i < |points|
  {
    PointUsage(api, accessToken, customerId, from, to, api.clock(i), points[i])
  }

  /**
   * The points from `i` on, in order; the first that fails ends the walk and
   * its error is the result.
   */
  function CollectUsage(api: ConsumptionApi, accessToken: string, customerId: uint64,
                        from: Option<int>, to: Option<int>, points: seq<MeteringPoint>, i: nat): (r: Result<seq<Usage>>)
    requires i <= |points|
    ensures r.Ok? <==> forall j :: i <= j < |points| ==> UsageAt(api, accessToken, customerId, from, to, points, j).Ok?
    ensures r.Ok? ==> |r.value| == |points| - i
    ensures r.Ok? ==> forall j :: i <= j < |points| ==>
              r.value[j - i] == UsageAt(api, accessToken, customerId, from, to, points, j).value
    ensures forall k :: i <= k < |points| && UsageAt(api, accessToken, customerId, from, to, points, k).Err? &&
                        (forall j :: i <= j < k ==> UsageAt(api, accessToken, customerId, from, to, points, j).Ok?) ==>
              r == Err(UsageError(points[k], UsageAt(api, accessToken, customerId, from, to, points, k).error))
    decreases |points| - i
  {
    if i == |points| then Ok([])
    else match UsageAt(api, accessToken, customerId, from, to, points, i)
      case Err(e) => Err(UsageError(points[i], e))
      case Ok(u) =>
        match CollectUsage(api, accessToken, customerId, from, to, points, i + 1)
        case Err(e) => Err(e)
        case Ok(rest) => Ok([u] + rest)
  }

  /** What `getConsumptionData` returns. */
  function ConsumptionData(api: ConsumptionApi, baseUrl: string, accessToken: string, customerId: uint64,
                           from: Option<int>, to: Option<int>, points: seq<MeteringPoint>): (r: Result<seq<Usage>>)
    ensures r.Ok? ==> |r.value| == |points|
  {
    if baseUrl == "" then Err(New("base URL cannot be empty"))
    else if api.setup.Some? then Err(api.setup.value)
    else CollectUsage(api, accessToken, customerId, from, to, points, 0)
  }

  /**
   * `getConsumptionData`: the usage of every point, in point order, or the
   * error of the first point whose usage cannot be fetched and no list at all.
   */
  method GetConsumptionData(api: ConsumptionApi, baseUrl: string, accessToken: string, customerId: uint64,
                            from: Option<int>, to: Option<int>, points: seq<MeteringPoint>) returns (r: Result<seq<Usage>>)
    ensures r == ConsumptionData(api, baseUrl, accessToken, customerId, from, to, points)
    ensures baseUrl != "" && api.setup.None? ==>
              (r.Ok? <==> forall j :: 0 <= j < |points| ==> UsageAt(api, accessToken, customerId, from, to, points, j).Ok?)
    ensures r.Ok? ==> |r.value| == |points|
    ensures r.Ok? ==> forall j :: 0 <= j < |points| ==> r.value[j].meteringPoint == points[j]
  {
    if baseUrl == "" {
      return Err(New("base URL cannot be empty"));
    }
    if api.setup.Some? {
      return Err(api.setup.value);
    }
    var usage: seq<Usage> := [];
    for i := 0 to |points|
      invariant |usage| == i
      invariant forall j :: 0 <= j < i ==> UsageAt(api, accessToken, customerId, from, to, points, j) == Ok(usage[j])
    {
      var u := PointUsage(api, accessToken, customerId, from, to, api.clock(i), points[i]);
      if u.Err? {
        return Err(UsageError(points[i], u.error));
      }
      usage := usage + [u.value];
    }
    ghost var all := CollectUsage(api, accessToken, customerId, from, to, points, 0);
    assert all.Ok? && |all.value| == |usage|;
    assert forall j :: 0 <= j < |usage| ==> all.value[j] == usage[j];
    assert all.value == usage;
    return Ok(usage);
  }
}
