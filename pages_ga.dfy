/**
 * The dashboard's Google Analytics helpers (apps/pages/ga.py): duration and
 * date formatting, the lazily built client, the defensive call wrapper,
 * the non-zero overview with its fallback metric sets, and the mappers
 * that turn report rows into chart and table entries.
 */
module PagesGa {
  import opened Wrappers
  import opened Text
  import opened Reporting

  // ---------------------------------------------------------------------
  // Formatting

  /**
   * `_fmt_secs_to_hms` on a whole number of seconds; `None` stands for a
   * value `float` rejects, which gives the fallback text. Python's `divmod`
   * floors, as Dafny's `/` and `%` do for a positive divisor.
   */
  function FmtSecsToHms(sec: Option<int>): (r: string)
    ensures sec.None? ==> r == "0:00:00"
    ensures 7 <= |r| && r[|r| - 3] == ':' && r[|r| - 6] == ':'
  {
    match sec
    case None => "0:00:00"
    case Some(n) =>
      var m := n / 60;
      IntText(m / 60) + ":" + Pad2(m % 60) + ":" + Pad2(n % 60)
  }

  /** Reads `h:mm:ss` back into seconds, refusing minutes or seconds of 60 or more. */
  function ParseHms(s: string): Option<int> {
    if |s| < 7 || s[|s| - 3] != ':' || s[|s| - 6] != ':' then None
    else if !AllDigits(s[|s| - 5..|s| - 3]) || !AllDigits(s[|s| - 2..]) then None
    else
      match ParseInt(s[..|s| - 6])
      case None => None
      case Some(h) =>
        var mm := DigitsValue(s[|s| - 5..|s| - 3]);
        var ss := DigitsValue(s[|s| - 2..]);
        if mm < 60 && ss < 60 then Some(3600 * h + 60 * mm + ss) else None
  }

  /**
   * The text shows h = n / 3600, mm = (n / 60) % 60 and ss = n % 60, two
   * digits each for mm and ss, and 3600 * h + 60 * mm + ss == n: reading
   * it back gives n.
   */
  lemma HmsRoundTrip(n: int)
    ensures ParseHms(FmtSecsToHms(Some(n))) == Some(n)
  {
    var m := n / 60;
    var h, mm, ss := m / 60, m % 60, n % 60;
    var s := FmtSecsToHms(Some(n));
    assert s == IntText(h) + ":" + Pad2(mm) + ":" + Pad2(ss);
    assert s[..|s| - 6] == IntText(h);
    assert s[|s| - 5..|s| - 3] == Pad2(mm);
    assert s[|s| - 2..] == Pad2(ss);
    IntTextParses(h);
    assert n == 60 * m + ss && m == 60 * h + mm;
  }

  /** `f"{d[0:4]}-{d[4:6]}-{d[6:8]}"`: a compact `YYYYMMDD` date in ISO form. */
  function IsoDate(d: string): (r: string)
    ensures |r| == 2 + (if |d| < 8 then |d| else 8)
    ensures |d| == 8 ==> r[4] == '-' && r[7] == '-' && r[..4] + r[5..7] + r[8..] == d
  {
    var r := PySlice(d, 0, 4) + "-" + PySlice(d, 4, 6) + "-" + PySlice(d, 6, 8);
    assert |d| == 8 ==> r[..4] == d[..4] && r[5..7] == d[4..6] && r[8..] == d[6..] && d == d[..4] + d[4..6] + d[6..];
    r
  }

  // ---------------------------------------------------------------------
  // Client and defensive calls

  /** Service-account credentials, from a key file or an inline key. */
  datatype Credentials = Credentials(key: string)

  datatype Client = Client(credentials: Credentials)

  /**
   * The cache after one `get_client` call: a cached client stays, otherwise
   * a client is built from the credentials, if there are any.
   */
  function CachedAfter(cached: Option<Client>, creds: Option<Credentials>): (c: Option<Client>)
    ensures cached.Some? ==> c == cached
    ensures c.Some? <==> cached.Some? || creds.Some?
  {
    if cached.Some? then cached
    else if creds.Some? then Some(Client(creds.value))
    else None
  }

  /** Asking again changes nothing: the client is built at most once. */
  lemma CachedAfterIdempotent(cached: Option<Client>, creds: Option<Credentials>, later: Option<Credentials>)
    ensures CachedAfter(CachedAfter(cached, creds), creds) == CachedAfter(cached, creds)
    ensures CachedAfter(cached, creds).Some? ==>
              CachedAfter(CachedAfter(cached, creds), later) == CachedAfter(cached, creds)
  {
  }

  /** `_safe_run`: the call's value, or the fallback whatever the call raised. */
  function SafeRun<T>(call: Result<T, string>, fallback: T): (v: T)
    ensures call.Failure? ==> v == fallback
    ensures call.Success? ==> v == call.value
  {
    match call
    case Success(x) => x
    case Failure(_) => fallback
  }

  /** What one defensive report call yields: no client means the call raised. */
  function Attempt(available: bool, run: Runner, req: ReportRequest): Option<seq<Row>> {
    if available then run(req) else None
  }

  /** The process-wide `_GA_CLIENT`. */
  class GaClientCache {
    var client: Option<Client>

    constructor ()
      ensures client.None?
    {
      client := None;
    }

    /** `get_client`: without a cached client and without credentials it raises. */
    method GetClient(creds: Option<Credentials>) returns (r: Result<Client, string>)
      modifies this
      ensures client == CachedAfter(old(client), creds)
      ensures r.Success? <==> client.Some?
      ensures r.Success? ==> r.value == client.value
    {
      if client.None? {
        if creds.None? {
          return Failure("GA credentials not configured");
        }
        client := Some(Client(creds.value));
      }
      r := Success(client.value);
    }

    /** `_safe_run(lambda: get_client().run_report(req), None)`. */
    method RunSafely(creds: Option<Credentials>, run: Runner, req: ReportRequest) returns (res: Option<seq<Row>>)
      modifies this
      ensures client == CachedAfter(old(client), creds)
      ensures res == Attempt(old(client).Some? || creds.Some?, run, req)
    {
      var c := GetClient(creds);
      var call: Result<Option<seq<Row>>, string>;
      if c.Failure? {
        call := Failure(c.error);
      } else if run(req).None? {
        call := Failure("GA4 API error");
      } else {
        call := Success(run(req));
      }
      res := SafeRun(call, None);
    }
  }

  /**
   * `if not PROPERTY_ID: return []`, then one defensive call: the rows of
   * the response, or none.
   */
  method FetchRows(cache: GaClientCache, pid: string, creds: Option<Credentials>, run: Runner, req: ReportRequest)
    returns (rows: seq<Row>)
    modifies cache
    ensures pid == "" ==> rows == [] && cache.client == old(cache.client)
    ensures pid != "" ==>
              rows == RowsOf(Attempt(old(cache.client).Some? || creds.Some?, run, req))
              && cache.client == CachedAfter(old(cache.client), creds)
  {
    if pid == "" {
      return [];
    }
    var res := cache.RunSafely(creds, run, req);
    rows := RowsOf(res);
  }

  // ---------------------------------------------------------------------
  // Non-zero overview

  /** One overview card; the display text is not modelled. */
  datatype MetricCard = MetricCard(key: string, value: int)

  const FullMetrics: seq<string> := [
    "activeUsers", "newUsers", "sessions", "screenPageViews",
    "eventCount", "conversions", "totalRevenue",
    "userEngagementDuration", "averageSessionDuration",
    "sessionsPerUser", "engagementRate", "bounceRate"]

  const ReducedMetrics: seq<string> := [
    "activeUsers", "newUsers", "sessions", "screenPageViews", "eventCount",
    "averageSessionDuration", "engagementRate"]

  const BasicMetrics: seq<string> := ["activeUsers", "sessions", "screenPageViews"]

  /** The metric sets, tried in this order. */
  const Fallbacks: seq<seq<string>> := [FullMetrics, ReducedMetrics, BasicMetrics]

  /** Rates are shown as percentages. */
  predicate IsRate(key: string) {
    key == "engagementRate" || key == "bounceRate"
  }

  /**
   * The number a card shows: rates are scaled to percent, which keeps their
   * sign, so filtering on the shown value keeps exactly the positive metrics.
   */
  function MetricValue(key: string, raw: int): (r: int)
    ensures r > 0 <==> raw > 0
    ensures !IsRate(key) ==> r == raw
  {
    if IsRate(key) then raw * 100 else raw
  }

  predicate Distinct(names: seq<string>) {
    forall i, j :: 0 <= i < j < |names| ==> names[i] != names[j]
  }

  predicate KeysDistinct(cards: seq<MetricCard>) {
    forall i, j :: 0 <= i < j < |cards| ==> cards[i].key != cards[j].key
  }

  predicate SortedDesc(cards: seq<MetricCard>) {
    forall i, j :: 0 <= i < j < |cards| ==> cards[i].value >= cards[j].value
  }

  lemma FallbacksDistinct()
    ensures forall j :: 0 <= j < |Fallbacks| ==> Distinct(Fallbacks[j])
  {
  }

  /**
   * The cards of one response row, in metric order: a card for each metric
   * whose value is positive.
   */
  function Cards(names: seq<string>, metrics: seq<int>): (r: seq<MetricCard>)
    requires |names| <= |metrics|
    ensures forall c :: c in r ==> c.value > 0 && c.key in names
    ensures forall c :: c in r ==>
              exists i :: 0 <= i < |names| && metrics[i] > 0 && c == MetricCard(names[i], MetricValue(names[i], metrics[i]))
    decreases |names|
  {
    if names == [] then []
    else
      var i := |names| - 1;
      var v := MetricValue(names[i], metrics[i]);
      var before := Cards(names[..i], metrics);
      assert forall k :: 0 <= k < i ==> names[..i][k] == names[k];
      before + (if v > 0 then [MetricCard(names[i], v)] else [])
  }

  /** A metric that is zero or negative never yields a card. */
  lemma NonPositiveMetricDropped(names: seq<string>, metrics: seq<int>, i: nat)
    requires |names| <= |metrics| && Distinct(names) && i < |names|
    requires metrics[i] <= 0
    ensures forall c :: c in Cards(names, metrics) ==> c.key != names[i]
  {
    forall c | c in Cards(names, metrics)
      ensures c.key != names[i]
    {
      var k :| 0 <= k < |names| && metrics[k] > 0 && c == MetricCard(names[k], MetricValue(names[k], metrics[k]));
      assert k != i;
    }
  }

  /** No positive metric is dropped. */
  lemma {:induction false} CardsComplete(names: seq<string>, metrics: seq<int>, i: nat)
    requires |names| <= |metrics| && i < |names|
    requires MetricValue(names[i], metrics[i]) > 0
    ensures MetricCard(names[i], MetricValue(names[i], metrics[i])) in Cards(names, metrics)
    decreases |names|
  {
    var n := |names| - 1;
    if i < n {
      CardsComplete(names[..n], metrics, i);
    }
  }

  /** Distinct metric names give cards with distinct keys. */
  lemma {:induction false} CardsKeysDistinct(names: seq<string>, metrics: seq<int>)
    requires |names| <= |metrics| && Distinct(names)
    ensures KeysDistinct(Cards(names, metrics))
    decreases |names|
  {
    if names != [] {
      var n := |names| - 1;
      var before := Cards(names[..n], metrics);
      assert Distinct(names[..n]);
      CardsKeysDistinct(names[..n], metrics);
      forall c | c in before
        ensures c.key != names[n]
      {
        var k :| 0 <= k < n && names[..n][k] == c.key;
        assert names[k] == c.key;
      }
      var r := Cards(names, metrics);
      forall i, j | 0 <= i < j < |r|
        ensures r[i].key != r[j].key
      {
        if j == |before| {
          assert r[i] in before;
        } else {
          assert r[i] == before[i] && r[j] == before[j];
        }
      }
    }
  }

  /** Places `x` before the first card whose value is not larger, so earlier equals stay first. */
  function Insert(x: MetricCard, sorted: seq<MetricCard>): (r: seq<MetricCard>)
    ensures multiset(r) == multiset(sorted) + multiset{x}
  {
    if sorted == [] || sorted[0].value <= x.value then [x] + sorted
    else
      assert sorted == [sorted[0]] + sorted[1..];
      [sorted[0]] + Insert(x, sorted[1..])
  }

  lemma {:induction false} InsertSorted(x: MetricCard, sorted: seq<MetricCard>)
    requires SortedDesc(sorted)
    ensures SortedDesc(Insert(x, sorted))
  {
    if sorted != [] && sorted[0].value > x.value {
      var rest := Insert(x, sorted[1..]);
      InsertSorted(x, sorted[1..]);
      InsertElements(x, sorted[1..]);
      forall c | c in sorted[1..]
        ensures c.value <= sorted[0].value
      {
        var j :| 0 <= j < |sorted[1..]| && sorted[1..][j] == c;
        assert sorted[j + 1] == c;
      }
      var r := [sorted[0]] + rest;
      forall i, j | 0 <= i < j < |r|
        ensures r[i].value >= r[j].value
      {
        if i == 0 {
          assert r[j] in rest;
        } else {
          assert r[i] == rest[i - 1] && r[j] == rest[j - 1];
        }
      }
    }
  }

  /** `list.sort(key=value, reverse=True)`: a permutation, largest value first. */
  function SortDesc(cards: seq<MetricCard>): (r: seq<MetricCard>)
    ensures multiset(r) == multiset(cards)
    ensures |r| == |cards|
    ensures SortedDesc(r)
  {
    if cards == [] then []
    else
      assert cards == [cards[0]] + cards[1..];
      var rest := SortDesc(cards[1..]);
      InsertSorted(cards[0], rest);
      Insert(cards[0], rest)
  }

  /** What `Insert` returns holds `x` and the cards it was given, and nothing else. */
  lemma InsertElements(x: MetricCard, sorted: seq<MetricCard>)
    ensures forall c :: c in Insert(x, sorted) <==> c == x || c in sorted
  {
    var r := Insert(x, sorted);
    forall c
      ensures c in r <==> c == x || c in sorted
    {
      assert c in r <==> c in multiset(r);
      assert c in sorted <==> c in multiset(sorted);
    }
  }

  lemma HeadKeyUnique(cards: seq<MetricCard>)
    requires cards != [] && KeysDistinct(cards)
    ensures forall c :: c in cards[1..] ==> c.key != cards[0].key
  {
    forall c | c in cards[1..]
      ensures c.key != cards[0].key
    {
      var j :| 0 <= j < |cards[1..]| && cards[1..][j] == c;
      assert cards[j + 1] == c;
    }
  }

  lemma {:induction false} InsertKeysDistinct(x: MetricCard, sorted: seq<MetricCard>)
    requires KeysDistinct(sorted)
    requires forall c :: c in sorted ==> c.key != x.key
    ensures KeysDistinct(Insert(x, sorted))
  {
    if sorted == [] || sorted[0].value <= x.value {
      var r := [x] + sorted;
      assert r == Insert(x, sorted);
      forall i, j | 0 <= i < j < |r|
        ensures r[i].key != r[j].key
      {
        if i == 0 {
          assert r[j] == sorted[j - 1];
        } else {
          assert r[i] == sorted[i - 1] && r[j] == sorted[j - 1];
        }
      }
    } else {
      var rest := Insert(x, sorted[1..]);
      InsertKeysDistinct(x, sorted[1..]);
      InsertElements(x, sorted[1..]);
      HeadKeyUnique(sorted);
      var r := [sorted[0]] + rest;
      assert r == Insert(x, sorted);
      forall i, j | 0 <= i < j < |r|
        ensures r[i].key != r[j].key
      {
        if i == 0 {
          assert r[j] == rest[j - 1];
          assert r[j] in rest;
        } else {
          assert r[i] == rest[i - 1] && r[j] == rest[j - 1];
        }
      }
    }
  }

  /** Sorting keeps each key at most once. */
  lemma {:induction false} SortDescKeysDistinct(cards: seq<MetricCard>)
    requires KeysDistinct(cards)
    ensures KeysDistinct(SortDesc(cards))
  {
    if cards != [] {
      SortDescKeysDistinct(cards[1..]);
      var sortedRest := SortDesc(cards[1..]);
      forall c | c in sortedRest
        ensures c.key != cards[0].key
      {
        assert c in multiset(cards[1..]);
        var j :| 0 <= j < |cards[1..]| && cards[1..][j] == c;
        assert cards[j + 1] == c;
      }
      InsertKeysDistinct(cards[0], sortedRest);
    }
  }

  /** The overview request for one metric set: no dimensions, the last seven days. */
  function OverviewRequest(pid: string, names: seq<string>): ReportRequest {
    ReportRequest(PropertyName(pid), [], names, "7daysAgo", None, None)
  }

  /** The first metric set, from `i` on, whose call returned rows. */
  function FirstWithRows(pid: string, available: bool, run: Runner, i: nat): (j: Option<nat>)
    requires i <= |Fallbacks|
    ensures j.Some? ==>
              i <= j.value < |Fallbacks|
              && RowsOf(Attempt(available, run, OverviewRequest(pid, Fallbacks[j.value]))) != []
    ensures j.Some? ==> forall k :: i <= k < j.value ==>
              RowsOf(Attempt(available, run, OverviewRequest(pid, Fallbacks[k]))) == []
    ensures j.None? ==> forall k :: i <= k < |Fallbacks| ==>
              RowsOf(Attempt(available, run, OverviewRequest(pid, Fallbacks[k]))) == []
    decreases |Fallbacks| - i
  {
    if i == |Fallbacks| then None
    else if RowsOf(Attempt(available, run, OverviewRequest(pid, Fallbacks[i]))) != [] then Some(i)
    else FirstWithRows(pid, available, run, i + 1)
  }

  /**
   * `get_nonzero_overview_7d`: nothing without a property; otherwise the
   * positive cards of the first row of the first metric set that answers
   * with rows, largest first; nothing if no set answers.
   */
  function Overview(pid: string, available: bool, run: Runner): (r: seq<MetricCard>)
    requires WellShaped(run)
    ensures pid == "" ==> r == []
    ensures forall c :: c in r ==> c.value > 0
    ensures SortedDesc(r) && KeysDistinct(r)
    ensures r != [] ==> pid != "" && FirstWithRows(pid, available, run, 0).Some?
    ensures r != [] ==> forall c :: c in r ==> c.key in Fallbacks[FirstWithRows(pid, available, run, 0).value]
  {
    if pid == "" then []
    else
      match FirstWithRows(pid, available, run, 0)
      case None => []
      case Some(j) =>
        var req := OverviewRequest(pid, Fallbacks[j]);
        var row := RowsOf(Attempt(available, run, req))[0];
        assert |row.metrics| == |Fallbacks[j]|;
        FallbacksDistinct();
        var cards := Cards(Fallbacks[j], row.metrics);
        CardsKeysDistinct(Fallbacks[j], row.metrics);
        SortDescKeysDistinct(cards);
        var r := SortDesc(cards);
        assert forall c :: c in r ==> c in multiset(cards);
        r
  }

  /** When set `i` is the first to answer with rows, the overview is built from its first row. */
  lemma OverviewFromFirstAnswer(pid: string, available: bool, run: Runner, i: nat)
    requires WellShaped(run) && pid != "" && i < |Fallbacks|
    requires forall k :: 0 <= k < i ==> RowsOf(Attempt(available, run, OverviewRequest(pid, Fallbacks[k]))) == []
    requires RowsOf(Attempt(available, run, OverviewRequest(pid, Fallbacks[i]))) != []
    ensures var rows := RowsOf(Attempt(available, run, OverviewRequest(pid, Fallbacks[i])));
            |Fallbacks[i]| <= |rows[0].metrics|
            && Overview(pid, available, run) == SortDesc(Cards(Fallbacks[i], rows[0].metrics))
  {
    var j := FirstWithRows(pid, available, run, 0);
    assert j == Some(i);
  }

  /** When no set answers with rows, the overview is empty. */
  lemma OverviewWithoutAnswer(pid: string, available: bool, run: Runner)
    requires WellShaped(run)
    requires forall k :: 0 <= k < |Fallbacks| ==> RowsOf(Attempt(available, run, OverviewRequest(pid, Fallbacks[k]))) == []
    ensures Overview(pid, available, run) == []
  {
    var j := FirstWithRows(pid, available, run, 0);
    assert j.None?;
  }

  /** The inner loop of `get_nonzero_overview_7d`: a card for each positive metric, in metric order. */
  method CardsOfRow(names: seq<string>, metrics: seq<int>) returns (out: seq<MetricCard>)
    requires |names| <= |metrics|
    ensures out == Cards(names, metrics)
  {
    out := [];
    var k := 0;
    while k < |names|
      invariant 0 <= k <= |names| && out == Cards(names[..k], metrics)
    {
      var v := MetricValue(names[k], metrics[k]);
      if v > 0 {
        out := out + [MetricCard(names[k], v)];
      }
      assert names[..k + 1][..k] == names[..k];
      k := k + 1;
    }
    assert names[..k] == names;
  }

  /**
   * The loop of `get_nonzero_overview_7d`: each metric set in turn, the
   * cards of the first row of the first answer, then the sort.
   */
  method NonzeroOverview7d(cache: GaClientCache, pid: string, creds: Option<Credentials>, run: Runner)
    returns (out: seq<MetricCard>)
    requires WellShaped(run)
    modifies cache
    ensures out == Overview(pid, old(cache.client).Some? || creds.Some?, run)
    ensures cache.client == if pid == "" then old(cache.client) else CachedAfter(old(cache.client), creds)
  {
    if pid == "" {
      return [];
    }
    ghost var available := cache.client.Some? || creds.Some?;
    var i := 0;
    while i < |Fallbacks|
      invariant 0 <= i <= |Fallbacks|
      invariant forall k :: 0 <= k < i ==> RowsOf(Attempt(available, run, OverviewRequest(pid, Fallbacks[k]))) == []
      invariant cache.client == if i == 0 then old(cache.client) else CachedAfter(old(cache.client), creds)
      invariant available == (cache.client.Some? || creds.Some?)
    {
      var names := Fallbacks[i];
      var res := cache.RunSafely(creds, run, OverviewRequest(pid, names));
      if res.Some? && res.value != [] {
        OverviewFromFirstAnswer(pid, available, run, i);
        var row := res.value[0];
        out := CardsOfRow(names, row.metrics);
        out := SortDesc(out);
        return;
      }
      i := i + 1;
    }
    OverviewWithoutAnswer(pid, available, run);
    out := [];
  }

  // ---------------------------------------------------------------------
  // Row mappers

  /** A point of the 30-day line chart. */
  datatype DailyTraffic = DailyTraffic(date: string, sessions: int, activeUsers: int)

  /** A labelled count (`{"label", "value"}`): a doughnut slice or a bar. */
  datatype Slice = Slice(name: string, value: int)

  datatype PageViews = PageViews(title: string, path: string, views: int)

  datatype SourceSessions = SourceSessions(source: string, medium: string, sessions: int, conversions: int)

  function TimeseriesRequest(pid: string): ReportRequest {
    ReportRequest(PropertyName(pid), ["date"], ["sessions", "activeUsers"], "30daysAgo", None, None)
  }

  /** The device breakdown asks for 28 days, although its name says seven. */
  function DevicesRequest(pid: string): ReportRequest {
    ReportRequest(PropertyName(pid), ["deviceCategory"], ["sessions"], "28daysAgo", None, None)
  }

  function CountriesRequest(pid: string, limit: int): ReportRequest {
    ReportRequest(PropertyName(pid), ["country"], ["sessions"], "7daysAgo", Some(limit), Some("sessions"))
  }

  function TopPagesRequest(pid: string, limit: int): ReportRequest {
    ReportRequest(PropertyName(pid), ["pageTitle", "pagePathPlusQueryString"], ["screenPageViews"],
                  "7daysAgo", Some(limit), Some("screenPageViews"))
  }

  function SourcesRequest(pid: string, limit: int): ReportRequest {
    ReportRequest(PropertyName(pid), ["sessionSource", "sessionMedium"], ["sessions", "conversions"],
                  "7daysAgo", Some(limit), Some("sessions"))
  }

  /** The loop of `get_timeseries_30d`: one point per row, in row order, with an ISO date. */
  method TimeseriesPoints(rows: seq<Row>) returns (out: seq<DailyTraffic>)
    requires Shaped(TimeseriesRequest(""), rows)
    ensures |out| == |rows|
    ensures forall i :: 0 <= i < |rows| ==>
              out[i].date == IsoDate(rows[i].dimensions[0])
              && out[i].sessions == rows[i].metrics[0] && out[i].activeUsers == rows[i].metrics[1]
  {
    out := [];
    var i := 0;
    while i < |rows|
      invariant 0 <= i <= |rows| && |out| == i
      invariant forall j :: 0 <= j < i ==>
                  out[j].date == IsoDate(rows[j].dimensions[0])
                  && out[j].sessions == rows[j].metrics[0] && out[j].activeUsers == rows[j].metrics[1]
    {
      var d := rows[i].dimensions[0];
      out := out + [DailyTraffic(IsoDate(d), rows[i].metrics[0], rows[i].metrics[1])];
      i := i + 1;
    }
  }

  /** The comprehension of `get_devices_7d` and `get_countries_7d`: one slice per row, in row order. */
  function Slices(rows: seq<Row>): (r: seq<Slice>)
    requires forall i :: 0 <= i < |rows| ==> |rows[i].dimensions| >= 1 && |rows[i].metrics| >= 1
    ensures |r| == |rows|
    ensures forall i :: 0 <= i < |rows| ==> r[i].name == rows[i].dimensions[0] && r[i].value == rows[i].metrics[0]
  {
    seq(|rows|, i requires 0 <= i < |rows| => Slice(rows[i].dimensions[0], rows[i].metrics[0]))
  }

  /** The loop of `get_top_pages_7d`: an empty title or path is replaced, so neither is ever empty. */
  method TopPages(rows: seq<Row>) returns (out: seq<PageViews>)
    requires Shaped(TopPagesRequest("", 0), rows)
    ensures |out| == |rows|
    ensures forall i :: 0 <= i < |rows| ==>
              out[i].title != "" && out[i].path != "" && out[i].views == rows[i].metrics[0]
              && (rows[i].dimensions[0] != "" ==> out[i].title == rows[i].dimensions[0])
              && (rows[i].dimensions[0] == "" ==> out[i].title == "(untitled)")
              && (rows[i].dimensions[1] != "" ==> out[i].path == rows[i].dimensions[1])
              && (rows[i].dimensions[1] == "" ==> out[i].path == "/")
  {
    out := [];
    var i := 0;
    while i < |rows|
      invariant 0 <= i <= |rows| && |out| == i
      invariant forall j :: 0 <= j < i ==>
                  out[j].title != "" && out[j].path != "" && out[j].views == rows[j].metrics[0]
                  && (rows[j].dimensions[0] != "" ==> out[j].title == rows[j].dimensions[0])
                  && (rows[j].dimensions[0] == "" ==> out[j].title == "(untitled)")
                  && (rows[j].dimensions[1] != "" ==> out[j].path == rows[j].dimensions[1])
                  && (rows[j].dimensions[1] == "" ==> out[j].path == "/")
    {
      var r := rows[i];
      var title := if r.dimensions[0] != "" then r.dimensions[0] else "(untitled)";
      var path := if r.dimensions[1] != "" then r.dimensions[1] else "/";
      out := out + [PageViews(title, path, r.metrics[0])];
      i := i + 1;
    }
  }

  /** The loop of `get_sources_7d`: one entry per row, in row order. */
  method Sources(rows: seq<Row>) returns (out: seq<SourceSessions>)
    requires Shaped(SourcesRequest("", 0), rows)
    ensures |out| == |rows|
    ensures forall i :: 0 <= i < |rows| ==>
              out[i] == SourceSessions(rows[i].dimensions[0], rows[i].dimensions[1], rows[i].metrics[0], rows[i].metrics[1])
  {
    out := [];
    var i := 0;
    while i < |rows|
      invariant 0 <= i <= |rows| && |out| == i
      invariant forall j :: 0 <= j < i ==>
                  out[j] == SourceSessions(rows[j].dimensions[0], rows[j].dimensions[1], rows[j].metrics[0], rows[j].metrics[1])
    {
      var r := rows[i];
      out := out + [SourceSessions(r.dimensions[0], r.dimensions[1], r.metrics[0], r.metrics[1])];
      i := i + 1;
    }
  }

  // ---------------------------------------------------------------------
  // The public helpers

  method Timeseries30d(cache: GaClientCache, pid: string, creds: Option<Credentials>, run: Runner)
    returns (out: seq<DailyTraffic>)
    requires WellShaped(run)
    modifies cache
    ensures pid == "" ==> out == [] && cache.client == old(cache.client)
    ensures pid != "" ==> cache.client == CachedAfter(old(cache.client), creds)
    ensures var rows := if pid == "" then [] else RowsOf(Attempt(old(cache.client).Some? || creds.Some?, run, TimeseriesRequest(pid)));
            |out| == |rows|
            && forall i :: 0 <= i < |rows| ==>
                 out[i] == DailyTraffic(IsoDate(rows[i].dimensions[0]), rows[i].metrics[0], rows[i].metrics[1])
  {
    var rows := FetchRows(cache, pid, creds, run, TimeseriesRequest(pid));
    out := TimeseriesPoints(rows);
  }

  method Devices7d(cache: GaClientCache, pid: string, creds: Option<Credentials>, run: Runner)
    returns (out: seq<Slice>)
    requires WellShaped(run)
    modifies cache
    ensures pid == "" ==> out == [] && cache.client == old(cache.client)
    ensures pid != "" ==> cache.client == CachedAfter(old(cache.client), creds)
                          && out == Slices(RowsOf(Attempt(old(cache.client).Some? || creds.Some?, run, DevicesRequest(pid))))
  {
    var rows := FetchRows(cache, pid, creds, run, DevicesRequest(pid));
    out := Slices(rows);
  }

  method Countries7d(cache: GaClientCache, pid: string, creds: Option<Credentials>, run: Runner, limit: int)
    returns (out: seq<Slice>)
    requires WellShaped(run)
    modifies cache
    ensures pid == "" ==> out == [] && cache.client == old(cache.client)
    ensures pid != "" ==> cache.client == CachedAfter(old(cache.client), creds)
                          && out == Slices(RowsOf(Attempt(old(cache.client).Some? || creds.Some?, run, CountriesRequest(pid, limit))))
  {
    var rows := FetchRows(cache, pid, creds, run, CountriesRequest(pid, limit));
    out := Slices(rows);
  }

  method TopPages7d(cache: GaClientCache, pid: string, creds: Option<Credentials>, run: Runner, limit: int)
    returns (out: seq<PageViews>)
    requires WellShaped(run)
    modifies cache
    ensures pid == "" ==> out == [] && cache.client == old(cache.client)
    ensures pid != "" ==> cache.client == CachedAfter(old(cache.client), creds)
    ensures var rows := if pid == "" then [] else RowsOf(Attempt(old(cache.client).Some? || creds.Some?, run, TopPagesRequest(pid, limit)));
            |out| == |rows|
            && forall i :: 0 <= i < |rows| ==>
                 out[i].views == rows[i].metrics[0]
                 && out[i].title == (if rows[i].dimensions[0] != "" then rows[i].dimensions[0] else "(untitled)")
                 && out[i].path == (if rows[i].dimensions[1] != "" then rows[i].dimensions[1] else "/")
  {
    var rows := FetchRows(cache, pid, creds, run, TopPagesRequest(pid, limit));
    out := TopPages(rows);
  }

  method Sources7d(cache: GaClientCache, pid: string, creds: Option<Credentials>, run: Runner, limit: int)
    returns (out: seq<SourceSessions>)
    requires WellShaped(run)
    modifies cache
    ensures pid == "" ==> out == [] && cache.client == old(cache.client)
    ensures pid != "" ==> cache.client == CachedAfter(old(cache.client), creds)
    ensures var rows := if pid == "" then [] else RowsOf(Attempt(old(cache.client).Some? || creds.Some?, run, SourcesRequest(pid, limit)));
            |out| == |rows|
            && forall i :: 0 <= i < |rows| ==>
                 out[i] == SourceSessions(rows[i].dimensions[0], rows[i].dimensions[1], rows[i].metrics[0], rows[i].metrics[1])
  {
    var rows := FetchRows(cache, pid, creds, run, SourcesRequest(pid, limit));
    out := Sources(rows);
  }
}
