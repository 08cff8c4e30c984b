/** The account page reader of wikipolicyd/settings_server.py
    (`RealWikilinkSettingsServer`): the balance, plan name and remaining
    high-speed data scraped from the provider's page, cached for a short
    refresh window.

    The login request and the regular-expression search are not modelled:
    each page fetch is given as a `Fetch` value, holding for each of the
    three searches either the captured `target` group or no match. Time is
    an integer clock in milliseconds. */
module Settings {
  import opened Wrappers
  import opened Digits

  /** `_REFRESH_FREQUENCY_S` (1.0 s), in milliseconds. */
  const RefreshWindowMs: int := 1000

  /** `_should_refresh_data`: strictly more than the window has passed since the last update. */
  predicate ShouldRefresh(now: int, lastUpdateTime: int) {
    now - lastUpdateTime > RefreshWindowMs
  }

  /** Once a refresh is due it stays due as time goes on. */
  lemma ShouldRefreshMonotone(now: int, later: int, lastUpdateTime: int)
    requires now <= later && ShouldRefresh(now, lastUpdateTime)
    ensures ShouldRefresh(later, lastUpdateTime)
  {
  }

  // ---------------------------------------------------------------------
  // The captured texts and their conversions.

  /** Position of the first `c` in `s`, or `|s|` if there is none. */
  function IndexOf(s: string, c: char): (i: nat)
    ensures i <= |s|
    ensures i < |s| ==> s[i] == c
    ensures forall j :: 0 <= j < i ==> s[j] != c
  {
    if s == [] then 0
    else if s[0] == c then 0
    else 1 + IndexOf(s[1..], c)
  }

  /** Text matched by the balance group `\d+,\d+`. */
  predicate IsBalanceText(s: string) {
    var i := IndexOf(s, ',');
    i < |s| && IsDigits(s[..i]) && IsDigits(s[i + 1..])
  }

  /** `rubles, kopeikas = balance.split(',')` and `int(rubles) * 100 + int(kopeikas)`.
      The kopeika part is not checked to be two digits or below 100. */
  function BalanceKopeikas(text: string): (kopeikas: int)
    requires IsBalanceText(text)
    ensures kopeikas >= 0
  {
    var i := IndexOf(text, ',');
    DecimalValue(text[..i]) * 100 + DecimalValue(text[i + 1..])
  }

  /** Rubles `r` and kopeikas `k` joined by a comma are a balance text, worth `r * 100 + k`. */
  lemma BalanceKopeikasOfParts(r: string, k: string)
    requires IsDigits(r) && IsDigits(k)
    ensures IsBalanceText(r + "," + k)
    ensures BalanceKopeikas(r + "," + k) == DecimalValue(r) * 100 + DecimalValue(k)
  {
    var s := r + "," + k;
    assert s[|r|] == ',';
    var i := IndexOf(s, ',');
    assert i == |r|;
    assert s[..i] == r;
    assert s[i + 1..] == k;
  }

  lemma BalanceKopeikasExample()
    ensures IsBalanceText("12,34") && BalanceKopeikas("12,34") == 1234
  {
    assert "12,34" == "12" + "," + "34";
    BalanceKopeikasOfParts("12", "34");
    assert "12"[..1] == "1" && "34"[..1] == "3";
  }

  /** The kopeika part is taken at face value: "1,5" is 105 and "1,234" is 334 kopeikas. */
  lemma BalanceKopeikasUncheckedKopeikas()
    ensures IsBalanceText("1,5") && BalanceKopeikas("1,5") == 105
    ensures IsBalanceText("1,234") && BalanceKopeikas("1,234") == 334
  {
    assert "1,5" == "1" + "," + "5";
    BalanceKopeikasOfParts("1", "5");
    assert "1,234" == "1" + "," + "234";
    BalanceKopeikasOfParts("1", "234");
    assert "234"[..2] == "23" && "23"[..1] == "2";
  }

  /** Text matched by the remaining-data group `\d+(\.\d)?`. */
  predicate IsRemainingText(s: string) {
    || IsDigits(s)
    || (|s| >= 3 && s[|s| - 2] == '.' && IsDigit(s[|s| - 1]) && IsDigits(s[..|s| - 2]))
  }

  /** The captured amount in tenths of a MB (its exact decimal value, times ten). */
  function RemainingTenths(s: string): nat
    requires IsRemainingText(s)
  {
    if IsDigits(s) then DecimalValue(s) * 10
    else DecimalValue(s[..|s| - 2]) * 10 + DigitValue(s[|s| - 1])
  }

  /** `math.ceil(float(text))`, computed on the exact decimal value. */
  function RemainingMbCeil(s: string): nat
    requires IsRemainingText(s)
  {
    if IsDigits(s) then DecimalValue(s)
    else DecimalValue(s[..|s| - 2]) + (if DigitValue(s[|s| - 1]) > 0 then 1 else 0)
  }

  /** The converted amount is the least whole number of MB not below the captured amount. */
  lemma RemainingMbIsCeiling(s: string)
    requires IsRemainingText(s)
    ensures RemainingTenths(s) <= RemainingMbCeil(s) * 10 < RemainingTenths(s) + 10
  {
    if !IsDigits(s) {
      assert DigitValue(s[|s| - 1]) < 10;
    }
  }

  lemma RemainingMbExamples()
    ensures IsRemainingText("512") && RemainingMbCeil("512") == 512
    ensures IsRemainingText("12.3") && RemainingMbCeil("12.3") == 13
    ensures IsRemainingText("12.0") && RemainingMbCeil("12.0") == 12
    ensures IsRemainingText("0.0") && RemainingMbCeil("0.0") == 0
  {
    assert "512"[..2] == "51" && "51"[..1] == "5" && "5"[..0] == "";
    assert "12.3"[..2] == "12" && "12"[..1] == "1";
    assert "12.0"[..2] == "12";
    assert "0.0"[..1] == "0";
    assert "12.3"[1] == '2' && "12.0"[2] == '.' && "0.0"[1] == '.';
  }

  // ---------------------------------------------------------------------
  // What a page fetch yields, and the refresh rule on the cached values.

  /** The `target` group of each of the three searches on the page, `None` for no match. */
  datatype PageMatches = PageMatches(balance: Option<string>, plan: Option<string>, remaining: Option<string>)

  /** The captures have the shapes their regular expressions give them. */
  predicate WellFormedMatches(p: PageMatches) {
    && (p.balance.Some? ==> IsBalanceText(p.balance.value))
    && (p.remaining.Some? ==> IsRemainingText(p.remaining.value))
  }

  /** A page fetch: the matches on the page, or `None` when the login request raised. */
  type Fetch = Option<PageMatches>

  predicate WellFormedFetch(fetch: Fetch) {
    fetch.Some? ==> WellFormedMatches(fetch.value)
  }

  datatype RefreshError =
    | RequestFailed       // `requests.post` raised
    | BalanceNotFound     // 'Could not parse account balance'
    | PlanNotFound        // 'Could not parse traffic plan'
    | RemainingNotFound   // 'Could not parse remaining high-speed data amount'

  /** The cached fields of the server object. */
  datatype Cache = Cache(balance: int, plan: string, remainingMb: int, lastUpdateTime: int)

  /** `_refresh_data` on cached values `c`: stamp the time once the page has
      been fetched, then set balance, plan and remaining data in that order,
      stopping with an error at the first search that found nothing. */
  function Refresh(c: Cache, fetch: Fetch, now: int): (Cache, Outcome<RefreshError>)
    requires WellFormedFetch(fetch)
  {
    if fetch.None? then (c, Fail(RequestFailed))
    else
      var p := fetch.value;
      var stamped := c.(lastUpdateTime := now);
      if p.balance.None? then (stamped, Fail(BalanceNotFound))
      else
        var withBalance := stamped.(balance := BalanceKopeikas(p.balance.value));
        if p.plan.None? then (withBalance, Fail(PlanNotFound))
        else
          var withPlan := withBalance.(plan := p.plan.value);
          if p.remaining.None? then (withPlan, Fail(RemainingNotFound))
          else (withPlan.(remainingMb := RemainingMbCeil(p.remaining.value)), Pass)
  }

  /** What the getters do before returning a field: refresh only when due. */
  function Poll(c: Cache, checkTime: int, fetchTime: int, fetch: Fetch): (Cache, Outcome<RefreshError>)
    requires WellFormedFetch(fetch)
  {
    if ShouldRefresh(checkTime, c.lastUpdateTime) then Refresh(c, fetch, fetchTime) else (c, Pass)
  }

  /** A refresh succeeds exactly when the page was fetched and all three searches
      matched, and then every cached field holds the page's value. */
  lemma RefreshSucceeds(c: Cache, fetch: Fetch, now: int)
    requires WellFormedFetch(fetch)
    ensures Refresh(c, fetch, now).1.Pass? <==>
      fetch.Some? && fetch.value.balance.Some? && fetch.value.plan.Some? && fetch.value.remaining.Some?
    ensures Refresh(c, fetch, now).1.Pass? ==>
      var p := fetch.value;
      Refresh(c, fetch, now).0 ==
        Cache(BalanceKopeikas(p.balance.value), p.plan.value, RemainingMbCeil(p.remaining.value), now)
  {
  }

  /** The failed request changes nothing; a missing balance changes only the update
      time; a missing plan changes the balance too but not plan or remaining data;
      a missing remaining amount leaves only that field as it was. */
  lemma RefreshFailsInOrder(c: Cache, fetch: Fetch, now: int)
    requires WellFormedFetch(fetch)
    ensures fetch.None? ==> Refresh(c, fetch, now) == (c, Fail(RequestFailed))
    ensures fetch.Some? && fetch.value.balance.None? ==>
      Refresh(c, fetch, now) == (c.(lastUpdateTime := now), Fail(BalanceNotFound))
    ensures fetch.Some? && fetch.value.balance.Some? && fetch.value.plan.None? ==>
      var r := Refresh(c, fetch, now);
      && r.1 == Fail(PlanNotFound)
      && r.0.balance == BalanceKopeikas(fetch.value.balance.value)
      && r.0.plan == c.plan && r.0.remainingMb == c.remainingMb && r.0.lastUpdateTime == now
    ensures fetch.Some? && fetch.value.balance.Some? && fetch.value.plan.Some? && fetch.value.remaining.None? ==>
      var r := Refresh(c, fetch, now);
      && r.1 == Fail(RemainingNotFound)
      && r.0.balance == BalanceKopeikas(fetch.value.balance.value)
      && r.0.plan == fetch.value.plan.value
      && r.0.remainingMb == c.remainingMb && r.0.lastUpdateTime == now
  {
  }

  /** A successful refresh caches a non-negative balance and remaining amount. */
  lemma RefreshedValuesNonNegative(c: Cache, fetch: Fetch, now: int)
    requires WellFormedFetch(fetch)
    requires Refresh(c, fetch, now).1.Pass?
    ensures Refresh(c, fetch, now).0.balance >= 0 && Refresh(c, fetch, now).0.remainingMb >= 0
  {
  }

  /** Within the window a getter performs no refresh and returns the cached value. */
  lemma PollWithinWindow(c: Cache, checkTime: int, fetchTime: int, fetch: Fetch)
    requires WellFormedFetch(fetch)
    requires checkTime - c.lastUpdateTime <= RefreshWindowMs
    ensures Poll(c, checkTime, fetchTime, fetch) == (c, Pass)
  {
  }

  /** Once the page has been fetched at `now`, even if a search then failed, every
      getter called within the window at a later time reports no error and returns
      the fields as that refresh left them. */
  lemma RefreshHeldForWindow(c: Cache, fetch: Fetch, now: int, checkTime: int, fetchTime: int, next: Fetch)
    requires WellFormedFetch(fetch) && WellFormedFetch(next)
    requires fetch.Some?
    requires now <= checkTime <= now + RefreshWindowMs
    ensures Poll(Refresh(c, fetch, now).0, checkTime, fetchTime, next) == (Refresh(c, fetch, now).0, Pass)
  {
    assert Refresh(c, fetch, now).0.lastUpdateTime == now;
  }

  // ---------------------------------------------------------------------
  // The server object.

  /** `RealWikilinkSettingsServer`: the login and the cached account fields. */
  class RealWikilinkSettingsServer {
    const username: string
    const password: string
    var balance: int
    var plan: string
    var remainingMb: int
    var lastUpdateTime: int
    /** How many login requests (page fetches) this object has made. */
    ghost var requests: nat

    function State(): Cache
      reads this
    {
      Cache(balance, plan, remainingMb, lastUpdateTime)
    }

    /** Stores the credentials. The cached fields do not exist in the Python
        object until the first refresh; here they start at placeholders that
        `Connect` always overwrites before handing the object out. */
    constructor WithCredentials(username: string, password: string)
      ensures this.username == username && this.password == password
      ensures State() == Cache(0, "", 0, 0) && requests == 0
    {
      this.username := username;
      this.password := password;
      balance, plan, remainingMb, lastUpdateTime := 0, "", 0, 0;
      requests := 0;
    }

    /** `__init__`: store the credentials and refresh once; a failed first
        refresh means no object is built. */
    static method Connect(username: string, password: string, fetch: Fetch, now: int)
      returns (r: Result<RealWikilinkSettingsServer, RefreshError>)
      requires WellFormedFetch(fetch)
      ensures r.Failure? <==> Refresh(Cache(0, "", 0, 0), fetch, now).1.Fail?
      ensures r.Failure? ==> r.error == Refresh(Cache(0, "", 0, 0), fetch, now).1.error
      ensures r.Success? ==>
        && fresh(r.value)
        && r.value.username == username && r.value.password == password
        && r.value.State() == Refresh(Cache(0, "", 0, 0), fetch, now).0
        && r.value.requests == 1
    {
      var server := new RealWikilinkSettingsServer.WithCredentials(username, password);
      var outcome := server.RefreshData(fetch, now);
      if outcome.Fail? {
        return Failure(outcome.error);
      }
      return Success(server);
    }

    /** `_should_refresh_data` at clock reading `now`. */
    predicate ShouldRefreshData(now: int)
      reads this
    {
      ShouldRefresh(now, lastUpdateTime)
    }

    /** `_refresh_data`: one page fetch, then the fields in order, raising at the first miss. */
    method RefreshData(fetch: Fetch, now: int) returns (outcome: Outcome<RefreshError>)
      requires WellFormedFetch(fetch)
      modifies this
      ensures (State(), outcome) == Refresh(old(State()), fetch, now)
      ensures requests == old(requests) + 1
    {
      requests := requests + 1;
      if fetch.None? {
        return Fail(RequestFailed);
      }
      var page := fetch.value;
      lastUpdateTime := now;
      if page.balance.None? {
        return Fail(BalanceNotFound);
      }
      balance := BalanceKopeikas(page.balance.value);
      if page.plan.None? {
        return Fail(PlanNotFound);
      }
      plan := page.plan.value;
      if page.remaining.None? {
        return Fail(RemainingNotFound);
      }
      remainingMb := RemainingMbCeil(page.remaining.value);
      return Pass;
    }

    /** The refresh-if-due step shared by the three getters; `checkTime` is the
        clock read by `_should_refresh_data`, `fetchTime` the one read after the fetch. */
    method RefreshIfDue(checkTime: int, fetchTime: int, fetch: Fetch) returns (outcome: Outcome<RefreshError>)
      requires WellFormedFetch(fetch)
      modifies this
      ensures (State(), outcome) == Poll(old(State()), checkTime, fetchTime, fetch)
      ensures requests == old(requests) + if ShouldRefresh(checkTime, old(lastUpdateTime)) then 1 else 0
    {
      outcome := Pass;
      if ShouldRefreshData(checkTime) {
        outcome := RefreshData(fetch, fetchTime);
      }
    }

    /** `get_balance`: balance in kopeikas, refreshed first when due. */
    method GetBalance(checkTime: int, fetchTime: int, fetch: Fetch) returns (r: Result<int, RefreshError>)
      requires WellFormedFetch(fetch)
      modifies this
      ensures State() == Poll(old(State()), checkTime, fetchTime, fetch).0
      ensures r == match Poll(old(State()), checkTime, fetchTime, fetch).1
        case Pass => Success(balance)
        case Fail(e) => Failure(e)
      ensures requests == old(requests) + if ShouldRefresh(checkTime, old(lastUpdateTime)) then 1 else 0
    {
      var outcome := RefreshIfDue(checkTime, fetchTime, fetch);
      if outcome.Fail? {
        return Failure(outcome.error);
      }
      return Success(balance);
    }

    /** `get_plan_name`: the plan name, refreshed first when due. */
    method GetPlanName(checkTime: int, fetchTime: int, fetch: Fetch) returns (r: Result<string, RefreshError>)
      requires WellFormedFetch(fetch)
      modifies this
      ensures State() == Poll(old(State()), checkTime, fetchTime, fetch).0
      ensures r == match Poll(old(State()), checkTime, fetchTime, fetch).1
        case Pass => Success(plan)
        case Fail(e) => Failure(e)
      ensures requests == old(requests) + if ShouldRefresh(checkTime, old(lastUpdateTime)) then 1 else 0
    {
      var outcome := RefreshIfDue(checkTime, fetchTime, fetch);
      if outcome.Fail? {
        return Failure(outcome.error);
      }
      return Success(plan);
    }

    /** `get_remaining_mb`: remaining high-speed data in MB, refreshed first when due. */
    method GetRemainingMb(checkTime: int, fetchTime: int, fetch: Fetch) returns (r: Result<int, RefreshError>)
      requires WellFormedFetch(fetch)
      modifies this
      ensures State() == Poll(old(State()), checkTime, fetchTime, fetch).0
      ensures r == match Poll(old(State()), checkTime, fetchTime, fetch).1
        case Pass => Success(remainingMb)
        case Fail(e) => Failure(e)
      ensures requests == old(requests) + if ShouldRefresh(checkTime, old(lastUpdateTime)) then 1 else 0
    {
      var outcome := RefreshIfDue(checkTime, fetchTime, fetch);
      if outcome.Fail? {
        return Failure(outcome.error);
      }
      return Success(remainingMb);
    }
  }
}
