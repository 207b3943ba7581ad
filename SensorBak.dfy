/**
 * The earlier sensor platform (custom_components/mint_finance/sensor.bak.py). Its category sensor,
 * its tables and `format_balance` are the same as in the current platform and are shared with it;
 * what differs is the net-worth sensor, which chooses its asset and liability sublists by the sign
 * of the raw balance, read before the balances are normalised. The file also has `how_long_ago`.
 */
module SensorBak {
  import opened Wrappers
  import opened SensorTypes
  import opened Accounts
  import opened CurrencyOverride
  import opened Aggregation
  import Sensor

  /** An asset account here: active, with a positive raw balance. */
  predicate IsAssetAccount(a: Account) {
    IsActive(a) && a.currentBalance > 0
  }

  /** A liability account here: active, with a negative raw balance. */
  predicate IsLiabilityAccount(a: Account) {
    IsActive(a) && a.currentBalance < 0
  }

  /** An active account with a zero raw balance, counted in neither sublist. */
  predicate IsZeroBalanceAccount(a: Account) {
    IsActive(a) && a.currentBalance == 0
  }

  /** An active account with a non-zero raw balance. */
  predicate IsNonZeroBalanceAccount(a: Account) {
    IsActive(a) && a.currentBalance != 0
  }

  /** The net-worth sensor of the earlier platform. */
  class NetWorthSensor {
    const config: Sensor.Config
    const unitOfMeasurement: string
    var state: Option<int>
    var assets: Option<int>
    var liabilities: Option<int>

    constructor (config: Sensor.Config)
      ensures this.config == config && unitOfMeasurement == config.unitOfMeasurement
      ensures state == None && assets == None && liabilities == None
    {
      this.config := config;
      unitOfMeasurement := config.unitOfMeasurement;
      state, assets, liabilities := None, None, None;
    }

    /**
     * One update over the fetched account list `data`: the sublists are chosen by raw sign, then
     * the active records are normalised and converted in place and the three totals are stored;
     * a KeyError stops it and keeps the fields as they were.
     */
    method Update(data: array<Account>, convert: Converter) returns (failure: Option<Failure>)
      modifies this, data
      ensures var r := NetWorthRun(old(data[..]), IsAssetAccount, IsLiabilityAccount,
                                   config.accountCurrencyOverride, convert, unitOfMeasurement);
        && data[..] == r.accounts
        && (r.result.Ok? ==>
              failure == None && state == Some(r.result.value.netWorth)
              && assets == Some(r.result.value.assets) && liabilities == Some(r.result.value.liabilities))
        && (r.result.Err? ==>
              failure == Some(r.result.error)
              && state == old(state) && assets == old(assets) && liabilities == old(liabilities))
    {
      ghost var r := NetWorthRun(data[..], IsAssetAccount, IsLiabilityAccount,
                                 config.accountCurrencyOverride, convert, unitOfMeasurement);
      var result := NetWorthUpdate(data, IsAssetAccount, IsLiabilityAccount, config.accountCurrencyOverride,
                                   convert, unitOfMeasurement);
      assert result == r.result;
      if result.Err? {
        return Some(result.error);
      }
      SetTotals(result.value);
      failure := None;
    }

    /** Stores the three totals: the state is the net worth, the attributes the two sublist sums. */
    method SetTotals(totals: Totals)
      modifies this
      ensures state == Some(totals.netWorth) && assets == Some(totals.assets)
      ensures liabilities == Some(totals.liabilities)
    {
      state, assets, liabilities := Some(totals.netWorth), Some(totals.assets), Some(totals.liabilities);
    }
  }

  /** A sensor handed to the earlier platform. */
  datatype Device = NetWorth(netWorth: NetWorthSensor) | Category(category: Sensor.CategorySensor)

  /**
   * The sensor list of the earlier platform's setup: one net-worth sensor first, then one category
   * sensor per monitored category, in order.
   */
  method ContinueSetupPlatform(hass: Sensor.Hass, config: Sensor.Config) returns (sensors: seq<Device>)
    requires forall c :: c in config.monitoredCategories ==> c in SENSOR_TYPES
    ensures var categories := Sensor.MonitoredCategories(config.monitoredCategories);
      && |sensors| == 1 + |categories|
      && sensors[0].NetWorth? && fresh(sensors[0].netWorth) && sensors[0].netWorth.config == config
      && sensors[0].netWorth.state == None
      && forall i :: 1 <= i < |sensors| ==>
           && sensors[i].Category? && fresh(sensors[i].category)
           && sensors[i].category.sensorType == categories[i - 1]
           && sensors[i].category.hass == hass && sensors[i].category.config == config
           && sensors[i].category.state == None && sensors[i].category.Valid()
  {
    var categories := Sensor.MonitoredCategories(config.monitoredCategories);
    var netWorth := new NetWorthSensor(config);
    sensors := [NetWorth(netWorth)];
    for i := 0 to |categories|
      invariant |sensors| == 1 + i
      invariant sensors[0] == NetWorth(netWorth) && fresh(netWorth) && netWorth.config == config && netWorth.state == None
      invariant forall j :: 1 <= j < |sensors| ==>
           && sensors[j].Category? && fresh(sensors[j].category)
           && sensors[j].category.sensorType == categories[j - 1]
           && sensors[j].category.hass == hass && sensors[j].category.config == config
           && sensors[j].category.state == None && sensors[j].category.Valid()
    {
      var category := new Sensor.CategorySensor(hass, config, categories[i]);
      sensors := sensors + [Category(category)];
    }
  }

  /**
   * After a successful update the net worth is the asset total plus the liability total plus the
   * contributions of the zero-balance accounts, which are in neither sublist.
   */
  lemma NetWorthCountsZeroBalances(d: seq<Account>, overrides: seq<Override>, convert: Converter, uom: string)
    requires NetWorthRun(d, IsAssetAccount, IsLiabilityAccount, overrides, convert, uom).result.Ok?
    ensures var t := NetWorthRun(d, IsAssetAccount, IsLiabilityAccount, overrides, convert, uom).result.value;
      t.netWorth == t.assets + t.liabilities + SumWhere(d, IsZeroBalanceAccount, ContributionOf(overrides, convert, uom))
  {
    var value := ContributionOf(overrides, convert, uom);
    NetWorthRunTotals(d, IsAssetAccount, IsLiabilityAccount, overrides, convert, uom);
    SumWhereSplit(d, IsActive, IsNonZeroBalanceAccount, IsZeroBalanceAccount, value);
    SumWhereSplit(d, IsNonZeroBalanceAccount, IsAssetAccount, IsLiabilityAccount, value);
  }

  /**
   * When converting zero always gives zero, zero-balance accounts contribute nothing and the net
   * worth is exactly the asset total plus the liability total.
   */
  lemma NetWorthIsAssetsPlusLiabilities(d: seq<Account>, overrides: seq<Override>, convert: Converter, uom: string)
    requires forall c :: convert(0, c, uom) == 0
    requires NetWorthRun(d, IsAssetAccount, IsLiabilityAccount, overrides, convert, uom).result.Ok?
    ensures var t := NetWorthRun(d, IsAssetAccount, IsLiabilityAccount, overrides, convert, uom).result.value;
      t.netWorth == t.assets + t.liabilities
  {
    var value := ContributionOf(overrides, convert, uom);
    NetWorthCountsZeroBalances(d, overrides, convert, uom);
    forall k | 0 <= k < |d| && IsZeroBalanceAccount(d[k])
      ensures value(d[k]) == 0
    {
      ContributionOfZero(d[k], overrides, convert, uom);
    }
    SumWhereOfZeros(d, IsZeroBalanceAccount, value);
  }

  /**
   * An active account of an inverted type (mortgage, credit, loan) whose raw balance is positive
   * and whose id is not listed is an asset account, yet contributes its negated balance: it
   * lowers the asset total.
   */
  lemma InvertedPositiveAccountLowersAssets(a: Account, overrides: seq<Override>, convert: Converter, uom: string)
    requires IsActive(a) && InverseSign(a.accountType) && a.currentBalance > 0
    requires !Listed(overrides, a.id)
    ensures IsAssetAccount(a) && !IsLiabilityAccount(a)
    ensures Contribution(a, overrides, convert, uom) == -a.currentBalance < 0
  {
    ContributionOfUnlisted(a, overrides, convert, uom);
  }

  // ---------------------------------------------------------------------------------------------
  // `how_long_ago`, on the difference `c` in whole seconds.

  /** The bucket `how_long_ago` reports, with its count. */
  datatype Ago = Days(days: int) | Hours(hours: int) | Minutes(minutes: int)

  /**
   * The integer part of `how_long_ago`. Floor division and modulo by a positive constant agree
   * with Dafny's operators, also for a negative difference.
   */
  function HowLongAgo(c: int): (r: Ago)
    ensures r.Days? <==> c >= 86400
    ensures r.Days? ==> r.days * 86400 <= c < (r.days + 1) * 86400
    ensures r.Hours? ==> 0 < r.hours < 24
    ensures r.Minutes? ==> 0 <= r.minutes < 60
    ensures 0 <= c ==> (r.Hours? <==> 3600 <= c < 86400) && (r.Minutes? <==> c < 3600)
    ensures 0 <= c && r.Hours? ==> r.hours * 3600 <= c < (r.hours + 1) * 3600
    ensures 0 <= c && r.Minutes? ==> r.minutes * 60 <= c < (r.minutes + 1) * 60
  {
    var days := c / 86400;
    var hours := c / 3600 % 24;
    var minutes := c / 60 % 60;
    if days > 0 then Days(days)
    else if hours > 0 then Hours(hours)
    else Minutes(minutes)
  }

  /**
   * A time stamp less than an hour in the future gives a negative difference whose hour count
   * wraps to 23: it is reported as 23 hours ago.
   */
  lemma FutureStampWithinAnHour(c: int)
    requires -3600 <= c < 0
    ensures HowLongAgo(c) == Hours(23)
  {
    assert c / 86400 == -1;
    assert c / 3600 == -1;
  }

  /**
   * A time stamp at most 23 hours in the future is always reported in hours: the count is 24 less
   * the whole hours, rounded up, by which the stamp lies ahead.
   */
  lemma FutureStampWithin23Hours(c: int)
    requires -82800 <= c < 0
    ensures HowLongAgo(c).Hours?
    ensures (HowLongAgo(c).hours - 24) * 3600 <= c < (HowLongAgo(c).hours - 23) * 3600
  {
    assert c / 86400 == -1;
    assert -23 <= c / 3600 <= -1;
    assert c / 3600 % 24 == c / 3600 + 24;
  }

  /** A time stamp between 23 hours and a day in the future has hour count zero and is reported in minutes. */
  lemma FutureStampNearlyADayAhead(c: int)
    requires -86400 <= c < -82800
    ensures HowLongAgo(c).Minutes?
  {
    assert c / 86400 == -1;
    assert c / 3600 == -24;
  }
}
