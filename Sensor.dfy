/**
 * The current sensor platform (custom_components/mint_finance/sensor.py): the configuration the
 * update methods read, the net-worth sensor, whose asset and liability sublists are chosen by
 * account type, the per-category sensor with the `hass.data` store it publishes into, and the
 * platform setup that builds the sensor list.
 */
module Sensor {
  import opened Wrappers
  import opened SensorTypes
  import opened Accounts
  import opened CurrencyOverride
  import opened Aggregation

  /**
   * The part of the platform configuration the sensors read: the unit of measurement, the
   * monitored categories and the currency overrides, flattened into (currency, ids) pairs in
   * iteration order. An absent override option and an empty one are both the empty sequence.
   */
  datatype Config = Config(unitOfMeasurement: string, monitoredCategories: seq<string>,
                           accountCurrencyOverride: seq<Override>)

  /** An asset account: active and of an asset type. */
  predicate IsAssetAccount(a: Account) {
    IsActive(a) && a.accountType in ASSET_ACCOUNT_TYPES
  }

  /** A liability account: active and of a liability type. */
  predicate IsLiabilityAccount(a: Account) {
    IsActive(a) && a.accountType in LIABILITY_ACCOUNT_TYPES
  }

  /** The shared store the category sensors publish their account lists into, keyed by product type. */
  class Hass {
    var data: map<string, seq<Entry>>

    constructor ()
      ensures data == map[]
    {
      data := map[];
    }
  }

  /** The net-worth sensor: its state is the net worth, with the asset and liability totals beside it. */
  class NetWorthSensor {
    const config: Config
    const unitOfMeasurement: string
    var state: Option<int>
    var assets: Option<int>
    var liabilities: Option<int>

    constructor (config: Config)
      ensures this.config == config && unitOfMeasurement == config.unitOfMeasurement
      ensures state == None && assets == None && liabilities == None
    {
      this.config := config;
      unitOfMeasurement := config.unitOfMeasurement;
      state, assets, liabilities := None, None, None;
    }

    /**
     * One update over the fetched account list `data`, whose records it changes in place. On
     * success the three totals are stored; when a KeyError stops it the fields keep their values
     * and the records keep whatever changes were made before the failure.
     */
    method Update(data: array<Account>, convert: Converter) returns (failure: Option<Failure>)
      modifies this, data
      ensures var r := NetWorthRun(old(data[..]), IsAssetAccount, IsLiabilityAccount,
                                   config.accountCurrencyOverride, convert, unitOfMeasurement);
        && data[..] == r.accounts
        && (r.result.Ok? ==>
              failure == None && state == Some(r.result.value.netWorth)
              && assets == Some(r.result.value.assets) && liabilities == Some(r.result.value.liabilities))
        && (r.result.Err? ==>
              failure == Some(r.result.error)
              && state == old(state) && assets == old(assets) && liabilities == old(liabilities))
    {
      ghost var r := NetWorthRun(data[..], IsAssetAccount, IsLiabilityAccount,
                                 config.accountCurrencyOverride, convert, unitOfMeasurement);
      var result := NetWorthUpdate(data, IsAssetAccount, IsLiabilityAccount, config.accountCurrencyOverride,
                                   convert, unitOfMeasurement);
      assert result == r.result;
      if result.Err? {
        return Some(result.error);
      }
      SetTotals(result.value);
      failure := None;
    }

    /** Stores the three totals: the state is the net worth, the attributes the two sublist sums. */
    method SetTotals(totals: Totals)
      modifies this
      ensures state == Some(totals.netWorth) && assets == Some(totals.assets)
      ensures liabilities == Some(totals.liabilities)
    {
      state, assets, liabilities := Some(totals.netWorth), Some(totals.assets), Some(totals.liabilities);
    }
  }

  /**
   * A category sensor for one account type (`sensorType`, a key of SENSOR_TYPES): its state is the
   * formatted total of the category's active accounts, and it publishes their summaries under its
   * product type in `hass.data`.
   */
  class CategorySensor {
    const hass: Hass
    const config: Config
    const sensorType: string
    const productType: string
    const name: string
    const inverseSign: bool
    const unitOfMeasurement: string
    var state: Option<int>

    /**
     * The sensor's category is a table key, and its product type, name, sign flag and unit are
     * the ones the table and the configuration give it.
     */
    ghost predicate Valid() {
      && sensorType in SENSOR_TYPES
      && productType == SENSOR_TYPES[sensorType].productType
      && name == "Mint " + SENSOR_TYPES[sensorType].displayName
      && inverseSign == SENSOR_TYPES[sensorType].inverseSign
      && unitOfMeasurement == config.unitOfMeasurement
    }

    /** The configuration schema only admits keys of SENSOR_TYPES as categories. */
    constructor (hass: Hass, config: Config, sensorType: string)
      requires sensorType in SENSOR_TYPES
      ensures Valid()
      ensures this.hass == hass && this.config == config && this.sensorType == sensorType
      ensures productType == SENSOR_TYPES[sensorType].productType
      ensures name == "Mint " + SENSOR_TYPES[sensorType].displayName
      ensures inverseSign == SENSOR_TYPES[sensorType].inverseSign
      ensures unitOfMeasurement == config.unitOfMeasurement && state == None
    {
      this.hass := hass;
      this.config := config;
      this.sensorType := sensorType;
      productType := SENSOR_TYPES[sensorType].productType;
      name := "Mint " + SENSOR_TYPES[sensorType].displayName;
      inverseSign := SENSOR_TYPES[sensorType].inverseSign;
      unitOfMeasurement := config.unitOfMeasurement;
      state := None;
    }

    /**
     * One update over the fetched account list `data`: the category's accounts are converted in
     * place, the state is set, and the published list under the product type is rebuilt; a
     * KeyError stops it part-way, leaving what was done up to that point.
     */
    method Update(data: array<Account>, convert: Converter) returns (failure: Option<Failure>)
      modifies this, data, hass
      ensures var r := CategoryRun(old(data[..]), sensorType, inverseSign, config.accountCurrencyOverride,
                                   convert, unitOfMeasurement);
        && data[..] == r.accounts
        && failure == r.failure
        && state == (if r.state.Some? then r.state else old(state))
        && hass.data == (if r.published.Some? then old(hass.data)[productType := r.published.value] else old(hass.data))
    {
      var idx := Positions(data[..], CategoryFilter(sensorType));
      failure := ApplyCurrencyOverrides(data, idx, config.accountCurrencyOverride, convert, unitOfMeasurement);
      if failure.Some? {
        return;
      }
      state := Some(FormatBalance(inverseSign, SumAt(data[..], idx)));
      failure := PublishAccounts(data, idx);
    }

    /**
     * The publishing loop of an update: the list under the product type is reset to empty and
     * one summary per account at `idx` is appended, until an account without a name stops it.
     */
    method PublishAccounts(data: array<Account>, idx: seq<nat>) returns (failure: Option<Failure>)
      requires InBounds(idx, data.Length)
      modifies hass
      ensures var p := Publish(data[..], idx, inverseSign, []);
        failure == p.failure && hass.data == old(hass.data)[productType := p.entries]
    {
      hass.data := hass.data[productType := []];
      var j := 0;
      while j < |idx|
        invariant 0 <= j <= |idx|
        invariant productType in hass.data
        invariant hass.data == old(hass.data)[productType := hass.data[productType]]
        invariant Publish(data[..], idx, inverseSign, []) == Publish(data[..], idx[j..], inverseSign, hass.data[productType])
      {
        var account := data[idx[j]];
        assert idx[j..][0] == idx[j] && idx[j..][1..] == idx[j + 1..];
        if account.accountName.None? {
          return Some(MissingAccountName);
        }
        hass.data := hass.data[productType := hass.data[productType] + [EntryOf(account, inverseSign)]];
        j := j + 1;
      }
      failure := None;
    }
  }

  /** The categories to build sensors for: the configured ones, or every table key when none is configured. */
  function MonitoredCategories(configured: seq<string>): (r: seq<string>)
    ensures |r| > 0
    ensures (forall c :: c in configured ==> c in SENSOR_TYPES) ==> forall c :: c in r ==> c in SENSOR_TYPES
    ensures configured != [] ==> r == configured
    ensures configured == [] ==> forall c :: c in SENSOR_TYPES <==> c in r
  {
    if |configured| > 0 then configured else SENSOR_TYPE_KEYS
  }

  /** A sensor handed to the platform. */
  datatype Device = NetWorth(netWorth: NetWorthSensor) | Category(category: CategorySensor)

  /**
   * The platform setup: one net-worth sensor first, then one category sensor per monitored
   * category, in order, all sharing `hass` and the configuration.
   */
  method SetupPlatform(hass: Hass, config: Config) returns (sensors: seq<Device>)
    requires forall c :: c in config.monitoredCategories ==> c in SENSOR_TYPES
    ensures var categories := MonitoredCategories(config.monitoredCategories);
      && |sensors| == 1 + |categories|
      && sensors[0].NetWorth? && fresh(sensors[0].netWorth) && sensors[0].netWorth.config == config
      && sensors[0].netWorth.state == None
      && forall i :: 1 <= i < |sensors| ==>
           && sensors[i].Category? && fresh(sensors[i].category)
           && sensors[i].category.sensorType == categories[i - 1]
           && sensors[i].category.hass == hass && sensors[i].category.config == config
           && sensors[i].category.state == None && sensors[i].category.Valid()
  {
    var categories := MonitoredCategories(config.monitoredCategories);
    var netWorth := new NetWorthSensor(config);
    sensors := [NetWorth(netWorth)];
    var i := 0;
    while i < |categories|
      invariant 0 <= i <= |categories|
      invariant |sensors| == 1 + i
      invariant sensors[0] == NetWorth(netWorth) && fresh(netWorth) && netWorth.config == config && netWorth.state == None
      invariant forall j :: 1 <= j < |sensors| ==>
           && sensors[j].Category? && fresh(sensors[j].category)
           && sensors[j].category.sensorType == categories[j - 1]
           && sensors[j].category.hass == hass && sensors[j].category.config == config
           && sensors[j].category.state == None && sensors[j].category.Valid()
    {
      var category := new CategorySensor(hass, config, categories[i]);
      sensors := sensors + [Category(category)];
      i := i + 1;
    }
  }

  /** Every active account of a known type is exactly one of an asset account and a liability account. */
  lemma ActiveAccountsSplit(a: Account)
    requires IsActive(a) && a.accountType in SENSOR_TYPES
    ensures IsAssetAccount(a) != IsLiabilityAccount(a)
  {
    TypeListsPartitionKeys();
  }

  /** After a successful update the net worth is the asset total plus the liability total. */
  lemma NetWorthIsAssetsPlusLiabilities(d: seq<Account>, overrides: seq<Override>, convert: Converter, uom: string)
    requires NetWorthRun(d, IsAssetAccount, IsLiabilityAccount, overrides, convert, uom).result.Ok?
    ensures var t := NetWorthRun(d, IsAssetAccount, IsLiabilityAccount, overrides, convert, uom).result.value;
      t.netWorth == t.assets + t.liabilities
  {
    NetWorthRunOutcome(d, IsAssetAccount, IsLiabilityAccount, overrides, convert, uom);
    NetWorthRunTotals(d, IsAssetAccount, IsLiabilityAccount, overrides, convert, uom);
    forall k | 0 <= k < |d|
      ensures IsActive(d[k]) <==> IsAssetAccount(d[k]) || IsLiabilityAccount(d[k])
      ensures !(IsAssetAccount(d[k]) && IsLiabilityAccount(d[k]))
    {
      if IsActive(d[k]) {
        ActiveAccountsSplit(d[k]);
      }
    }
    SumWhereSplit(d, IsActive, IsAssetAccount, IsLiabilityAccount, ContributionOf(overrides, convert, uom));
  }

  /**
   * When every active account has a known type, the asset and liability sublists are disjoint and
   * together hold exactly the active accounts.
   */
  lemma SublistsPartitionActive(d: seq<Account>)
    requires ActiveTypesKnown(d)
    ensures forall k :: k in Positions(d, IsActive) <==> k in Positions(d, IsAssetAccount) || k in Positions(d, IsLiabilityAccount)
    ensures forall k :: !(k in Positions(d, IsAssetAccount) && k in Positions(d, IsLiabilityAccount))
  {
    forall k | 0 <= k < |d| && IsActive(d[k])
      ensures IsAssetAccount(d[k]) != IsLiabilityAccount(d[k])
    {
      ActiveAccountsSplit(d[k]);
    }
  }

  /**
   * With no conversion, and with every active balance reported as a non-negative amount, the asset
   * total is non-negative and the liability total non-positive: asset types keep their sign and
   * liability types are negated.
   */
  lemma TotalsHaveTheirSigns(d: seq<Account>, convert: Converter, uom: string)
    requires forall k :: 0 <= k < |d| && IsActive(d[k]) ==> d[k].currentBalance >= 0
    requires NetWorthRun(d, IsAssetAccount, IsLiabilityAccount, [], convert, uom).result.Ok?
    ensures var t := NetWorthRun(d, IsAssetAccount, IsLiabilityAccount, [], convert, uom).result.value;
      t.assets >= 0 && t.liabilities <= 0
  {
    var value := ContributionOf([], convert, uom);
    NetWorthRunTotals(d, IsAssetAccount, IsLiabilityAccount, [], convert, uom);
    InvertedTypesAreLiabilities();
    TypeListsPartitionKeys();
    forall k | 0 <= k < |d| && IsActive(d[k])
      ensures value(d[k]) == FormatBalance(InverseSign(d[k].accountType), d[k].currentBalance)
    {
      ContributionOfUnlisted(d[k], [], convert, uom);
    }
    SumWhereNonNegative(d, IsAssetAccount, value);
    SumWhereNonPositive(d, IsLiabilityAccount, value);
  }
}
