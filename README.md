# Mint finance sensors: the balance aggregation

This project models the balance aggregation of the Mint finance sensor platform for Home
Assistant, in its current form (`custom_components/mint_finance/sensor.py`) and its earlier form
(`custom_components/mint_finance/sensor.bak.py`).

Each update of a sensor takes the fetched account list and runs these steps:

1. It keeps the active accounts: `isActive` true, `isAccountNotFound` false, `isClosed` false.
2. It picks sublists of the active accounts: assets, liabilities, or one category.
3. It changes the records in place:
   - the net-worth sensor negates the balances of the mortgage, credit and loan types (`format_balance` under the `SENSOR_TYPES` flag);
   - both sensors then convert the accounts they scan: the active accounts in the net-worth sensor (`sensor.py` line 181), the category's own accounts in the category sensor (line 273). A scanned account is converted once per listing of its id in the currency overrides, each time replacing its balance with a rounded conversion. Accounts that are not scanned are never converted, even when their id is listed.
4. It sums the sublists. The category sensor also publishes one summary per account into `hass.data`.

## How the model is built

- **Accounts.** The account dictionaries are records in an `array<Account>`, changed in place through the array. Each sublist is a sequence of positions in that array. This is how the model captures what the source does through shared references: the sign flip and the conversions change the same records that the asset, liability and category lists point to.
- **Errors.** The model keeps three `KeyError`s as a `Failure` value:
  - an active account whose type is not a `SENSOR_TYPES` key;
  - an account without an `id`, found while a listed id is searched for;
  - an account without an `accountName`, read by the log line of the publishing loop.

  Records changed before the error stay changed, exactly as in the source.
- **Values.** Balances are integers. The currency converter is an abstract function from (balance, currency, unit) to an integer. It stands for `round(converter.convert(...))`.
- **Proofs.** Every loop is a method over the array. Each method is proved equal to a function that follows the loop step by step (`Normalise`, `ConvertMatching`/`OverrideIds`/`ApplyOverrides`, `Publish`). Lemmas then give each result in closed form, account by account, and relate it to the reference sums `SumWhere`.

Modules:
- `Wrappers`: `Option` and `Result`.
- `SensorTypes`: the tables and `format_balance`.
- `Accounts`: the record, the filters and the sums.
- `CurrencyOverride`: the override loops.
- `Aggregation`: the normalisation, the net-worth and category bodies. Both files share it.
- `Sensor`: the current platform.
- `SensorBak`: the earlier platform and `how_long_ago`.

The two files differ in one place: how they classify assets and liabilities.
- `sensor.py` classifies by account type (lines 63-64 and 162-163).
- `sensor.bak.py` classifies by the sign of the raw balance. It does so before the balances are normalised (lines 230-231).

So in the earlier file, a credit account reported with a positive balance is counted as an asset, yet, when its id is not listed for conversion, it contributes its negated balance (`SensorBak.InvertedPositiveAccountLowersAssets`). In the same file, zero-balance accounts are in neither sublist, so net worth equals assets plus liabilities plus what the zero-balance accounts contribute (`SensorBak.NetWorthCountsZeroBalances`). Net worth is therefore assets plus liabilities whenever converting zero gives zero (`SensorBak.NetWorthIsAssetsPlusLiabilities`), and also whenever no active zero-balance account is listed for conversion.

The category code is the same in both files, so the model defines it once.

Where the description of the system and the code differ, the model follows the code:
- The category sensor does not normalise each account. It sums the converted raw balances and formats the sum. Each published entry carries its own balance formatted under the category flag. The two agree because `format_balance` is linear (`Aggregation.PublishedSum`).
- The name default `''` of a published entry is never reached. The log line just before it reads `account['accountName']` and fails first.
- A retry after a client failure is unbounded in `MintClient.get_accounts`, not a single retry. It is not part of this model (see below).

## Model

| member | source | states |
|---|---|---|
| `SensorTypes.FormatBalanceChangesIffInverted` | custom_components/mint_finance/sensor.py:340-341 | `format_balance` changes a balance exactly when the flag is set and the balance is non-zero; with the flag set it gives the negation |
| `SensorTypes.FormatBalanceInvolution` | custom_components/mint_finance/sensor.bak.py:431-432 | formatting twice under the same flag gives the balance back (the same function in both files) |
| `SensorTypes.KeyOrderListsEachKeyOnce` | custom_components/mint_finance/sensor.py:52-61 | the key order used when no category is configured lists every `SENSOR_TYPES` key exactly once |
| `SensorTypes.TypeListsPartitionKeys` | custom_components/mint_finance/sensor.py:52-64 | the asset and liability type lists are disjoint and together are exactly the table's keys |
| `SensorTypes.InvertedTypesAreLiabilities` | custom_components/mint_finance/sensor.py:53-64 | a table key carries the inverse-sign flag exactly when it is a liability type |
| `Accounts.Positions` | custom_components/mint_finance/sensor.py:161-163 | a list comprehension over the accounts selects exactly the positions whose record passes the filter, in increasing order |
| `Accounts.SumAtPositions` | custom_components/mint_finance/sensor.py:190-192 | summing the changed records at the selected positions is the sum, over the original records, of the value each one was changed to |
| `CurrencyOverride.ConvertMatching` | custom_components/mint_finance/sensor.py:181-185 | the innermost loop changes only balances, and fails only with a missing id |
| `CurrencyOverride.OverrideIds` | custom_components/mint_finance/sensor.py:180-185 | the loop over one currency's ids changes only balances, and fails only with a missing id |
| `CurrencyOverride.ApplyOverrides` | custom_components/mint_finance/sensor.py:176-185 | the whole override loop changes only balances, and fails only with a missing id |
| `CurrencyOverride.ConvertMatchingFails` | custom_components/mint_finance/sensor.py:181-182 | the scan for one id fails exactly when a scanned account has no id |
| `CurrencyOverride.OverrideIdsFails` | custom_components/mint_finance/sensor.py:180-182 | one currency's loop fails exactly when it lists an id and a scanned account has no id |
| `CurrencyOverride.ApplyOverridesFails` | custom_components/mint_finance/sensor.py:176-182 | the override loop fails exactly when some id is listed and a scanned account has no id |
| `CurrencyOverride.ConvertMatchingEffect` | custom_components/mint_finance/sensor.py:181-185 | on success the scanned accounts with the id are converted once from the currency, and every other account is unchanged |
| `CurrencyOverride.OverrideIdsEffect` | custom_components/mint_finance/sensor.py:178-185 | on success each scanned account is converted from the currency once per listing of its id, and the rest is unchanged |
| `CurrencyOverride.ChainOccurrencesStep` | custom_components/mint_finance/sensor.py:178-185 | converting along one currency's listings of an id is the conversion for its first listed id, if it matches, followed by those of the remaining ids |
| `CurrencyOverride.ApplyOverridesEffect` | custom_components/mint_finance/sensor.py:176-185 | on success each scanned account is converted once per listing of its id, in listing order, and every account not scanned is unchanged |
| `CurrencyOverride.ApplyOverridesOnlyListed` | custom_components/mint_finance/sensor.py:182-185 | an account that is not scanned, or whose id is not listed, keeps its record |
| `CurrencyOverride.OccurrencesCount` | custom_components/mint_finance/sensor.py:180-182 | under one currency an id is converted exactly as many times as it is listed |
| `CurrencyOverride.ConversionsCount` | custom_components/mint_finance/sensor.py:176-182 | an id listed k times in all is converted exactly k times, each from a currency it is listed under |
| `CurrencyOverride.UnlistedNotConverted` | custom_components/mint_finance/sensor.py:182 | an account whose id is listed nowhere keeps its balance |
| `CurrencyOverride.ChainAppend` | custom_components/mint_finance/sensor.py:183-185 | converting through two currency lists in turn is converting through their concatenation |
| `CurrencyOverride.ChainOfZero` | custom_components/mint_finance/sensor.py:183 | when converting zero gives zero, any chain of conversions of zero gives zero |
| `CurrencyOverride.ConvertMatchingAccounts` | custom_components/mint_finance/sensor.py:181-185 | the innermost loop on the array leaves exactly the records and the error of `ConvertMatching` |
| `CurrencyOverride.OverrideAccounts` | custom_components/mint_finance/sensor.py:180-185 | the loop over one currency's ids on the array leaves exactly the records and the error of `OverrideIds` |
| `CurrencyOverride.ApplyCurrencyOverrides` | custom_components/mint_finance/sensor.py:171-185 | the whole override loop on the array leaves exactly the records and the error of `ApplyOverrides` |
| `Aggregation.Normalise` | custom_components/mint_finance/sensor.py:168-169 | the normalisation loop changes only balances and fails only with an unknown account type |
| `Aggregation.NormaliseFails` | custom_components/mint_finance/sensor.py:169 | the normalisation fails exactly when a listed account's type is not a `SENSOR_TYPES` key |
| `Aggregation.NormaliseEffect` | custom_components/mint_finance/sensor.py:168-169 | on success each listed account's balance is formatted exactly once under its own type's flag, and no other account changes |
| `Aggregation.NormaliseBalances` | custom_components/mint_finance/sensor.py:168-169 | the normalisation loop on the array leaves exactly the records and the error of `Normalise` |
| `Aggregation.NormaliseAndConvert` | custom_components/mint_finance/sensor.py:168-185 | normalising and then converting the active accounts changes only balances |
| `Aggregation.NormaliseAndConvertEffect` | custom_components/mint_finance/sensor.py:168-185 | on success every inactive account is as it was, and every active account carries its balance normalised once and then converted once per listing |
| `Aggregation.ContributionOfUnlisted` | custom_components/mint_finance/sensor.py:168-185 | an active account whose id is not listed contributes its formatted balance |
| `Aggregation.ContributionOfZero` | custom_components/mint_finance/sensor.bak.py:236-253 | a zero balance contributes zero when converting zero gives zero |
| `Aggregation.NetWorthUpdate` | custom_components/mint_finance/sensor.py:161-192 | the net-worth body on the array leaves exactly the records and the totals or the error of the net-worth run |
| `Aggregation.NetWorthRunOutcome` | custom_components/mint_finance/sensor.py:165-185 | the update fails with an unknown type exactly when an active type is not a key; otherwise it fails with a missing id exactly when an id is listed and an active account has no id; otherwise it succeeds |
| `Aggregation.TotalsOfContributions` | custom_components/mint_finance/sensor.py:190-192 | the three sums over the changed records equal the reference sums of the contributions over the three selections |
| `Aggregation.NetWorthRunTotals` | custom_components/mint_finance/sensor.py:190-199 | after a successful update each total is the sum of the contributions of exactly the accounts its sublist selects |
| `Aggregation.InactiveAccountIgnored` | custom_components/mint_finance/sensor.py:161-163 | replacing an inactive, missing or closed account by another such record changes neither the outcome nor any total (both files) |
| `Aggregation.EntriesFor` | custom_components/mint_finance/sensor.py:287-298 | one summary per listed account, in list order, with the balance formatted and missing text keys as '' |
| `Aggregation.PublishEffect` | custom_components/mint_finance/sensor.py:284-298 | publishing fails exactly when a listed account has no name; otherwise it appends exactly one summary per account, in order |
| `Aggregation.PublishedSum` | custom_components/mint_finance/sensor.py:279-292 | the published balances sum to the formatted sum of the balances |
| `Aggregation.CategoryRunEffect` | custom_components/mint_finance/sensor.py:259-298 | a category update sets its state unless a listed id meets a category account without an id; it finishes unless a category account has no name; on success only the category's accounts are converted, the state is the formatted sum of their converted raw balances, and the list is rebuilt from empty with one summary per account (both files) |
| `Aggregation.CategoryStateIsPublishedSum` | custom_components/mint_finance/sensor.py:279-292 | when a category update finishes, its state is the sum of the balances it published |
| `Aggregation.CategoryIgnoresOthers` | custom_components/mint_finance/sensor.bak.py:350-351 | an account outside the category (inactive, or of another type) does not affect the category's state |
| `Aggregation.CategoryOverrideOnlyListed` | custom_components/mint_finance/sensor.bak.py:359-368 | a category update that sets its state has changed only the balances of the category's accounts whose id is listed, and no other field |
| `Sensor.NetWorthSensor.constructor` | custom_components/mint_finance/sensor.py:138-145 | a new net-worth sensor has its configuration and no state, assets or liabilities |
| `Sensor.NetWorthSensor.Update` | custom_components/mint_finance/sensor.py:149-199 | an update leaves the records of the net-worth run; on success it stores the three totals, and on a `KeyError` it keeps the old fields |
| `Sensor.NetWorthSensor.SetTotals` | custom_components/mint_finance/sensor.py:197-199 | the state becomes the net worth and the two attributes the asset and liability totals |
| `Sensor.CategorySensor.constructor` | custom_components/mint_finance/sensor.py:236-246 | a category sensor takes its product type, its name `Mint <label>` and its flag from the table, and has no state |
| `Sensor.CategorySensor.Update` | custom_components/mint_finance/sensor.py:249-298 | an update leaves the records, state, published list and error of the category run, and touches no other `hass.data` key (both files) |
| `Sensor.CategorySensor.PublishAccounts` | custom_components/mint_finance/sensor.py:284-298 | the publishing loop resets the product type's list and leaves the list and error of `Publish` |
| `Sensor.MonitoredCategories` | custom_components/mint_finance/sensor.py:89 | the configured categories, or all table keys when none is configured; never empty, and only keys |
| `Sensor.SetupPlatform` | custom_components/mint_finance/sensor.py:85-93 | setup builds one new net-worth sensor first, then one new category sensor per monitored category, in order, each category sensor carrying its table entry (`Valid`) |
| `Sensor.ActiveAccountsSplit` | custom_components/mint_finance/sensor.py:162-163 | an active account of a known type is exactly one of an asset account and a liability account |
| `Sensor.SublistsPartitionActive` | custom_components/mint_finance/sensor.py:161-163 | when every active type is known, the asset and liability lists are disjoint and together are the active list |
| `Sensor.NetWorthIsAssetsPlusLiabilities` | custom_components/mint_finance/sensor.py:190-199 | after a successful update the net worth is the asset total plus the liability total |
| `Sensor.TotalsHaveTheirSigns` | custom_components/mint_finance/sensor.py:162-169 | with no conversion and non-negative reported balances, assets are non-negative and liabilities non-positive |
| `SensorBak.NetWorthSensor.constructor` | custom_components/mint_finance/sensor.bak.py:172-179 | a new net-worth sensor has its configuration and no state, assets or liabilities |
| `SensorBak.NetWorthSensor.Update` | custom_components/mint_finance/sensor.bak.py:229-267 | an update with sublists chosen by raw sign leaves the records of the net-worth run; on success it stores the three totals, and on a `KeyError` it keeps the old fields |
| `SensorBak.NetWorthSensor.SetTotals` | custom_components/mint_finance/sensor.bak.py:265-267 | the state becomes the net worth and the two attributes the asset and liability totals |
| `SensorBak.ContinueSetupPlatform` | custom_components/mint_finance/sensor.bak.py:153-165 | setup builds one new net-worth sensor first, then one new category sensor per monitored category, in order, each category sensor carrying its table entry (`Valid`) |
| `SensorBak.NetWorthCountsZeroBalances` | custom_components/mint_finance/sensor.bak.py:229-260 | the net worth is assets plus liabilities plus the contributions of the zero-balance active accounts |
| `SensorBak.NetWorthIsAssetsPlusLiabilities` | custom_components/mint_finance/sensor.bak.py:258-267 | when converting zero gives zero, the net worth is the asset total plus the liability total |
| `SensorBak.InvertedPositiveAccountLowersAssets` | custom_components/mint_finance/sensor.bak.py:229-237 | an active mortgage, credit or loan account with a positive raw balance is counted as an asset but, when its id is not listed for conversion, contributes its negated balance |
| `SensorBak.HowLongAgo` | custom_components/mint_finance/sensor.bak.py:416-428 | the days bucket exactly when the difference is at least a day; hours are in 1..23 and minutes in 0..59; for a non-negative difference, hours from one hour to a day and minutes below an hour, each count the whole units elapsed (the same code is at sensor.py 325-337) |
| `SensorBak.FutureStampWithinAnHour` | custom_components/mint_finance/sensor.bak.py:419-428 | a stamp less than an hour in the future (a difference in [-3600, 0)) is always reported as 23 hours |
| `SensorBak.FutureStampWithin23Hours` | custom_components/mint_finance/sensor.bak.py:419-428 | a stamp at most 23 hours in the future is always reported in hours, the count being 24 less the hours ahead rounded up |
| `SensorBak.FutureStampNearlyADayAhead` | custom_components/mint_finance/sensor.bak.py:419-428 | a stamp between 23 hours and a day in the future gets hour count zero and is reported in minutes |

## Left out

- Network and session handling is not part of this model: the Mint client, log-in, `close`, the session path and the retry on `MintException` in `MintClient.get_accounts`. The fetched list is a parameter of each update.
- The MFA callbacks and the configurator flow of the earlier file are left out. They are interactive waits on host services.
- The `Throttle` decorator, `time.time()`, the class-level `last_used` timestamp and the session-expiry branches of the earlier updates are left out. These are wall-clock scheduling.
- In the earlier net-worth update, the first fetch (`sensor.bak.py` line 191) runs only when there is a client and a driver and the interval has not elapsed; a `MintException` there is raised outside any `try` and propagates. When that fetch is skipped and the second fetch (line 217) fails, `data` is unbound; line 228 still runs, and line 229, the first to read `data`, raises an `UnboundLocalError` (a kind of `NameError`). Neither path is modelled, because both depend on the client.
- Fetched records are assumed to carry the keys `isActive`, `isAccountNotFound`, `isClosed`, `accountType` and `currentBalance`. The source reads each with `[...]` (`sensor.py` lines 161-163, 169, 259-260 and 279), so a record without one would raise a `KeyError`; in the model these are plain fields, and that `KeyError` cannot arise.
- The converter's internals and rates are left out; it is an abstract integer-valued function.
- The float arithmetic of `-1.0 * balance` and `round` is left out. Balances are integers, so each `round` is the identity and `-1.0 * b` is `-b`.
- The configuration schema, the `Entity` properties (name, icon, unit, attributes) and logging are left out. The only effect of logging that is kept is the `KeyError` of the name read in the publishing log line.
- `Sensor.CategorySensor.constructor`: requires its category to be a `SENSOR_TYPES` key. The configuration schema guarantees that; the source would raise a `KeyError` otherwise.
- `Sensor.SetupPlatform`: requires the configured categories to be table keys, as the schema guarantees. `add_devices` and its first update of every sensor are host calls and are left out.
- `SensorBak.ContinueSetupPlatform`: the same requirement on the categories. The configurator's `request_done` is left out.
- `Sensor.NetWorthSensor.constructor`: does not run the first update that the source's `__init__` runs. An update is a separate call, and so is its failure.
- `SensorBak.NetWorthSensor.constructor`: the same as for the current file; the first update is a separate call.
- The `hass.data` value is modelled as the list itself, not as the dictionary `{'accounts': [...]}` around it.
- A fetched list that holds the same record twice is not modelled. Each array slot is one record, so the aliasing between slots that the source would allow is not captured.
- `SensorBak.HowLongAgo`: returns the bucket and its count, not the text. The `datetime` subtraction is not modelled: `datetime` is not imported, and a number is subtracted from a date. The difference in whole seconds is the input.
