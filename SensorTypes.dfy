/**
 * The fixed account-type tables that both sensor files declare (identically), and the sign rule
 * `format_balance` that they drive.
 */
module SensorTypes {

  const ATTR_INVESTMENT: string := "investment"
  const ATTR_MORTGAGE: string := "mortgage"
  const ATTR_CASH: string := "bank"
  const ATTR_OTHER_ASSET: string := "other property"
  const ATTR_CREDIT: string := "credit"
  const ATTR_LOAN: string := "loan"
  const ATTR_REAL_ESTATE: string := "real estate"
  const ATTR_VEHICLE: string := "vehicle"

  /** What SENSOR_TYPES holds under an account type: product type, display name, inverse-sign flag. */
  datatype SensorEntry = SensorEntry(productType: string, displayName: string, inverseSign: bool)

  const SENSOR_TYPES: map<string, SensorEntry> := map[
    ATTR_INVESTMENT := SensorEntry("INVESTMENT", "Investment", false),
    ATTR_MORTGAGE := SensorEntry("MORTGAGE", "Mortgage", true),
    ATTR_CASH := SensorEntry("BANK", "Cash", false),
    ATTR_OTHER_ASSET := SensorEntry("OTHER_ASSETS", "Other Asset", false),
    ATTR_CREDIT := SensorEntry("CREDIT_CARD", "Credit", true),
    ATTR_LOAN := SensorEntry("LOAN", "Loan", true),
    ATTR_VEHICLE := SensorEntry("VEHICLE", "Vehicle", false),
    ATTR_REAL_ESTATE := SensorEntry("REAL_ESTATE", "Real Estate", false)
  ]

  /** The keys of SENSOR_TYPES in the order the dictionary yields them (its insertion order). */
  const SENSOR_TYPE_KEYS: seq<string> :=
    [ATTR_INVESTMENT, ATTR_MORTGAGE, ATTR_CASH, ATTR_OTHER_ASSET, ATTR_CREDIT, ATTR_LOAN, ATTR_VEHICLE, ATTR_REAL_ESTATE]

  const ASSET_ACCOUNT_TYPES: seq<string> := [ATTR_INVESTMENT, ATTR_CASH, ATTR_OTHER_ASSET, ATTR_VEHICLE, ATTR_REAL_ESTATE]
  const LIABILITY_ACCOUNT_TYPES: seq<string> := [ATTR_MORTGAGE, ATTR_CREDIT, ATTR_LOAN]

  /** The key order lists every key of the table exactly once. */
  lemma KeyOrderListsEachKeyOnce()
    ensures forall k :: k in SENSOR_TYPES <==> k in SENSOR_TYPE_KEYS
    ensures forall i, j :: 0 <= i < j < |SENSOR_TYPE_KEYS| ==> SENSOR_TYPE_KEYS[i] != SENSOR_TYPE_KEYS[j]
  {
  }

  /** The asset and liability type lists are disjoint and together list exactly the table's keys. */
  lemma TypeListsPartitionKeys()
    ensures forall k :: k in SENSOR_TYPES <==> k in ASSET_ACCOUNT_TYPES || k in LIABILITY_ACCOUNT_TYPES
    ensures forall k :: k in ASSET_ACCOUNT_TYPES ==> k !in LIABILITY_ACCOUNT_TYPES
  {
  }

  /**
   * The inverse-sign flag of an account type, `SENSOR_TYPES[t][2]`. The source raises a KeyError for
   * a type outside the table; the model reports that separately, so the value here is irrelevant then.
   */
  function InverseSign(accountType: string): bool {
    accountType in SENSOR_TYPES && SENSOR_TYPES[accountType].inverseSign
  }

  /** Exactly the liability types (mortgage, credit, loan) carry the inverse-sign flag. */
  lemma InvertedTypesAreLiabilities()
    ensures forall k :: k in SENSOR_TYPES ==> (InverseSign(k) <==> k in LIABILITY_ACCOUNT_TYPES)
  {
  }

  /** `format_balance`: the balance, negated when the inverse-sign flag is set. */
  function FormatBalance(inverseSign: bool, balance: int): int {
    if inverseSign then -balance else balance
  }

  /** Formatting twice with the same flag gives back the balance. */
  lemma FormatBalanceInvolution(inverseSign: bool, balance: int)
    ensures FormatBalance(inverseSign, FormatBalance(inverseSign, balance)) == balance
  {
  }

  /** Formatting changes a balance exactly when the flag is set and the balance is not zero. */
  lemma FormatBalanceChangesIffInverted(inverseSign: bool, balance: int)
    ensures FormatBalance(inverseSign, balance) != balance <==> inverseSign && balance != 0
    ensures inverseSign ==> FormatBalance(inverseSign, balance) + balance == 0
  {
  }
}
