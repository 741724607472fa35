/**
 * The front end's entity records (products, versions, customers, licenses)
 * and the verification result the TypeScript and JavaScript verifiers return.
 * Instants are milliseconds since the epoch; absent optional fields are None.
 */
module Types {
  import opened Common

  datatype ProductVersion = ProductVersion(
    id: string,
    productId: string,
    version: string,
    releaseDate: int,
    notes: string,
    createdAt: int,
    updatedAt: int)

  datatype Product = Product(
    id: string,
    name: string,
    description: string,
    versions: seq<ProductVersion>,
    createdAt: int,
    updatedAt: int)

  datatype Customer = Customer(
    id: string,
    name: string,
    location: string,
    country: string,
    contact: string,
    mobile: string,
    email: string,
    createdAt: int,
    updatedAt: int)

  /** A license; `licenseType` is kept as text since the verifiers also see unknown or comma-joined types. */
  datatype License = License(
    id: string,
    customerId: string,
    productId: string,
    productVersionId: string,
    licenseType: string,
    licenseScope: string,
    licensingPeriod: int,
    renewableAlertMessage: string,
    gracePeriodDays: int,
    expiryDate: Option<int>,
    maxUsersAllowed: Option<int>,
    currentUsers: Option<int>,
    macAddresses: Option<seq<string>>,
    allowedCountries: Option<seq<string>>,
    createdAt: int,
    updatedAt: int)

  datatype Status = Valid | Warning | Expired

  datatype VerificationResult = VerificationResult(
    isValid: bool,
    warningMessage: Option<string>,
    errorMessage: Option<string>,
    expiresIn: Option<int>,
    status: Status)

  const DateBased := "date_based"
  const UserCountBased := "user_count_based"
  const MacBased := "mac_based"
  const CountryBased := "country_based"
  const Mixed := "mixed"
}
