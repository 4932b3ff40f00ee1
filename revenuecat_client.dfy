/**
 * The mobile app's RevenueCat wrapper: API-key selection by platform, SDK
 * initialisation, entitlement checks and the web guards around the SDK calls.
 * The SDK itself is foreign; its answers are parameters.
 */
module RevenueCatClient {
  import opened Wrappers

  /** `Platform.OS`: every value other than these three is `OtherOs`. */
  datatype Os = Ios | Android | Web | OtherOs

  /** A package offered for sale; `packageType` is e.g. "ANNUAL" or "MONTHLY". */
  datatype Package = Package(identifier: string, packageType: string)

  /** The current offering, as far as the app reads it. */
  datatype Offering = Offering(availablePackages: seq<Package>)

  /** Customer info, reduced to the identifiers of the active entitlements. */
  datatype CustomerInfo = CustomerInfo(activeEntitlements: set<string>)

  /** `PurchasesConfiguration`: `appUserId` None stands for `null` (an anonymous user). */
  datatype PurchasesConfig = PurchasesConfig(apiKey: string, appUserId: Option<string>)

  const MissingIosKey: string :=
    "Missing EXPO_PUBLIC_REVENUECAT_IOS_KEY. Please add it to your .env.local file. Get it from https://app.revenuecat.com"
  const MissingAndroidKey: string :=
    "Missing EXPO_PUBLIC_REVENUECAT_ANDROID_KEY. Please add it to your .env.local file. Get it from https://app.revenuecat.com"
  const UnsupportedPlatform: string := "RevenueCat is not supported on web. Use a native build."
  const NotOnWeb: string := "RevenueCat is not supported on web"

  /** The entitlement identifiers the app checks. */
  const Premium: string := "premium"
  const Pro: string := "pro"

  function KeyIfSet(key: Option<string>, missing: string): Result<string, string> {
    if key.Some? && key.value != "" then Ok(key.value) else Err(missing)
  }

  /** The key for the running platform, or the message of the error thrown. */
  function GetRevenueCatApiKey(os: Os, iosKey: Option<string>, androidKey: Option<string>): (r: Result<string, string>)
    ensures os == Ios ==>
              (r.Ok? <==> iosKey.Some? && iosKey.value != "") && (r.Ok? ==> r.value == iosKey.value)
              && (r.Err? ==> r.error == MissingIosKey)
    ensures os == Android ==>
              (r.Ok? <==> androidKey.Some? && androidKey.value != "") && (r.Ok? ==> r.value == androidKey.value)
              && (r.Err? ==> r.error == MissingAndroidKey)
    ensures os != Ios && os != Android ==> r == Err(UnsupportedPlatform)
  {
    if os == Ios then KeyIfSet(iosKey, MissingIosKey)
    else if os == Android then KeyIfSet(androidKey, MissingAndroidKey)
    else Err(UnsupportedPlatform)
  }

  /** What `initializeRevenueCat` does: nothing on web, configure the SDK, or throw. */
  datatype InitOutcome = Skipped | Configure(config: PurchasesConfig) | Throws(message: string)

  function InitializeRevenueCat(os: Os, iosKey: Option<string>, androidKey: Option<string>, userId: Option<string>)
    : (r: InitOutcome)
    ensures os == Web <==> r.Skipped?
    ensures r.Configure? <==> os != Web && GetRevenueCatApiKey(os, iosKey, androidKey).Ok?
    ensures r.Configure? ==> r.config == PurchasesConfig(GetRevenueCatApiKey(os, iosKey, androidKey).value, userId)
    ensures r.Throws? ==> r.message == GetRevenueCatApiKey(os, iosKey, androidKey).error
  {
    if os == Web then Skipped
    else
      match GetRevenueCatApiKey(os, iosKey, androidKey)
      case Ok(apiKey) => Configure(PurchasesConfig(apiKey, userId))
      case Err(message) => Throws(message)
  }

  /** On a native platform with its key set, the SDK is configured with that key and the given user. */
  lemma NativeInitUsesPlatformKey(iosKey: string, androidKey: string, userId: Option<string>)
    requires iosKey != "" && androidKey != ""
    ensures InitializeRevenueCat(Ios, Some(iosKey), Some(androidKey), userId) == Configure(PurchasesConfig(iosKey, userId))
    ensures InitializeRevenueCat(Android, Some(iosKey), Some(androidKey), userId)
            == Configure(PurchasesConfig(androidKey, userId))
    ensures InitializeRevenueCat(OtherOs, Some(iosKey), Some(androidKey), userId) == Throws(UnsupportedPlatform)
  {
  }

  /** `hasActiveEntitlement`: always false on web. */
  predicate HasActiveEntitlement(os: Os, info: CustomerInfo, entitlementId: string) {
    os != Web && entitlementId in info.activeEntitlements
  }

  /** `getOfferings`: null on web, otherwise the SDK's current offering. */
  function GetOfferings(os: Os, current: Option<Offering>): (r: Option<Offering>)
    ensures os == Web ==> r.None?
    ensures os != Web ==> r == current
  {
    if os == Web then None else current
  }

  /** The SDK calls that are guarded against web. */
  datatype SdkCall = IdentifyUser(userId: string) | LogoutUser | GetCustomerInfo | PurchasePackage(pkg: Package) | RestorePurchases

  /**
   * A guarded call: it throws on web and otherwise passes on the SDK's answer.
   * The answer does not depend on which call is made; `call` only names it.
   */
  function Guarded(os: Os, call: SdkCall, sdk: Result<CustomerInfo, string>): (r: Result<CustomerInfo, string>)
    ensures os == Web ==> r == Err(NotOnWeb)
    ensures os != Web ==> r == sdk
  {
    if os == Web then Err(NotOnWeb) else sdk
  }

  /** On web nothing reaches the SDK: no configuration, no offering, no entitlement, every call throws. */
  lemma WebNeverReachesSdk(iosKey: Option<string>, androidKey: Option<string>, userId: Option<string>,
                           current: Option<Offering>, info: CustomerInfo, call: SdkCall, sdk: Result<CustomerInfo, string>)
    ensures InitializeRevenueCat(Web, iosKey, androidKey, userId) == Skipped
    ensures GetOfferings(Web, current) == None
    ensures !HasActiveEntitlement(Web, info, Premium) && !HasActiveEntitlement(Web, info, Pro)
    ensures Guarded(Web, call, sdk).Err?
  {
  }
}
