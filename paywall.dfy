/**
 * The mobile paywall modal: it loads the current offering, preselects a
 * package, and runs purchases and restores, keeping its React state in the
 * fields of a class. Each handler is split at its `await`: a Start method
 * makes the updates before the SDK call, a Finish method the ones after it,
 * and the SDK's answer is a parameter.
 */
module Paywall {
  import opened Wrappers
  import opened RevenueCatClient

  const AnnualType: string := "ANNUAL"
  const LoadFailed: string := "Failed to load subscription options"
  const PurchaseFailed: string := "Purchase failed. Please try again."
  const NoPurchases: string := "No previous purchases found"
  const RestoreFailed: string := "Restore failed. Please try again."

  /** `pkgs.findIndex(p => p.packageType === 'ANNUAL')`, None for -1. */
  function FindAnnual(pkgs: seq<Package>): (r: Option<nat>)
    ensures r.Some? ==> r.value < |pkgs| && pkgs[r.value].packageType == AnnualType
    ensures r.Some? ==> forall i :: 0 <= i < r.value ==> pkgs[i].packageType != AnnualType
    ensures r.None? <==> forall i :: 0 <= i < |pkgs| ==> pkgs[i].packageType != AnnualType
  {
    if pkgs == [] then None
    else if pkgs[0].packageType == AnnualType then Some(0)
    else match FindAnnual(pkgs[1..])
      case None => None
      case Some(i) => Some(i + 1)
  }

  /** `annual || pkgs[0] || null`: the first annual package, else the first package, else none. */
  function DefaultSelection(pkgs: seq<Package>): (r: Option<Package>)
    ensures r.None? <==> pkgs == []
    ensures r.Some? ==> r.value in pkgs
    ensures (exists i :: 0 <= i < |pkgs| && pkgs[i].packageType == AnnualType) ==>
              r.Some? && r.value.packageType == AnnualType
    ensures (forall i :: 0 <= i < |pkgs| ==> pkgs[i].packageType != AnnualType) && pkgs != [] ==>
              r == Some(pkgs[0])
  {
    match FindAnnual(pkgs)
    case Some(i) => Some(pkgs[i])
    case None => if pkgs != [] then Some(pkgs[0]) else None
  }

  /** The annual package chosen is the first one: no annual package comes before it. */
  lemma DefaultSelectionIsFirstAnnual(pkgs: seq<Package>, i: nat)
    requires i < |pkgs| && pkgs[i].packageType == AnnualType
    ensures exists j :: 0 <= j <= i && DefaultSelection(pkgs) == Some(pkgs[j])
                        && forall k :: 0 <= k < j ==> pkgs[k].packageType != AnnualType
  {
    var j := FindAnnual(pkgs).value;
    assert j <= i;
  }

  /** The purchase button's `disabled={isPurchasing || !selectedPackage}`. */
  predicate PurchaseDisabled(isPurchasing: bool, selected: Option<Package>) {
    isPurchasing || selected.None?
  }

  /** How `getOfferings()` went: it threw, or it answered (None for `null`). */
  datatype LoadOutcome = LoadThrew | Loaded(offering: Option<Offering>)

  /** What a failed purchase throws: `userCancelled` and `message` as read with `!` and `||`. */
  datatype PurchaseError = PurchaseError(userCancelled: bool, message: Option<string>)
  datatype PurchaseOutcome = PurchaseThrew(err: PurchaseError) | Purchased(info: CustomerInfo)
  datatype RestoreOutcome = RestoreThrew | Restored(info: CustomerInfo)

  /** The callbacks the paywall has invoked, in order. */
  datatype Notice = PurchaseSuccess(info: CustomerInfo) | Close

  /** The message a purchase error leaves, None when the user cancelled. */
  function PurchaseErrorText(e: PurchaseError): (r: Option<string>)
    ensures r.None? <==> e.userCancelled
    ensures r.Some? ==> r.value != ""
    ensures r.Some? && e.message.Some? && e.message.value != "" ==> r.value == e.message.value
  {
    if e.userCancelled then None
    else if e.message.Some? && e.message.value != "" then Some(e.message.value)
    else Some(PurchaseFailed)
  }

  /** The notices a successful purchase or restore sends: the success callback if given, then close. */
  function SuccessNotices(hasSuccessCallback: bool, info: CustomerInfo): (r: seq<Notice>)
    ensures |r| == (if hasSuccessCallback then 2 else 1)
    ensures r[|r| - 1] == Close
    ensures hasSuccessCallback ==> r[0] == PurchaseSuccess(info)
  {
    if hasSuccessCallback then [PurchaseSuccess(info), Close] else [Close]
  }

  class PaywallModal {
    /** Whether `onPurchaseSuccess` was passed. */
    const hasSuccessCallback: bool
    var isLoading: bool
    var isPurchasing: bool
    var packages: seq<Package>
    var selected: Option<Package>
    var error: Option<string>
    var notices: seq<Notice>

    /** The selection is always one of the packages on show. */
    predicate Valid()
      reads this
    {
      selected.Some? ==> selected.value in packages
    }

    constructor (hasSuccessCallback: bool)
      ensures Valid()
      ensures this.hasSuccessCallback == hasSuccessCallback
      ensures isLoading && !isPurchasing && packages == [] && selected.None? && error.None? && notices == []
    {
      this.hasSuccessCallback := hasSuccessCallback;
      isLoading := true;
      isPurchasing := false;
      packages := [];
      selected := None;
      error := None;
      notices := [];
    }

    /** `loadOfferings` up to its `await`. */
    method StartLoad()
      requires Valid()
      modifies this
      ensures Valid()
      ensures isLoading && error.None?
      ensures isPurchasing == old(isPurchasing) && packages == old(packages) && selected == old(selected)
      ensures notices == old(notices)
    {
      isLoading := true;
      error := None;
    }

    /** `loadOfferings` after `getOfferings()` settles: a non-null offering replaces the packages. */
    method FinishLoad(outcome: LoadOutcome)
      requires Valid()
      modifies this
      ensures Valid()
      ensures !isLoading
      ensures outcome.LoadThrew? ==>
                error == Some(LoadFailed) && packages == old(packages) && selected == old(selected)
      ensures outcome == Loaded(None) ==>
                error == old(error) && packages == old(packages) && selected == old(selected)
      ensures outcome.Loaded? && outcome.offering.Some? ==>
                error == old(error)
                && packages == outcome.offering.value.availablePackages
                && selected == DefaultSelection(outcome.offering.value.availablePackages)
      ensures isPurchasing == old(isPurchasing) && notices == old(notices)
    {
      match outcome {
        case LoadThrew =>
          error := Some(LoadFailed);
        case Loaded(offering) =>
          if offering.Some? {
            var pkgs := offering.value.availablePackages;
            packages := pkgs;
            selected := DefaultSelection(pkgs);
          }
      }
      isLoading := false;
    }

    /** The whole of `loadOfferings`. */
    method LoadOfferings(outcome: LoadOutcome)
      requires Valid()
      modifies this
      ensures Valid()
      ensures !isLoading
      ensures error == (if outcome.LoadThrew? then Some(LoadFailed) else None)
      ensures outcome.Loaded? && outcome.offering.Some? ==>
                packages == outcome.offering.value.availablePackages
                && selected == DefaultSelection(outcome.offering.value.availablePackages)
      ensures outcome.LoadThrew? || outcome.offering.None? ==>
                packages == old(packages) && selected == old(selected)
      ensures isPurchasing == old(isPurchasing) && notices == old(notices)
    {
      StartLoad();
      FinishLoad(outcome);
    }

    /** A tap on a package: ignored while a purchase or restore is running. */
    method SelectPackage(pkg: Package)
      requires Valid() && pkg in packages
      modifies this
      ensures Valid()
      ensures selected == (if old(isPurchasing) then old(selected) else Some(pkg))
      ensures isLoading == old(isLoading) && isPurchasing == old(isPurchasing) && packages == old(packages)
      ensures error == old(error) && notices == old(notices)
    {
      if !isPurchasing {
        selected := Some(pkg);
      }
    }

    /** `handlePurchase` up to its `await`; `started` is false when nothing is selected and nothing changed. */
    method StartPurchase() returns (started: bool)
      requires Valid()
      modifies this
      ensures Valid()
      ensures started <==> old(selected).Some?
      ensures started ==> isPurchasing && error.None?
      ensures !started ==> isPurchasing == old(isPurchasing) && error == old(error)
      ensures isLoading == old(isLoading) && packages == old(packages) && selected == old(selected)
      ensures notices == old(notices)
    {
      if selected.None? {
        return false;
      }
      isPurchasing := true;
      error := None;
      started := true;
    }

    /** `handlePurchase` after `purchasePackage` settles. */
    method FinishPurchase(outcome: PurchaseOutcome)
      requires Valid()
      modifies this
      ensures Valid()
      ensures !isPurchasing
      ensures outcome.Purchased? ==>
                notices == old(notices) + SuccessNotices(hasSuccessCallback, outcome.info) && error == old(error)
      ensures outcome.PurchaseThrew? ==>
                notices == old(notices)
                && error == (if outcome.err.userCancelled then old(error) else PurchaseErrorText(outcome.err))
      ensures isLoading == old(isLoading) && packages == old(packages) && selected == old(selected)
    {
      match outcome {
        case Purchased(info) =>
          notices := notices + SuccessNotices(hasSuccessCallback, info);
        case PurchaseThrew(err) =>
          if !err.userCancelled {
            error := PurchaseErrorText(err);
          }
      }
      isPurchasing := false;
    }

    /** The whole of `handlePurchase`. */
    method HandlePurchase(outcome: PurchaseOutcome)
      requires Valid()
      modifies this
      ensures Valid()
      ensures old(selected).None? ==>
                isPurchasing == old(isPurchasing) && error == old(error) && notices == old(notices)
      ensures old(selected).Some? ==> !isPurchasing
      ensures old(selected).Some? && outcome.Purchased? ==>
                error.None? && notices == old(notices) + SuccessNotices(hasSuccessCallback, outcome.info)
      ensures old(selected).Some? && outcome.PurchaseThrew? ==>
                error == PurchaseErrorText(outcome.err) && notices == old(notices)
      ensures isLoading == old(isLoading) && packages == old(packages) && selected == old(selected)
    {
      var started := StartPurchase();
      if started {
        FinishPurchase(outcome);
      }
    }

    /** `handleRestore` up to its `await`. */
    method StartRestore()
      requires Valid()
      modifies this
      ensures Valid()
      ensures isPurchasing && error.None?
      ensures isLoading == old(isLoading) && packages == old(packages) && selected == old(selected)
      ensures notices == old(notices)
    {
      isPurchasing := true;
      error := None;
    }

    /** `handleRestore` after `restorePurchases` settles: success needs an active entitlement. */
    method FinishRestore(outcome: RestoreOutcome)
      requires Valid()
      modifies this
      ensures Valid()
      ensures !isPurchasing
      ensures outcome.Restored? && outcome.info.activeEntitlements != {} ==>
                notices == old(notices) + SuccessNotices(hasSuccessCallback, outcome.info) && error == old(error)
      ensures outcome.Restored? && outcome.info.activeEntitlements == {} ==>
                notices == old(notices) && error == Some(NoPurchases)
      ensures outcome.RestoreThrew? ==> notices == old(notices) && error == Some(RestoreFailed)
      ensures isLoading == old(isLoading) && packages == old(packages) && selected == old(selected)
    {
      match outcome {
        case Restored(info) =>
          if info.activeEntitlements != {} {
            notices := notices + SuccessNotices(hasSuccessCallback, info);
          } else {
            error := Some(NoPurchases);
          }
        case RestoreThrew =>
          error := Some(RestoreFailed);
      }
      isPurchasing := false;
    }

    /** The whole of `handleRestore`. */
    method HandleRestore(outcome: RestoreOutcome)
      requires Valid()
      modifies this
      ensures Valid()
      ensures !isPurchasing
      ensures error.None? <==> outcome.Restored? && outcome.info.activeEntitlements != {}
      ensures error.None? ==> notices == old(notices) + SuccessNotices(hasSuccessCallback, outcome.info)
      ensures error.Some? ==> notices == old(notices)
                              && error.value == (if outcome.RestoreThrew? then RestoreFailed else NoPurchases)
      ensures isLoading == old(isLoading) && packages == old(packages) && selected == old(selected)
    {
      StartRestore();
      FinishRestore(outcome);
    }

    /** Whether the purchase button is disabled right now. */
    predicate PurchaseButtonDisabled()
      reads this
    {
      PurchaseDisabled(isPurchasing, selected)
    }
  }

  /** After a load that offered packages, the purchase button is enabled unless a purchase runs. */
  lemma LoadedPackagesEnablePurchase(pkgs: seq<Package>, isPurchasing: bool)
    ensures !PurchaseDisabled(isPurchasing, DefaultSelection(pkgs)) <==> !isPurchasing && pkgs != []
  {
  }

  /**
   * A customer for whom `hasActiveEntitlement` holds is on a native platform
   * and has a non-empty active set, which is the condition under which
   * `PaywallModal.FinishRestore` takes its success branch.
   */
  lemma EntitledRestoreSucceeds(os: Os, info: CustomerInfo, entitlementId: string)
    requires HasActiveEntitlement(os, info, entitlementId)
    ensures os != Web
    ensures info.activeEntitlements != {}
  {
  }
}
