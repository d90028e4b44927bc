/**
 * The `Vendor` tenant: the trial and licence dates `save` fills in, and the
 * licence and trial tests derived from them. Dates are whole days; `today`
 * stands for `timezone.now().date()`, read once per call.
 */
module Vendors {
  import opened Common

  datatype LicenseStatus = LicenseActive | LicensePending | LicenseSuspended | LicenseExpired

  datatype VendorRow = VendorRow(
    businessName: string,
    licenseStatus: LicenseStatus,
    licenseStartDate: Option<int>,
    licenseEndDate: Option<int>,
    licenseDurationDays: nat,
    isTrial: bool,
    trialStartDate: Option<int>,
    trialEndDate: Option<int>,
    trialDurationDays: nat)
  {
    /** `is_license_active`: active status and an end date not yet passed. */
    predicate IsLicenseActive(today: int) {
      licenseStatus == LicenseActive && licenseEndDate.Some? && licenseEndDate.value >= today
    }

    /** `is_trial_active`: on trial with a trial end date not yet passed. */
    predicate IsTrialActive(today: int) {
      isTrial && trialEndDate.Some? && trialEndDate.value >= today
    }

    /** `days_until_license_expiry`. */
    function DaysUntilLicenseExpiry(today: int): (d: int)
      ensures d >= 0
      ensures IsLicenseActive(today) ==> d == licenseEndDate.value - today
      ensures !IsLicenseActive(today) ==> d == 0
    {
      if licenseEndDate.Some? && IsLicenseActive(today) then licenseEndDate.value - today else 0
    }

    /** `days_until_trial_end`. */
    function DaysUntilTrialEnd(today: int): (d: int)
      ensures d >= 0
      ensures IsTrialActive(today) ==> d == trialEndDate.value - today
      ensures !IsTrialActive(today) ==> d == 0
    {
      if trialEndDate.Some? && IsTrialActive(today) then trialEndDate.value - today else 0
    }

    /** `should_display_warning`. */
    predicate ShouldDisplayWarning(today: int) {
      (IsLicenseActive(today) && DaysUntilLicenseExpiry(today) <= 30) ||
      (IsTrialActive(today) && DaysUntilTrialEnd(today) <= 7)
    }

    /**
     * The dates `save` sets: a vendor being added on trial starts its trial
     * today; an active vendor without a licence start starts its licence
     * today.
     */
    function Saved(today: int, adding: bool): (r: VendorRow)
      ensures r.licenseStatus == licenseStatus && r.isTrial == isTrial && r.businessName == businessName
      ensures r.licenseDurationDays == licenseDurationDays && r.trialDurationDays == trialDurationDays
      ensures adding && isTrial ==> r.trialStartDate == Some(today) && r.trialEndDate == Some(today + trialDurationDays)
      ensures !(adding && isTrial) ==> r.trialStartDate == trialStartDate && r.trialEndDate == trialEndDate
      ensures licenseStatus == LicenseActive && licenseStartDate.None? ==>
        r.licenseStartDate == Some(today) && r.licenseEndDate == Some(today + licenseDurationDays)
      ensures !(licenseStatus == LicenseActive && licenseStartDate.None?) ==>
        r.licenseStartDate == licenseStartDate && r.licenseEndDate == licenseEndDate
    {
      var trial := if adding && isTrial then
        this.(trialStartDate := Some(today), trialEndDate := Some(today + trialDurationDays))
      else this;
      if trial.licenseStatus == LicenseActive && trial.licenseStartDate.None? then
        trial.(licenseStartDate := Some(today), licenseEndDate := Some(today + licenseDurationDays))
      else trial
    }
  }

  /** The warning shows exactly when the licence ends within 30 days or the trial within 7. */
  lemma WarningWindow(v: VendorRow, today: int)
    ensures v.ShouldDisplayWarning(today) <==>
      (v.licenseStatus == LicenseActive && v.licenseEndDate.Some? && today <= v.licenseEndDate.value <= today + 30) ||
      (v.isTrial && v.trialEndDate.Some? && today <= v.trialEndDate.value <= today + 7)
  {
  }

  /** An existing licence start is never overwritten by a later save. */
  lemma SaveKeepsLicenseStart(v: VendorRow, today: int, adding: bool)
    requires v.licenseStartDate.Some?
    ensures v.Saved(today, adding).licenseStartDate == v.licenseStartDate
    ensures v.Saved(today, adding).licenseEndDate == v.licenseEndDate
  {
  }

  /** Saving again on a later day changes nothing once the vendor exists. */
  lemma ResaveIsStable(v: VendorRow, t1: int, t2: int, adding: bool)
    ensures v.Saved(t1, adding).Saved(t2, false) == v.Saved(t1, adding)
  {
  }

  /** A vendor added on trial today with a positive trial length is on an active trial until its last day. */
  lemma NewTrialIsActive(v: VendorRow, today: int, later: int)
    requires v.isTrial && today <= later
    ensures v.Saved(today, true).IsTrialActive(later) <==> later <= today + v.trialDurationDays
    ensures v.Saved(today, true).IsTrialActive(later) ==>
      v.Saved(today, true).DaysUntilTrialEnd(later) == today + v.trialDurationDays - later
  {
  }

  /** A model instance; `Save` assigns the date fields as `Vendor.save` does. */
  class Vendor {
    var businessName: string
    var licenseStatus: LicenseStatus
    var licenseStartDate: Option<int>
    var licenseEndDate: Option<int>
    var licenseDurationDays: nat
    var isTrial: bool
    var trialStartDate: Option<int>
    var trialEndDate: Option<int>
    var trialDurationDays: nat

    function Row(): VendorRow
      reads this
    {
      VendorRow(businessName, licenseStatus, licenseStartDate, licenseEndDate, licenseDurationDays,
                isTrial, trialStartDate, trialEndDate, trialDurationDays)
    }

    constructor Load(row: VendorRow)
      ensures Row() == row
    {
      businessName := row.businessName;
      licenseStatus := row.licenseStatus;
      licenseStartDate := row.licenseStartDate;
      licenseEndDate := row.licenseEndDate;
      licenseDurationDays := row.licenseDurationDays;
      isTrial := row.isTrial;
      trialStartDate := row.trialStartDate;
      trialEndDate := row.trialEndDate;
      trialDurationDays := row.trialDurationDays;
    }

    /** `save`; `adding` is `self._state.adding` (the row is not yet in the table). */
    method Save(today: int, adding: bool)
      modifies this
      ensures Row() == old(Row()).Saved(today, adding)
    {
      if adding && isTrial {
        trialStartDate := Some(today);
        trialEndDate := Some(today + trialDurationDays);
      }
      if licenseStatus == LicenseActive && licenseStartDate.None? {
        licenseStartDate := Some(today);
        licenseEndDate := Some(today + licenseDurationDays);
      }
    }
  }
}
