/**
 * The bulk actions of the vendor admin page over the vendors table:
 * `activate_license`, `suspend_license` and `extend_trial`. A selection is
 * the queryset's rows, by id, in its order; each looping action loads a
 * fresh instance per row, assigns its fields, saves it and so writes the
 * row back.
 */
module VendorAdmin {
  import opened Common
  import opened Vendors

  predicate Distinct(ids: seq<string>) {
    forall i, j :: 0 <= i < j < |ids| ==> ids[i] != ids[j]
  }

  function Elems(ids: seq<string>): set<string> {
    set x | x in ids
  }

  /** The rows after applying f to every selected row; the others as they were. */
  function Selected(rows: map<string, VendorRow>, sel: set<string>, f: VendorRow -> VendorRow): (r: map<string, VendorRow>)
    ensures r.Keys == rows.Keys
    ensures forall id :: id in rows && id in sel ==> r[id] == f(rows[id])
    ensures forall id :: id in rows && id !in sel ==> r[id] == rows[id]
  {
    map id | id in rows :: if id in sel then f(rows[id]) else rows[id]
  }

  /** Selecting one more row is one more write. */
  lemma SelectedStep(rows: map<string, VendorRow>, sel: set<string>, id: string, f: VendorRow -> VendorRow)
    requires id in rows && id !in sel
    ensures Selected(rows, sel + {id}, f) == Selected(rows, sel, f)[id := f(rows[id])]
  {
    var a := Selected(rows, sel + {id}, f);
    var b := Selected(rows, sel, f)[id := f(rows[id])];
    assert a.Keys == b.Keys;
    forall k | k in a ensures a[k] == b[k] {
    }
  }

  /** The fields `activate_license` assigns: active, starting today, for the licence duration. */
  function Activate(v: VendorRow, today: int): (r: VendorRow)
    ensures r.IsLicenseActive(today)
    ensures r.DaysUntilLicenseExpiry(today) == v.licenseDurationDays
  {
    v.(licenseStatus := LicenseActive, licenseStartDate := Some(today),
       licenseEndDate := Some(today + v.licenseDurationDays))
  }

  /** The field `suspend_license` assigns. */
  function Suspend(v: VendorRow): VendorRow {
    v.(licenseStatus := LicenseSuspended)
  }

  /** Whether `extend_trial` touches the vendor: on trial and with a trial end date. */
  predicate TrialExtendable(v: VendorRow) {
    v.isTrial && v.trialEndDate.Some?
  }

  /** `extend_trial` on one vendor: seven more trial days, then `save`; the others are not saved. */
  function ExtendTrial(v: VendorRow, today: int): VendorRow {
    if TrialExtendable(v) then v.(trialEndDate := Some(v.trialEndDate.value + 7)).Saved(today, false) else v
  }

  /** Activation overwrites whatever licence dates were there, and the save after it adds nothing. */
  lemma ActivateThenSave(v: VendorRow, today: int)
    ensures Activate(v, today).Saved(today, false) == Activate(v, today)
    ensures Activate(v, today).licenseStartDate == Some(today)
    ensures Activate(v, today).licenseEndDate == Some(today + v.licenseDurationDays)
    ensures Activate(v, today).isTrial == v.isTrial && Activate(v, today).trialEndDate == v.trialEndDate
  {
  }

  /** A suspended licence is not active, whatever its dates; nothing but the status changes. */
  lemma SuspendedIsInactive(v: VendorRow, today: int)
    ensures !Suspend(v).IsLicenseActive(today) && Suspend(v).DaysUntilLicenseExpiry(today) == 0
    ensures Suspend(v).(licenseStatus := v.licenseStatus) == v
  {
  }

  /**
   * Extending adds exactly seven days to the trial end of an extendable
   * vendor, and leaves any other vendor unchanged. Because the action saves
   * the vendor, an active vendor without a licence start also has its
   * licence started today.
   */
  lemma ExtendTrialEffect(v: VendorRow, today: int)
    ensures TrialExtendable(v) ==> ExtendTrial(v, today).trialEndDate == Some(v.trialEndDate.value + 7)
    ensures TrialExtendable(v) ==> ExtendTrial(v, today).trialStartDate == v.trialStartDate
    ensures TrialExtendable(v) && !(v.licenseStatus == LicenseActive && v.licenseStartDate.None?) ==>
      ExtendTrial(v, today) == v.(trialEndDate := Some(v.trialEndDate.value + 7))
    ensures TrialExtendable(v) && v.licenseStatus == LicenseActive && v.licenseStartDate.None? ==>
      ExtendTrial(v, today).licenseStartDate == Some(today)
    ensures !TrialExtendable(v) ==> ExtendTrial(v, today) == v
    ensures TrialExtendable(v) && v.IsTrialActive(today) ==>
      ExtendTrial(v, today).DaysUntilTrialEnd(today) == v.DaysUntilTrialEnd(today) + 7
  {
  }

  /** The vendors table. */
  class VendorTable {
    var rows: map<string, VendorRow>

    constructor (rows: map<string, VendorRow>)
      ensures this.rows == rows
    {
      this.rows := rows;
    }

    /** `activate_license`; the count is the one reported in the message. */
    method ActivateLicense(selection: seq<string>, today: int) returns (count: nat)
      requires Distinct(selection) && forall i :: 0 <= i < |selection| ==> selection[i] in rows
      modifies this
      ensures rows == Selected(old(rows), Elems(selection), v => Activate(v, today))
      ensures count == |selection|
    {
      var i := 0;
      while i < |selection|
        invariant 0 <= i <= |selection|
        invariant rows == Selected(old(rows), Elems(selection[..i]), v => Activate(v, today))
      {
        var id := selection[i];
        assert id !in Elems(selection[..i]);
        assert Elems(selection[..i + 1]) == Elems(selection[..i]) + {id};
        SelectedStep(old(rows), Elems(selection[..i]), id, v => Activate(v, today));
        assert rows[id] == old(rows)[id];
        ActivateOne(id, today);
        i := i + 1;
      }
      assert selection[..i] == selection;
      count := |selection|;
    }

    /** `suspend_license`: one bulk update of the status column, no `save`. */
    method SuspendLicense(selection: seq<string>) returns (updated: nat)
      requires Distinct(selection) && forall i :: 0 <= i < |selection| ==> selection[i] in rows
      modifies this
      ensures rows == Selected(old(rows), Elems(selection), Suspend)
      ensures updated == |selection|
    {
      rows := map id | id in rows :: if id in Elems(selection) then Suspend(rows[id]) else rows[id];
      updated := |selection|;
    }

    /** `extend_trial`; the count reported is the selection's size, extended or not. */
    method ExtendTrialAction(selection: seq<string>, today: int) returns (count: nat)
      requires Distinct(selection) && forall i :: 0 <= i < |selection| ==> selection[i] in rows
      modifies this
      ensures rows == Selected(old(rows), Elems(selection), v => ExtendTrial(v, today))
      ensures count == |selection|
    {
      var i := 0;
      while i < |selection|
        invariant 0 <= i <= |selection|
        invariant rows == Selected(old(rows), Elems(selection[..i]), v => ExtendTrial(v, today))
      {
        var id := selection[i];
        assert id !in Elems(selection[..i]);
        assert Elems(selection[..i + 1]) == Elems(selection[..i]) + {id};
        SelectedStep(old(rows), Elems(selection[..i]), id, v => ExtendTrial(v, today));
        assert rows[id] == old(rows)[id];
        ExtendOne(id, today);
        i := i + 1;
      }
      assert selection[..i] == selection;
      count := |selection|;
    }
    /** One row of `activate_license`: load, assign the licence fields, save. */
    method ActivateOne(id: string, today: int)
      requires id in rows
      modifies this
      ensures rows == old(rows)[id := Activate(old(rows)[id], today)]
    {
      var vendor := new Vendor.Load(rows[id]);
      vendor.licenseStatus := LicenseActive;
      vendor.licenseStartDate := Some(today);
      vendor.licenseEndDate := Some(today + vendor.licenseDurationDays);
      vendor.Save(today, false);
      ActivateThenSave(old(rows)[id], today);
      rows := rows[id := vendor.Row()];
    }

    /** One row of `extend_trial`: load, and when extendable add seven days and save. */
    method ExtendOne(id: string, today: int)
      requires id in rows
      modifies this
      ensures rows == old(rows)[id := ExtendTrial(old(rows)[id], today)]
    {
      var vendor := new Vendor.Load(rows[id]);
      if vendor.isTrial && vendor.trialEndDate.Some? {
        vendor.trialEndDate := Some(vendor.trialEndDate.value + 7);
        vendor.Save(today, false);
        rows := rows[id := vendor.Row()];
      } else {
        assert rows == rows[id := ExtendTrial(rows[id], today)];
      }
    }
  }
}
