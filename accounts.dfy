/**
 * The tenant-schema `User` model and its manager: phone-number
 * normalisation, the guards and defaults of `create_user` and
 * `create_superuser`, the field clearing done by `save`, the vendor-account
 * check of `clean`, and the derived `formatted_phone` and user-type tests.
 */
module Accounts {
  import opened Common
  import MpesaUtils

  // ---------------------------------------------------------------------
  // normalize_phone_number
  // ---------------------------------------------------------------------

  /** `UserManager.normalize_phone_number`: the digits, then the 254 prefix rules. */
  function NormalizePhoneNumber(phone: string): (r: string)
    ensures AllDigits(r)
    ensures var d := KeepDigits(phone);
      r == d || r == "254" + d || (|d| == 10 && r == "254" + d[1..])
  {
    var d := KeepDigits(phone);
    if StartsWith(d, "0") && |d| == 10 then "254" + d[1..]
    else if StartsWith(d, "254") && |d| == 12 then d
    else if |d| == 9 then "254" + d
    else d
  }

  /** What each rule does, stated on the digits of the input. */
  lemma NormalizeCases(phone: string)
    ensures var d := KeepDigits(phone); var r := NormalizePhoneNumber(phone);
      (StartsWith(d, "0") && |d| == 10 ==> r == "254" + d[|d| - 9..]) &&
      (StartsWith(d, "254") && |d| == 12 ==> r == d) &&
      (|d| == 9 ==> r == "254" + d) &&
      (!(StartsWith(d, "0") && |d| == 10) && !(StartsWith(d, "254") && |d| == 12) && |d| != 9 ==> r == d)
    ensures |NormalizePhoneNumber(phone)| == 12 <==> (var d := KeepDigits(phone);
      (StartsWith(d, "0") && |d| == 10) || |d| == 9 || |d| == 12)
  {
  }

  /**
   * Normalising an already normalised number changes nothing, so the
   * re-normalisation in every `save` is harmless.
   */
  lemma NormalizeIdempotent(phone: string)
    ensures NormalizePhoneNumber(NormalizePhoneNumber(phone)) == NormalizePhoneNumber(phone)
  {
    var r := NormalizePhoneNumber(phone);
    KeepDigitsOfDigits(r);
    var d := KeepDigits(phone);
    if StartsWith(d, "0") && |d| == 10 {
      assert r[..3] == "254";
    } else if |d| == 9 {
      assert r[..3] == "254";
    }
  }

  /**
   * The two normalisations of the code base, this one and the payment
   * client's `format_phone`, agree on local numbers such as 0721630939.
   */
  lemma NormalisationsAgreeOnLocalNumbers(phone: string)
    requires |phone| == 10 && AllDigits(phone) && phone[0] == '0'
    ensures MpesaUtils.FormatPhone(Some(phone)) == Some(NormalizePhoneNumber(phone))
    ensures NormalizePhoneNumber(phone) == "254" + phone[1..]
  {
    KeepDigitsOfDigits(phone);
    MpesaUtils.KeepPhoneCharsOfPhoneChars(phone);
  }

  /**
   * They differ elsewhere: a digit string starting with 0 of any other
   * length is rewritten by `format_phone` but kept as it is here.
   */
  lemma NormalisationsDifferOnLongerNumbers(phone: string)
    requires |phone| >= 11 && AllDigits(phone) && phone[0] == '0'
    ensures MpesaUtils.FormatPhone(Some(phone)) == Some("254" + phone[1..])
    ensures NormalizePhoneNumber(phone) == phone
  {
    KeepDigitsOfDigits(phone);
    MpesaUtils.KeepPhoneCharsOfPhoneChars(phone);
    assert MpesaUtils.Cleaned(phone) == phone;
  }

  // ---------------------------------------------------------------------
  // The User model
  // ---------------------------------------------------------------------

  /** `user_type`; any other stored value is kept as it is. */
  datatype UserType = VendorAdmin | VendorStaff | EndUser | OtherType(name: string)

  predicate IsVendorType(t: UserType) {
    t == VendorAdmin || t == VendorStaff
  }

  /** The row of a user; `password` is what `set_password` was given (None for an unusable password). */
  datatype UserRow = UserRow(
    phoneNumber: string,
    email: Option<string>,
    nationalId: Option<string>,
    userType: UserType,
    vendor: Option<string>,
    isStaff: bool,
    isSuperuser: bool,
    isActive: bool,
    password: Option<string>)
  {
    /** `is_end_user`. */
    predicate IsEndUser() {
      userType == EndUser
    }

    /** `is_vendor_staff`: both vendor account types. */
    predicate IsVendorStaff() {
      IsVendorType(userType)
    }

    /** `formatted_phone`: a plus sign before a 12-character number starting with 254. */
    function FormattedPhone(): (r: string)
      ensures StartsWith(phoneNumber, "254") && |phoneNumber| == 12 ==> r == "+" + phoneNumber
      ensures !(StartsWith(phoneNumber, "254") && |phoneNumber| == 12) ==> r == phoneNumber
    {
      if StartsWith(phoneNumber, "254") && |phoneNumber| == 12 then "+" + phoneNumber else phoneNumber
    }

    /** The fields `save` sets before writing: end users lose vendor and national id; the phone is normalised. */
    function Saved(): (r: UserRow)
      ensures r.phoneNumber == NormalizePhoneNumber(phoneNumber)
      ensures r.userType == userType && r.email == email && r.password == password
      ensures r.isStaff == isStaff && r.isSuperuser == isSuperuser && r.isActive == isActive
      ensures IsEndUser() ==> r.vendor.None? && r.nationalId.None?
      ensures !IsEndUser() ==> r.vendor == vendor && r.nationalId == nationalId
    {
      var cleared := if IsEndUser() then this.(vendor := None, nationalId := None) else this;
      cleared.(phoneNumber := NormalizePhoneNumber(phoneNumber))
    }

    /** `clean`: vendor accounts need an email and a national id, checked in that order. */
    function Clean(): (r: Outcome<CleanError>)
      ensures r.Fail? <==> IsVendorStaff() && (email.None? || email == Some("") || nationalId.None? || nationalId == Some(""))
      ensures r == Fail(MissingNationalId) ==> email.Some? && email != Some("")
      ensures IsVendorStaff() && (email.None? || email == Some("")) ==> r == Fail(MissingEmail)
      ensures IsVendorStaff() && email.Some? && email != Some("") && (nationalId.None? || nationalId == Some("")) ==>
        r == Fail(MissingNationalId)
    {
      if IsVendorStaff() && (email.None? || email == Some("")) then Fail(MissingEmail)
      else if IsVendorStaff() && (nationalId.None? || nationalId == Some("")) then Fail(MissingNationalId)
      else Pass
    }
  }

  /** End users and vendor accounts are disjoint kinds; vendor staff are exactly the two vendor types. */
  lemma UserKinds(u: UserRow)
    ensures u.IsEndUser() ==> !u.IsVendorStaff()
    ensures u.IsVendorStaff() <==> u.userType == VendorAdmin || u.userType == VendorStaff
    ensures u.userType.OtherType? ==> !u.IsEndUser() && !u.IsVendorStaff()
  {
  }

  datatype CleanError = MissingEmail | MissingNationalId

  /** Saving twice stores the same row as saving once. */
  lemma SaveIdempotent(u: UserRow)
    ensures u.Saved().Saved() == u.Saved()
  {
    NormalizeIdempotent(u.phoneNumber);
  }

  /** A saved end user passes `clean` and carries neither vendor nor national id. */
  lemma SavedEndUserIsClean(u: UserRow)
    requires u.IsEndUser()
    ensures u.Saved().Clean() == Pass && u.Saved().vendor.None? && u.Saved().nationalId.None?
  {
  }

  /** A local number saved through the model is displayed in international form. */
  lemma SavedLocalNumberIsFormatted(u: UserRow)
    requires |u.phoneNumber| == 10 && AllDigits(u.phoneNumber) && u.phoneNumber[0] == '0'
    ensures u.Saved().FormattedPhone() == "+254" + u.phoneNumber[1..]
  {
    KeepDigitsOfDigits(u.phoneNumber);
    var p := u.Saved().phoneNumber;
    assert p == "254" + u.phoneNumber[1..];
    assert p[..3] == "254";
  }

  /** A model instance; `Save` assigns its fields as `User.save` does before writing the row. */
  class User {
    var phoneNumber: string
    var email: Option<string>
    var nationalId: Option<string>
    var userType: UserType
    var vendor: Option<string>
    var isStaff: bool
    var isSuperuser: bool
    var isActive: bool
    var password: Option<string>

    function Row(): UserRow
      reads this
    {
      UserRow(phoneNumber, email, nationalId, userType, vendor, isStaff, isSuperuser, isActive, password)
    }

    constructor Load(row: UserRow)
      ensures Row() == row
    {
      phoneNumber := row.phoneNumber;
      email := row.email;
      nationalId := row.nationalId;
      userType := row.userType;
      vendor := row.vendor;
      isStaff := row.isStaff;
      isSuperuser := row.isSuperuser;
      isActive := row.isActive;
      password := row.password;
    }

    /** `set_password`. */
    method SetPassword(raw: Option<string>)
      modifies this
      ensures Row() == old(Row()).(password := raw)
    {
      password := raw;
    }

    /** `save`. */
    method Save()
      modifies this
      ensures Row() == old(Row()).Saved()
    {
      if userType == EndUser {
        vendor := None;
        nationalId := None;
      }
      phoneNumber := NormalizePhoneNumber(phoneNumber);
    }
  }

  // ---------------------------------------------------------------------
  // UserManager
  // ---------------------------------------------------------------------

  /** The keyword arguments given to the manager; None when a key is not passed. */
  datatype ExtraFields = ExtraFields(
    userType: Option<UserType>,
    isStaff: Option<bool>,
    isSuperuser: Option<bool>,
    isActive: Option<bool>,
    email: Option<string>,
    nationalId: Option<string>,
    vendor: Option<string>)

  datatype CreateError = PhoneRequired | SuperuserNotStaff | SuperuserNotSuperuser

  /**
   * The row `create_user` builds and saves: phone required, user type
   * defaulting to end user, the model's own flag defaults (not staff, not
   * superuser, active) for keys not passed.
   */
  function NewUserRow(phone: Option<string>, password: Option<string>, extra: ExtraFields): (r: Result<UserRow, CreateError>)
    ensures r.Err? <==> phone.None? || phone == Some("")
    ensures r.Err? ==> r.error == PhoneRequired
    ensures r.Ok? ==> r.value.phoneNumber == NormalizePhoneNumber(phone.value)
    ensures r.Ok? ==> r.value.userType == extra.userType.GetOr(EndUser)
    ensures r.Ok? ==> r.value.password == password && r.value.email == extra.email
    ensures r.Ok? && extra.userType.None? ==> r.value.IsEndUser() && r.value.vendor.None? && r.value.nationalId.None?
    ensures r.Ok? ==> r.value.Saved() == r.value
  {
    if phone.None? || phone.value == "" then Err(PhoneRequired)
    else
      var row := UserRow(NormalizePhoneNumber(phone.value), extra.email, extra.nationalId,
                         extra.userType.GetOr(EndUser), extra.vendor, extra.isStaff.GetOr(false),
                         extra.isSuperuser.GetOr(false), extra.isActive.GetOr(true), password);
      NormalizeIdempotent(phone.value);
      SaveIdempotent(row);
      Ok(row.Saved())
  }

  /** `create_superuser`'s defaults, as passed on to `create_user`. */
  function SuperuserExtra(extra: ExtraFields): ExtraFields {
    extra.(isStaff := Some(extra.isStaff.GetOr(true)),
           isSuperuser := Some(extra.isSuperuser.GetOr(true)),
           isActive := Some(extra.isActive.GetOr(true)),
           userType := Some(extra.userType.GetOr(VendorAdmin)))
  }

  /**
   * `create_superuser`: the flags are checked before the phone; the user
   * made is staff, superuser and, unless told otherwise, an active vendor
   * admin.
   */
  function NewSuperuserRow(phone: Option<string>, password: Option<string>, extra: ExtraFields): (r: Result<UserRow, CreateError>)
    ensures extra.isStaff == Some(false) ==> r == Err(SuperuserNotStaff)
    ensures extra.isStaff != Some(false) && extra.isSuperuser == Some(false) ==> r == Err(SuperuserNotSuperuser)
    ensures r.Ok? <==> extra.isStaff != Some(false) && extra.isSuperuser != Some(false) && phone.Some? && phone != Some("")
    ensures r.Ok? ==> r.value.isStaff && r.value.isSuperuser
    ensures r.Ok? ==> r.value.isActive == extra.isActive.GetOr(true) && r.value.userType == extra.userType.GetOr(VendorAdmin)
  {
    var full := SuperuserExtra(extra);
    if !full.isStaff.GetOr(false) then Err(SuperuserNotStaff)
    else if !full.isSuperuser.GetOr(false) then Err(SuperuserNotSuperuser)
    else NewUserRow(phone, password, full)
  }

  /** `create_user`: builds the instance from the fields, sets the password and saves. */
  method CreateUser(phone: Option<string>, password: Option<string>, extra: ExtraFields)
    returns (r: Result<User, CreateError>)
    ensures NewUserRow(phone, password, extra).Err? ==> r == Err(NewUserRow(phone, password, extra).error)
    ensures NewUserRow(phone, password, extra).Ok? ==>
      r.Ok? && fresh(r.value) && r.value.Row() == NewUserRow(phone, password, extra).value
  {
    if phone.None? || phone.value == "" {
      return Err(PhoneRequired);
    }
    var normalized := NormalizePhoneNumber(phone.value);
    var u := new User.Load(UserRow(normalized, extra.email, extra.nationalId, extra.userType.GetOr(EndUser),
                                   extra.vendor, extra.isStaff.GetOr(false), extra.isSuperuser.GetOr(false),
                                   extra.isActive.GetOr(true), None));
    u.SetPassword(password);
    u.Save();
    r := Ok(u);
  }

  /** `create_superuser`. */
  method CreateSuperuser(phone: Option<string>, password: Option<string>, extra: ExtraFields)
    returns (r: Result<User, CreateError>)
    ensures NewSuperuserRow(phone, password, extra).Err? ==> r == Err(NewSuperuserRow(phone, password, extra).error)
    ensures NewSuperuserRow(phone, password, extra).Ok? ==>
      r.Ok? && fresh(r.value) && r.value.Row() == NewSuperuserRow(phone, password, extra).value
  {
    var full := SuperuserExtra(extra);
    if !full.isStaff.GetOr(false) {
      return Err(SuperuserNotStaff);
    }
    if !full.isSuperuser.GetOr(false) {
      return Err(SuperuserNotSuperuser);
    }
    r := CreateUser(phone, password, full);
  }
}
