/** pages/Profile.tsx: the profile form, its field edits, the submit checks and
    the profile update they guard. */
module ProfileForm {
  import opened Types
  import Constants
  import Api

  datatype Form = Form(
    fullName: string,
    phone: string,
    age: int,
    gender: Gender,
    permanentAddress: string,
    currentAddress: string,
    sameAddress: bool)

  /** The form for a user: missing (or falsy) values fall back to `''`, age 18
      and "Prefer not"; the same-address box starts unchecked. */
  function InitialForm(u: User): Form
  {
    Form(u.fullName.GetOr(""),
         u.phone.GetOr(""),
         if u.age.None? || u.age.value == 0 then 18 else u.age.value,
         u.gender.GetOr(PreferNot),
         u.permanentAddress.GetOr(""),
         u.currentAddress.GetOr(""),
         false)
  }

  /** One `onChange` of a named input. */
  datatype Change =
    | SetFullName(s: string)
    | SetPhone(s: string)
    | SetAge(n: int)
    | SetGender(g: Gender)
    | SetPermanentAddress(s: string)
    | SetCurrentAddress(s: string)
    | SetSameAddress(checked: bool)

  datatype Field = FullName | Phone | Age | GenderField | PermanentAddress | CurrentAddress | SameAddress

  /** handleChange: the named field takes the new value; checking the
      same-address box also copies the permanent address into the current one
      at that moment, and unchecking it restores nothing. */
  function ApplyChange(f: Form, c: Change): Form
  {
    match c
    case SetFullName(s) => f.(fullName := s)
    case SetPhone(s) => f.(phone := s)
    case SetAge(n) => f.(age := n)
    case SetGender(g) => f.(gender := g)
    case SetPermanentAddress(s) => f.(permanentAddress := s)
    case SetCurrentAddress(s) => f.(currentAddress := s)
    case SetSameAddress(b) => if b then f.(sameAddress := b, currentAddress := f.permanentAddress) else f.(sameAddress := b)
  }

  function Get(f: Form, x: Field): (string, int, Gender, bool)
  {
    match x
    case FullName => (f.fullName, 0, PreferNot, false)
    case Phone => (f.phone, 0, PreferNot, false)
    case Age => ("", f.age, PreferNot, false)
    case GenderField => ("", 0, f.gender, false)
    case PermanentAddress => (f.permanentAddress, 0, PreferNot, false)
    case CurrentAddress => (f.currentAddress, 0, PreferNot, false)
    case SameAddress => ("", 0, PreferNot, f.sameAddress)
  }

  /** The fields a change may write. */
  function Touched(c: Change): set<Field>
  {
    match c
    case SetFullName(_) => {FullName}
    case SetPhone(_) => {Phone}
    case SetAge(_) => {Age}
    case SetGender(_) => {GenderField}
    case SetPermanentAddress(_) => {PermanentAddress}
    case SetCurrentAddress(_) => {CurrentAddress}
    case SetSameAddress(b) => if b then {SameAddress, CurrentAddress} else {SameAddress}
  }

  /** A change writes only its own field (and, for a checked box, the current
      address), and that field then holds the new value. */
  lemma ChangeIsLocal(f: Form, c: Change, x: Field)
    ensures x !in Touched(c) ==> Get(ApplyChange(f, c), x) == Get(f, x)
    ensures c.SetFullName? ==> ApplyChange(f, c).fullName == c.s
    ensures c.SetPhone? ==> ApplyChange(f, c).phone == c.s
    ensures c.SetAge? ==> ApplyChange(f, c).age == c.n
    ensures c.SetGender? ==> ApplyChange(f, c).gender == c.g
    ensures c.SetPermanentAddress? ==> ApplyChange(f, c).permanentAddress == c.s
    ensures c.SetCurrentAddress? ==> ApplyChange(f, c).currentAddress == c.s
    ensures c.SetSameAddress? ==> ApplyChange(f, c).sameAddress == c.checked
    ensures c == SetSameAddress(true) ==> ApplyChange(f, c).currentAddress == f.permanentAddress
  {
  }

  /** The copy is a snapshot: editing the permanent address after checking the
      box does not carry over, and unchecking does not bring the old current
      address back. */
  lemma SameAddressIsSnapshot(f: Form, addr: string)
    requires addr != f.permanentAddress
    ensures var g := ApplyChange(ApplyChange(f, SetSameAddress(true)), SetPermanentAddress(addr));
      g.currentAddress == f.permanentAddress && g.currentAddress != g.permanentAddress
    ensures ApplyChange(ApplyChange(f, SetSameAddress(true)), SetSameAddress(false)).currentAddress == f.permanentAddress
  {
  }

  const MissingFields: string := "Required fields are missing"
  const BadPhone: string := "Please enter a valid 10-digit Indian phone number"
  const TooYoung: string := "You must be at least 18 years old"
  const UpdateFailed: string := "Failed to update profile"

  /** The submit checks, in order; the first that fails gives the message. */
  function ValidateProfile(f: Form): Option<string>
  {
    if f.fullName == "" || f.phone == "" || f.permanentAddress == "" then Some(MissingFields)
    else if !Constants.TestPhone(f.phone) then Some(BadPhone)
    else if f.age < 18 then Some(TooYoung)
    else None
  }

  /** A form passes exactly when the name, phone and permanent address are
      given, the phone is an Indian mobile number and the age is at least 18;
      a missing field is reported before a bad phone, and a bad phone before
      the age. */
  lemma ValidateProfileMeaning(f: Form)
    ensures ValidateProfile(f).None? <==>
      f.fullName != "" && f.permanentAddress != "" && Constants.IsIndianPhone(f.phone) && f.age >= 18
    ensures (f.fullName == "" || f.phone == "" || f.permanentAddress == "") ==> ValidateProfile(f) == Some(MissingFields)
    ensures f.fullName != "" && f.phone != "" && f.permanentAddress != "" && !Constants.IsIndianPhone(f.phone) ==>
      ValidateProfile(f) == Some(BadPhone)
  {
    if f.phone == "" {
      assert !Constants.IsIndianPhone(f.phone);
    }
  }

  /** The update the form sends: every field, and the profile marked complete. */
  function ProfilePatch(f: Form): Api.UserPatch
  {
    Api.UserPatch(Some(f.fullName), Some(f.phone), Some(f.age), Some(f.gender), None,
                  Some(f.permanentAddress), Some(f.currentAddress), Some(true))
  }

  /** Saving a passing form and opening the form again shows the same values
      (with the box unchecked); the role is left as it was and the profile is
      complete. */
  lemma ProfileRoundTrip(row: Api.UserRow, f: Form)
    requires ValidateProfile(f).None?
    ensures var saved := Api.ApplyPatch(row, ProfilePatch(f));
      && InitialForm(Api.MapUser(saved)) == f.(sameAddress := false)
      && saved.profile_complete && saved.role == row.role && saved.id == row.id
  {
  }

  /** A freshly signed-up user opens an empty form. */
  lemma NewUserForm(id: string, email: string)
    ensures InitialForm(Api.MapUser(Api.NewProfileRow(id, email)))
         == Form("", "", 18, PreferNot, "", "", false)
  {
  }

  class ProfilePage {
    var form: Form
    var error: string

    constructor (u: User)
      ensures form == InitialForm(u) && error == ""
    {
      form := InitialForm(u);
      error := "";
    }

    method HandleChange(c: Change)
      modifies this`form
      ensures form == ApplyChange(old(form), c)
    {
      form := ApplyChange(form, c);
    }

    /** handleSubmit: clear the error; on the first failed check show its
        message and send nothing; otherwise send the update and report
        completion only if it succeeds. */
    method HandleSubmit(store: Api.Store, fault: bool) returns (completed: bool)
      requires store.Valid()
      modifies this`error, store`users
      ensures store.Valid()
      ensures ValidateProfile(form).Some? ==>
        !completed && error == ValidateProfile(form).value && store.users == old(store.users)
      ensures ValidateProfile(form).None? ==>
        (completed <==> store.configured && store.session.Some? && !fault)
      ensures completed ==>
        && error == ""
        && store.users == old(store.users)[store.session.value :=
             Api.ApplyPatch(old(store.users)[store.session.value], ProfilePatch(form))]
      ensures ValidateProfile(form).None? && !completed ==>
        error == UpdateFailed && store.users == old(store.users)
    {
      error := "";
      var check := ValidateProfile(form);
      if check.Some? {
        error := check.value;
        return false;
      }
      var r := store.UpdateProfile(ProfilePatch(form), fault);
      if r.Success? {
        completed := true;
      } else {
        error := UpdateFailed;
        completed := false;
      }
    }
  }
}
