/**
 * The registration form: the validity rules of its six fields, the local
 * phone input filter, the phone number as stored, and the submit step that
 * signs the user up, creates the profile and remembers the data locally.
 */
module Onboarding {
  import opened Wrappers
  import opened JsText

  const MinBirthYear: int := 1900
  const MaxNameLength: nat := 30
  const MinPasswordLength: nat := 6
  const MinPhoneDigits: nat := 10
  const MaxLocalPhoneDigits: nat := 10
  /** The area-code choice that means "no Argentine prefix". */
  const OtherAreaCode: string := "Otro"
  const ConfirmAccountMessage: string :=
    "Revisa tu correo para confirmar la cuenta (si es necesario) o intenta iniciar sesión."

  datatype RegisterForm = RegisterForm(
    name: string, role: string, birthDate: string, email: string,
    password: string, confirmPassword: string,
    areaCode: string, localPhoneNumber: string, avatar: string)

  /** A name with something besides whitespace, of at most 30 characters. */
  predicate IsNameValid(name: string) {
    Trim(name) != "" && |name| <= MaxNameLength
  }

  /** A date whose year reads as a number from 1900 to the current year. */
  predicate IsBirthDateValid(birthDate: string, currentYear: int) {
    birthDate != "" && YearOfDate(birthDate).Some?
    && MinBirthYear <= YearOfDate(birthDate).value <= currentYear
  }

  predicate IsPasswordValid(password: string) {
    |password| >= MinPasswordLength
  }

  predicate DoPasswordsMatch(password: string, confirm: string) {
    password == confirm && |confirm| > 0
  }

  /** The phone as typed: the local number alone for "Otro", else the area code in front. */
  function FullPhoneRaw(areaCode: string, local: string): string {
    if areaCode == OtherAreaCode then local else areaCode + local
  }

  predicate IsPhoneValid(areaCode: string, local: string) {
    |DigitsOnly(FullPhoneRaw(areaCode, local))| >= MinPhoneDigits
  }

  predicate IsFormValid(f: RegisterForm, currentYear: int) {
    && IsNameValid(f.name)
    && IsBirthDateValid(f.birthDate, currentYear)
    && IsValidEmail(f.email)
    && IsPasswordValid(f.password)
    && DoPasswordsMatch(f.password, f.confirmPassword)
    && IsPhoneValid(f.areaCode, f.localPhoneNumber)
  }

  /** A birth date written as `YYYY-MM-DD` from a year between 1900 and the
      current one passes the date check. */
  lemma WrittenBirthDateIsValid(year: nat, rest: string, currentYear: int)
    requires MinBirthYear <= year <= currentYear
    ensures IsBirthDateValid(NatToString(year) + "-" + rest, currentYear)
  {
    YearOfWrittenDate(year, rest);
  }

  /** The number as stored: `+54 9 {area} {local}`, or the local number for "Otro". */
  function FormattedPhone(areaCode: string, local: string): (r: string)
    ensures areaCode == OtherAreaCode ==> r == local
    ensures areaCode != OtherAreaCode ==> StartsWith(r, "+54 9 ")
  {
    if areaCode == OtherAreaCode then local
    else
      var r := "+54 9 " + areaCode + " " + local;
      assert r[..6] == "+54 9 ";
      r
  }

  lemma {:induction false} DigitsOnlyAppend(a: string, b: string)
    ensures DigitsOnly(a + b) == DigitsOnly(a) + DigitsOnly(b)
    decreases |a|
  {
    if a == [] {
      assert a + b == b;
    } else {
      assert (a + b)[0] == a[0];
      assert (a + b)[1..] == a[1..] + b;
      DigitsOnlyAppend(a[1..], b);
    }
  }

  lemma CountryPrefixDigits()
    ensures DigitsOnly("+54 9 ") == "549"
  {
    assert DigitsOnly(" ") == "";
    assert DigitsOnly("9 ") == "9";
    assert DigitsOnly(" 9 ") == "9";
    assert DigitsOnly("4 9 ") == "49";
    assert DigitsOnly("54 9 ") == "549";
  }

  /** The stored number has the digits that were validated, behind the
      country prefix 54 and the mobile 9. */
  lemma FormattedPhoneDigits(areaCode: string, local: string)
    requires areaCode != OtherAreaCode
    ensures DigitsOnly(FormattedPhone(areaCode, local)) == "549" + DigitsOnly(FullPhoneRaw(areaCode, local))
  {
    var prefix := "+54 9 ";
    var space := " ";
    var da, dl := DigitsOnly(areaCode), DigitsOnly(local);
    assert FormattedPhone(areaCode, local) == prefix + (areaCode + (space + local));
    DigitsOnlyAppend(space, local);
    assert DigitsOnly(space) == "";
    assert DigitsOnly(space + local) == dl;
    DigitsOnlyAppend(areaCode, space + local);
    DigitsOnlyAppend(areaCode, local);
    assert DigitsOnly(areaCode + (space + local)) == DigitsOnly(areaCode + local);
    DigitsOnlyAppend(prefix, areaCode + (space + local));
    CountryPrefixDigits();
  }

  /** The local-number field's `onChange`: the digits of what was typed,
      taken only when there are at most ten of them. */
  function PhoneInput(current: string, typed: string): (r: string)
    ensures AllDigits(current) && |current| <= MaxLocalPhoneDigits ==> AllDigits(r) && |r| <= MaxLocalPhoneDigits
    ensures r == current || r == DigitsOnly(typed)
  {
    var digits := DigitsOnly(typed);
    if |digits| <= MaxLocalPhoneDigits then digits else current
  }

  /** What the sign-up call answered. */
  datatype SignUpResult = SignUpFailed(message: string) | NoUser | SignedUp(userId: string)

  /** The auth request and its user metadata. */
  datatype SignUpRequest = SignUpRequest(email: string, password: string, name: string, role: string,
                                         birthDate: string, phone: string, avatar: string)

  /** The `profiles` row inserted after a sign-up; `birth_date` is null for an empty date. */
  datatype ProfileInsert = ProfileInsert(id: string, name: string, role: string, birthDate: Option<string>,
                                         email: string, avatar: string, phone: string)

  function RequestOf(f: RegisterForm): SignUpRequest {
    SignUpRequest(f.email, f.password, f.name, f.role, f.birthDate,
                  FormattedPhone(f.areaCode, f.localPhoneNumber), f.avatar)
  }

  function ProfileOf(f: RegisterForm, userId: string): ProfileInsert {
    ProfileInsert(userId, f.name, f.role, if f.birthDate == "" then None else Some(f.birthDate),
                  f.email, f.avatar, FormattedPhone(f.areaCode, f.localPhoneNumber))
  }

  /** The local-storage entries written after a sign-up. */
  function RememberedEntries(storage: map<string, string>, f: RegisterForm): map<string, string> {
    storage["userName" := f.name]["userRole" := f.role]["userBirthDate" := f.birthDate]
      ["userEmail" := f.email]["userAvatar" := f.avatar]
  }

  class Registration {
    var loading: bool
    var error: Option<string>
    var storage: map<string, string>
    var atHome: bool
    var signUps: seq<SignUpRequest>
    var profileInserts: seq<ProfileInsert>

    constructor (saved: map<string, string>)
      ensures !loading && error.None? && storage == saved && !atHome && signUps == [] && profileInserts == []
    {
      loading := false;
      error := None;
      storage := saved;
      atHome := false;
      signUps := [];
      profileInserts := [];
    }

    /**
     * `handleSubmit`: nothing happens unless the form is valid; a valid form
     * goes on to the sign-up.
     */
    method Submit(f: RegisterForm, currentYear: int, answer: SignUpResult)
      modifies this
      ensures !IsFormValid(f, currentYear) ==>
        && loading == old(loading) && error == old(error) && storage == old(storage)
        && atHome == old(atHome) && signUps == old(signUps) && profileInserts == old(profileInserts)
      ensures IsFormValid(f, currentYear) ==> !loading && signUps == old(signUps) + [RequestOf(f)]
      ensures IsFormValid(f, currentYear) && !answer.SignedUp? ==>
        && error == Some(if answer.SignUpFailed? then answer.message else ConfirmAccountMessage)
        && atHome == old(atHome) && storage == old(storage) && profileInserts == old(profileInserts)
      ensures IsFormValid(f, currentYear) && answer.SignedUp? ==>
        && error.None? && atHome
        && profileInserts == old(profileInserts) + [ProfileOf(f, answer.userId)]
        && storage == RememberedEntries(old(storage), f)
    {
      var valid := IsFormValid(f, currentYear);
      if !valid {
        return;
      }
      SignUp(f, answer);
    }

    /**
     * The sign-up of a valid form, with the formatted phone: an auth error is
     * shown; a created user gets a profile row, the local entries and the
     * home screen (a failed profile insert is only logged); no user shows the
     * confirmation hint. Loading ends on every path.
     */
    method SignUp(f: RegisterForm, answer: SignUpResult)
      modifies this
      ensures !loading && signUps == old(signUps) + [RequestOf(f)]
      ensures !answer.SignedUp? ==>
        && error == Some(if answer.SignUpFailed? then answer.message else ConfirmAccountMessage)
        && atHome == old(atHome) && storage == old(storage) && profileInserts == old(profileInserts)
      ensures answer.SignedUp? ==>
        && error.None? && atHome
        && profileInserts == old(profileInserts) + [ProfileOf(f, answer.userId)]
        && storage == RememberedEntries(old(storage), f)
    {
      loading := true;
      error := None;
      signUps := signUps + [RequestOf(f)];
      match answer
      case SignUpFailed(message) =>
        loading := false;
        error := Some(message);
      case SignedUp(userId) =>
        profileInserts := profileInserts + [ProfileOf(f, userId)];
        storage := RememberedEntries(storage, f);
        loading := false;
        atHome := true;
      case NoUser =>
        loading := false;
        error := Some(ConfirmAccountMessage);
    }
  }
}
