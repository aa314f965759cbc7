/**
 * The rules of the profile-area screens (components/screens/Profile.tsx):
 * the profile's birth-date check and what it lets reach local storage, the
 * emergency and emotional-support contact lists, and the daily task lists
 * with their toggles and additions.
 */
module Profile {
  import opened Wrappers
  import opened JsText
  import opened Lists
  import Onboarding

  // ---------------------------------------------------------------------
  // ProfileScreen
  // ---------------------------------------------------------------------

  const NameKey: string := "userName"
  const RoleKey: string := "userRole"
  const BirthDateKey: string := "userBirthDate"
  const DefaultName: string := "María García"
  const DefaultRole: string := "Usuario"
  const DefaultBirthDate: string := "1953-06-15"
  const DateErrorMessage: string := "Fecha inválida, coloca una fecha correcta"

  /** `localStorage.getItem(key) || fallback`: an empty stored text counts as missing. */
  function StoredOr(storage: map<string, string>, key: string, fallback: string): (r: string)
    ensures key in storage && storage[key] != "" ==> r == storage[key]
    ensures key !in storage || storage[key] == "" ==> r == fallback
  {
    if key in storage && storage[key] != "" then storage[key] else fallback
  }

  /**
   * The error `handleDateChange` sets for a new value: none for an empty
   * value; otherwise an error exactly when the year reads as a number below
   * 1900 or above the current year. A year that does not read as a number
   * (`NaN`) fails both comparisons and so raises no error.
   */
  function DateErrorOf(value: string, currentYear: int): (e: Option<string>)
    ensures e.Some? ==> e.value == DateErrorMessage
    ensures e.Some? <==> value != "" && YearOfDate(value).Some?
                         && !(Onboarding.MinBirthYear <= YearOfDate(value).value <= currentYear)
  {
    if value == "" then None
    else match YearOfDate(value)
      case None => None
      case Some(year) =>
        if year < Onboarding.MinBirthYear || year > currentYear then Some(DateErrorMessage) else None
  }

  /** For a non-empty date whose year reads as a number, the profile's check
      and the registration form's check agree. */
  lemma DateErrorAgreesWithRegistration(value: string, currentYear: int)
    requires value != "" && YearOfDate(value).Some?
    ensures DateErrorOf(value, currentYear).None? <==> Onboarding.IsBirthDateValid(value, currentYear)
  {
  }

  /** A date with no readable year passes the profile's check although the
      registration form rejects it. */
  lemma UnparseableYearRaisesNoError(currentYear: int)
    ensures DateErrorOf("--", currentYear).None?
    ensures !Onboarding.IsBirthDateValid("--", currentYear)
  {
    var value := "--";
    assert value[0] == '-';
    assert BeforeFirst(value, '-') == "";
    assert TrimStart("") == "";
    assert DigitPrefixLength("", 10) == 0;
    assert ParseInt("") == None;
  }

  /** The profile screen's name, birth date, date error and the local storage its effects write. */
  class ProfileState {
    var name: string
    var role: string
    var birthDate: string
    var dateError: Option<string>
    var storage: map<string, string>

    /** The effects have run: the name is always stored, the birth date whenever there is no error. */
    ghost predicate Valid()
      reads this
    {
      && NameKey in storage && storage[NameKey] == name
      && (dateError.None? ==> BirthDateKey in storage && storage[BirthDateKey] == birthDate)
    }

    /** Mounting: stored values or the defaults, no error, then both effects. */
    constructor (saved: map<string, string>)
      ensures name == StoredOr(saved, NameKey, DefaultName)
      ensures role == StoredOr(saved, RoleKey, DefaultRole)
      ensures birthDate == StoredOr(saved, BirthDateKey, DefaultBirthDate)
      ensures dateError.None?
      ensures storage == saved[NameKey := name][BirthDateKey := birthDate]
      ensures Valid()
    {
      name := StoredOr(saved, NameKey, DefaultName);
      role := StoredOr(saved, RoleKey, DefaultRole);
      birthDate := StoredOr(saved, BirthDateKey, DefaultBirthDate);
      dateError := None;
      storage := saved[NameKey := StoredOr(saved, NameKey, DefaultName)]
                      [BirthDateKey := StoredOr(saved, BirthDateKey, DefaultBirthDate)];
    }

    /** Editing the name, followed by its storage effect. */
    method SetName(newName: string)
      requires Valid()
      modifies this
      ensures Valid()
      ensures name == newName && storage == old(storage)[NameKey := newName]
      ensures birthDate == old(birthDate) && dateError == old(dateError) && role == old(role)
    {
      name := newName;
      storage := storage[NameKey := newName];
    }

    /**
     * `handleDateChange` followed by the birth-date effect: the field always
     * takes the new value, but it reaches storage only when it raises no error;
     * a rejected date leaves the last accepted one stored.
     */
    method HandleDateChange(newValue: string, currentYear: int)
      requires Valid()
      modifies this
      ensures Valid()
      ensures birthDate == newValue && dateError == DateErrorOf(newValue, currentYear)
      ensures dateError.None? ==> storage == old(storage)[BirthDateKey := newValue]
      ensures dateError.Some? ==> storage == old(storage)
      ensures name == old(name) && role == old(role)
    {
      birthDate := newValue;
      dateError := DateErrorOf(newValue, currentYear);
      if dateError.None? {
        storage := storage[BirthDateKey := birthDate];
      }
    }
  }

  // ---------------------------------------------------------------------
  // SafetyScreen: emergency contacts
  // ---------------------------------------------------------------------

  /** An emergency contact; the picture is not modelled. */
  datatype Contact = Contact(id: int, name: string, phone: string)

  /** The contact list together with the add form. */
  datatype SafetyView = SafetyView(contacts: seq<Contact>, modalOpen: bool, newName: string, newPhone: string)

  const InitialContacts: seq<Contact> := [Contact(1, "Maria", "123456789"), Contact(2, "Dr. Carlos", "987654321")]

  /** The screen as mounted: the two demo contacts and a closed, empty form. */
  function InitialSafetyView(): (v: SafetyView)
    ensures |v.contacts| == 2 && v.contacts[0].name == "Maria" && v.contacts[1].name == "Dr. Carlos"
    ensures !v.modalOpen && v.newName == "" && v.newPhone == ""
  {
    SafetyView(InitialContacts, false, "", "")
  }

  /**
   * `handleAddContact`: when both the name and the phone have something
   * besides whitespace, the contact (with the untrimmed texts and the clock
   * as id) is appended and the form is cleared and closed; otherwise
   * nothing changes.
   */
  function AddSafetyContact(v: SafetyView, now: int): (r: SafetyView)
    ensures Trim(v.newName) == "" || Trim(v.newPhone) == "" ==> r == v
    ensures Trim(v.newName) != "" && Trim(v.newPhone) != "" ==>
      && |r.contacts| == |v.contacts| + 1 && r.contacts[..|v.contacts|] == v.contacts
      && r.contacts[|v.contacts|] == Contact(now, v.newName, v.newPhone)
      && !r.modalOpen && r.newName == "" && r.newPhone == ""
  {
    if Trim(v.newName) != "" && Trim(v.newPhone) != "" then
      SafetyView(v.contacts + [Contact(now, v.newName, v.newPhone)], false, "", "")
    else v
  }

  /** Every contact the form adds has a name and a phone with something besides whitespace. */
  predicate AddedContactsFilled(contacts: seq<Contact>) {
    forall k :: |InitialContacts| <= k < |contacts| ==> Trim(contacts[k].name) != "" && Trim(contacts[k].phone) != ""
  }

  /** Adding keeps the list's added contacts filled. */
  lemma AddSafetyContactKeepsFilled(v: SafetyView, now: int)
    requires |v.contacts| >= |InitialContacts| && AddedContactsFilled(v.contacts)
    ensures AddedContactsFilled(AddSafetyContact(v, now).contacts)
  {
  }

  // ---------------------------------------------------------------------
  // SupportScreen: emotional-support contacts
  // ---------------------------------------------------------------------

  datatype SupportContact = SupportContact(id: int, name: string, role: string, isLinked: bool)

  datatype SupportView = SupportView(contacts: seq<SupportContact>, modalOpen: bool,
                                     newName: string, newRole: string, newPhone: string)

  const DemoSupportContacts: seq<SupportContact> := [
    SupportContact(1, "Ana", "Hija", false),
    SupportContact(3, "Pedro", "Nieto", false),
    SupportContact(4, "Maria", "Doctora", false)
  ]

  const LinkedCaregiver: SupportContact := SupportContact(2, "Luis", "Cuidador Vinculado", true)

  /** `splice(i, 0, x)` on a list, as a value: `x` lands at index `i`, everything
      from `i` on moves one place right. */
  function InsertAt<T>(s: seq<T>, i: nat, x: T): (r: seq<T>)
    requires i <= |s|
    ensures |r| == |s| + 1 && r[i] == x
    ensures forall k :: 0 <= k < i ==> r[k] == s[k]
    ensures forall k :: i <= k < |s| ==> r[k + 1] == s[k]
  {
    s[..i] + [x] + s[i..]
  }

  /** The list the mount effect sets: the three demo contacts with the linked
      caregiver spliced in at index 1 (the link flag is fixed to true). */
  function InitialSupportContacts(): seq<SupportContact> {
    InsertAt(DemoSupportContacts, 1, LinkedCaregiver)
  }

  /** The initial list is Ana, Luis, Pedro, Maria, ids 1 to 4 in order, and only Luis is linked. */
  lemma InitialSupportList()
    ensures var s := InitialSupportContacts();
      && |s| == 4
      && (forall k :: 0 <= k < 4 ==> s[k].id == k + 1)
      && s[1].name == "Luis"
      && (forall k :: 0 <= k < 4 ==> (s[k].isLinked <==> k == 1))
  {
    var s := InitialSupportContacts();
    assert s[0] == DemoSupportContacts[0];
    assert s[2] == DemoSupportContacts[1];
    assert s[3] == DemoSupportContacts[2];
  }

  /** `handleDelete(id)`: the contacts whose id differs, in their order. */
  function DeleteSupportContact(contacts: seq<SupportContact>, id: int): (r: seq<SupportContact>)
    ensures |r| <= |contacts|
    ensures forall c :: c in r <==> c in contacts && c.id != id
  {
    Filter(contacts, (c: SupportContact) => c.id != id)
  }

  /**
   * `handleAddContact`: only when the name and the role are non-empty (they
   * are not trimmed) a contact with the clock as id and no picture is
   * appended, and the form is cleared and closed; the phone is cleared but
   * never stored.
   */
  function AddSupportContact(v: SupportView, now: int): (r: SupportView)
    ensures v.newName == "" || v.newRole == "" ==> r == v
    ensures v.newName != "" && v.newRole != "" ==>
      && |r.contacts| == |v.contacts| + 1 && r.contacts[..|v.contacts|] == v.contacts
      && r.contacts[|v.contacts|] == SupportContact(now, v.newName, v.newRole, false)
      && !r.modalOpen && r.newName == "" && r.newRole == "" && r.newPhone == ""
  {
    if v.newName != "" && v.newRole != "" then
      SupportView(v.contacts + [SupportContact(now, v.newName, v.newRole, false)], false, "", "", "")
    else v
  }

  /** A contact added with a fresh id is removed again by deleting that id. */
  lemma AddThenDeleteSupportContact(v: SupportView, now: int)
    requires v.newName != "" && v.newRole != ""
    requires forall k :: 0 <= k < |v.contacts| ==> v.contacts[k].id != now
    ensures DeleteSupportContact(AddSupportContact(v, now).contacts, now) == v.contacts
  {
    var added := SupportContact(now, v.newName, v.newRole, false);
    FilterAppend(v.contacts, [added], (c: SupportContact) => c.id != now);
    FilterKeepsAll(v.contacts, (c: SupportContact) => c.id != now);
    FilterDropsAll([added], (c: SupportContact) => c.id != now);
  }

  // ---------------------------------------------------------------------
  // DailyScreen: task lists
  // ---------------------------------------------------------------------

  const NoTimeLabel: string := "Sin hora"

  /** A task; the family view's tasks carry a time label, the user's do not. */
  datatype Task = Task(id: int, text: string, time: Option<string>, completed: bool)

  /** The list a toggle produces: every task keeps its place, id, text and
      time; exactly the tasks with that id flip `completed`. */
  function Toggle(tasks: seq<Task>, id: int): (r: seq<Task>)
    ensures |r| == |tasks|
    ensures forall k :: 0 <= k < |tasks| ==>
      && r[k].id == tasks[k].id && r[k].text == tasks[k].text && r[k].time == tasks[k].time
      && (r[k].completed <==> (tasks[k].id == id) != tasks[k].completed)
  {
    seq(|tasks|, k requires 0 <= k < |tasks| =>
      if tasks[k].id == id then tasks[k].(completed := !tasks[k].completed) else tasks[k])
  }

  /** Toggling the same id twice restores the list. */
  lemma ToggleTwice(tasks: seq<Task>, id: int)
    ensures Toggle(Toggle(tasks, id), id) == tasks
  {
    var r := Toggle(Toggle(tasks, id), id);
    assert forall k :: 0 <= k < |tasks| ==> r[k] == tasks[k];
  }

  /** Toggling an id no task has changes nothing. */
  lemma ToggleAbsent(tasks: seq<Task>, id: int)
    requires forall k :: 0 <= k < |tasks| ==> tasks[k].id != id
    ensures Toggle(tasks, id) == tasks
  {
    assert forall k :: 0 <= k < |tasks| ==> Toggle(tasks, id)[k] == tasks[k];
  }

  /** Which list the user's add form targets. */
  datatype AddingType = Today | Tomorrow | NotAdding

  datatype DailyView = DailyView(
    familyTasks: seq<Task>, isAddingFamily: bool, newFamilyTaskText: string, newFamilyTaskTime: string,
    todayTasks: seq<Task>, tomorrowTasks: seq<Task>, isAddingType: AddingType, newTaskText: string)

  /** `handleAddFamilyTask`: a text with something besides whitespace appends one
      uncompleted task, whose time is the typed one or "Sin hora" when empty,
      and the form is cleared and closed; a blank text changes nothing. */
  function AddFamilyTask(v: DailyView, now: int): (r: DailyView)
    ensures Trim(v.newFamilyTaskText) == "" ==> r == v
    ensures Trim(v.newFamilyTaskText) != "" ==>
      && |r.familyTasks| == |v.familyTasks| + 1 && r.familyTasks[..|v.familyTasks|] == v.familyTasks
      && !r.isAddingFamily && r.newFamilyTaskText == "" && r.newFamilyTaskTime == ""
      && r.todayTasks == v.todayTasks && r.tomorrowTasks == v.tomorrowTasks
      && r.familyTasks[|v.familyTasks|] ==
           Task(now, v.newFamilyTaskText, Some(if v.newFamilyTaskTime == "" then NoTimeLabel else v.newFamilyTaskTime), false)
  {
    if Trim(v.newFamilyTaskText) == "" then v
    else
      var time := if v.newFamilyTaskTime == "" then NoTimeLabel else v.newFamilyTaskTime;
      v.(familyTasks := v.familyTasks + [Task(now, v.newFamilyTaskText, Some(time), false)],
         newFamilyTaskText := "", newFamilyTaskTime := "", isAddingFamily := false)
  }

  /**
   * `handleAddTask`: a blank text changes nothing; otherwise one uncompleted
   * task goes to today's or tomorrow's list as the form's type says (to
   * neither when no type is set), and the text and type are cleared.
   */
  function AddTask(v: DailyView, now: int): (r: DailyView)
    ensures Trim(v.newTaskText) == "" ==> r == v
    ensures Trim(v.newTaskText) != "" ==>
      var t := Task(now, v.newTaskText, None, false);
      && r.todayTasks == (if v.isAddingType == Today then v.todayTasks + [t] else v.todayTasks)
      && r.tomorrowTasks == (if v.isAddingType == Tomorrow then v.tomorrowTasks + [t] else v.tomorrowTasks)
      && r.newTaskText == "" && r.isAddingType == NotAdding && r.familyTasks == v.familyTasks
  {
    if Trim(v.newTaskText) == "" then v
    else
      var t := Task(now, v.newTaskText, None, false);
      v.(todayTasks := if v.isAddingType == Today then v.todayTasks + [t] else v.todayTasks,
         tomorrowTasks := if v.isAddingType == Tomorrow then v.tomorrowTasks + [t] else v.tomorrowTasks,
         newTaskText := "", isAddingType := NotAdding)
  }

  /** An accepted user task lands in at most one list, and in exactly one whenever a type is set. */
  lemma AddTaskGoesToOneList(v: DailyView, now: int)
    requires Trim(v.newTaskText) != ""
    ensures var r := AddTask(v, now);
      |r.todayTasks| + |r.tomorrowTasks| == |v.todayTasks| + |v.tomorrowTasks| + (if v.isAddingType == NotAdding then 0 else 1)
  {
  }
}
