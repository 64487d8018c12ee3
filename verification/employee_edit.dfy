/**
 * The employee edit page: the role whitelist, the one-Manager-per-store rule,
 * the form's field updates and its validation.
 *
 * The page state (`formData`, `errors`) lives in the class `EmployeeEditPage`;
 * the rules it applies are functions over values.
 */
module EmployeeEdit {
  import opened Options
  import opened Sequences
  import opened Text

  datatype Role = Role(roleId: string, roleName: string)

  /** The account part of an employee as the API returns it. */
  datatype ApiAccount = ApiAccount(username: Option<string>, roleId: Option<string>, isActive: Option<bool>)

  /** An employee as the API returns it; every field may be missing. */
  datatype ApiEmployee = ApiEmployee(
    employeeId: string,
    firstName: Option<string>,
    lastName: Option<string>,
    email: Option<string>,
    phoneNumber: Option<string>,
    address: Option<string>,
    storeId: Option<string>,
    account: Option<ApiAccount>,
    roles: Option<seq<Role>>)

  datatype AccountData = AccountData(username: string, roleId: string, isActive: bool)

  datatype FormData = FormData(
    firstName: string,
    lastName: string,
    email: string,
    phoneNumber: string,
    address: string,
    storeId: string,
    accountData: AccountData,
    roleIds: seq<string>)

  const ManagerName := "Manager"

  /** The four staff roles; Customer is not among them. */
  const StaffRoles := [Role("MANAGER", "Manager"), Role("SALES", "Sales"), Role("DESIGNER", "Designer"), Role("TECHNICIAN", "Technician")]

  /** The form before any employee is loaded. */
  const InitialForm := FormData("", "", "", "", "", "", AccountData("", "", true), [])

  /** The role has one of the staff role ids. */
  predicate IsStaffRole(role: Role) {
    Any(StaffRoles, (s: Role) => s.roleId == role.roleId)
  }

  /**
   * `availableRoles`: the API roles restricted, in order, to the staff ids,
   * or the static staff list when the API returned no roles.
   */
  function AvailableRoles(apiRoles: seq<Role>): (roles: seq<Role>)
    ensures apiRoles == [] ==> roles == StaffRoles
    ensures apiRoles != [] ==> IsSubsequence(roles, apiRoles)
    ensures apiRoles != [] ==> forall r :: r in roles <==> r in apiRoles && IsStaffRole(r)
  {
    if |apiRoles| > 0 then Filter(apiRoles, IsStaffRole) else StaffRoles
  }

  /** Whatever the API returns, only staff role ids are offered. */
  lemma AvailableRolesAreStaff(apiRoles: seq<Role>)
    ensures forall r :: r in AvailableRoles(apiRoles) ==> r.roleId in {"MANAGER", "SALES", "DESIGNER", "TECHNICIAN"}
  {
    forall r | r in AvailableRoles(apiRoles)
      ensures r.roleId in {"MANAGER", "SALES", "DESIGNER", "TECHNICIAN"}
    {
      if apiRoles != [] {
        assert IsStaffRole(r);
        var i :| 0 <= i < |StaffRoles| && StaffRoles[i].roleId == r.roleId;
      }
    }
  }

  /** The employee has a role named "Manager". */
  function HasManagerRole(e: ApiEmployee): (r: bool)
    ensures r <==> e.roles.Some? && exists j :: 0 <= j < |e.roles.value| && e.roles.value[j].roleName == ManagerName
  {
    match e.roles
    case None => false
    case Some(rs) => Any(rs, (role: Role) => role.roleName == ManagerName)
  }

  /** A Manager of `storeId` other than the employee being edited. */
  predicate IsOtherManager(editingId: string, storeId: string, e: ApiEmployee) {
    e.employeeId != editingId && e.storeId == Some(storeId) && HasManagerRole(e)
  }

  /** `checkStoreHasManager`. */
  function StoreHasManager(employees: seq<ApiEmployee>, editingId: string, storeId: string): (r: bool)
    ensures r <==> exists i :: 0 <= i < |employees|
                     && employees[i].employeeId != editingId
                     && employees[i].storeId == Some(storeId)
                     && HasManagerRole(employees[i])
  {
    Any(employees, e => IsOtherManager(editingId, storeId, e))
  }

  /** `canSelectManagerRole`: always before a store is chosen, otherwise only when the store has no other Manager. */
  function CanSelectManagerRole(employees: seq<ApiEmployee>, editingId: string, storeId: string): (r: bool)
    ensures storeId == "" ==> r
    ensures storeId != "" ==> (r <==> forall i :: 0 <= i < |employees| ==> !IsOtherManager(editingId, storeId, employees[i]))
  {
    if storeId == "" then true else !StoreHasManager(employees, editingId, storeId)
  }

  /** The employee being edited never blocks their own Manager role. */
  lemma OwnManagerRoleDoesNotBlock(employees: seq<ApiEmployee>, editingId: string, storeId: string)
    requires forall i :: 0 <= i < |employees| && employees[i].employeeId != editingId ==> !HasManagerRole(employees[i])
    ensures CanSelectManagerRole(employees, editingId, storeId)
  {
  }

  /**
   * The guard in `handleRoleChange`: the role found for `roleId` is named
   * Manager, a store is chosen, and that store already has another Manager.
   */
  predicate RoleChangeBlocked(available: seq<Role>, employees: seq<ApiEmployee>, editingId: string, storeId: string, roleId: string) {
    var selected := Find(available, (r: Role) => r.roleId == roleId);
    selected.Some? && selected.value.roleName == ManagerName && storeId != "" && StoreHasManager(employees, editingId, storeId)
  }

  /**
   * For a role offered as Manager, the handler refuses it exactly when the page
   * renders that role's checkbox disabled.
   */
  lemma BlockedIffCheckboxDisabled(available: seq<Role>, employees: seq<ApiEmployee>, editingId: string, storeId: string, i: nat)
    requires i < |available| && available[i].roleName == ManagerName
    requires forall j :: 0 <= j < i ==> available[j].roleId != available[i].roleId
    ensures RoleChangeBlocked(available, employees, editingId, storeId, available[i].roleId)
        <==> !CanSelectManagerRole(employees, editingId, storeId)
  {
    var found := Find(available, (r: Role) => r.roleId == available[i].roleId);
    assert found == Some(available[i]);
  }

  /** `firstName || ''` for a loaded field: a present value is kept, a missing one becomes empty. */
  function LoadedText(s: Option<string>): (r: string)
    ensures s.None? ==> r == ""
    ensures s.Some? ==> r == s.value
  {
    OrElse(s, "")
  }

  /** The form filled from a loaded employee. */
  function LoadForm(e: ApiEmployee): (f: FormData)
    ensures f.firstName == LoadedText(e.firstName) && f.lastName == LoadedText(e.lastName)
    ensures f.email == LoadedText(e.email) && f.phoneNumber == LoadedText(e.phoneNumber)
    ensures f.address == LoadedText(e.address) && f.storeId == LoadedText(e.storeId)
    ensures e.account.None? ==> f.accountData == AccountData("", "", true)
    ensures e.account.Some? ==> f.accountData.username == LoadedText(e.account.value.username)
    ensures e.account.Some? ==> f.accountData.roleId == LoadedText(e.account.value.roleId)
    ensures e.account.Some? ==> f.accountData.isActive == e.account.value.isActive.GetOr(true)
    ensures e.roles.None? ==> f.roleIds == []
    ensures e.roles.Some? ==> |f.roleIds| == |e.roles.value| && forall i :: 0 <= i < |f.roleIds| ==> f.roleIds[i] == e.roles.value[i].roleId
  {
    var account := match e.account
      case Some(a) => AccountData(OrElse(a.username, ""), OrElse(a.roleId, ""), a.isActive.GetOr(true))
      case None => AccountData("", "", true);
    var roleIds := match e.roles
      case Some(rs) => MapSeq(rs, (r: Role) => r.roleId)
      case None => [];
    FormData(
      OrElse(e.firstName, ""), OrElse(e.lastName, ""), OrElse(e.email, ""),
      OrElse(e.phoneNumber, ""), OrElse(e.address, ""), OrElse(e.storeId, ""),
      account, roleIds)
  }

  /** `isActive` falls back to true only when absent: an explicit false survives loading. */
  lemma LoadKeepsExplicitInactive(e: ApiEmployee)
    requires e.account.Some? && e.account.value.isActive == Some(false)
    ensures !LoadForm(e).accountData.isActive
  {
  }

  /** The text inputs of the form, by their `name` attribute. */
  datatype TextField = FirstName | LastName | Email | PhoneNumber | Address | StoreId | AccountUsername

  /** One change event: a text input or select, or the `account.isActive` checkbox. */
  datatype InputEvent = TextInput(field: TextField, value: string) | ActiveToggle(checked: bool)

  function FieldName(f: TextField): string {
    match f
    case FirstName => "firstName"
    case LastName => "lastName"
    case Email => "email"
    case PhoneNumber => "phoneNumber"
    case Address => "address"
    case StoreId => "storeID"
    case AccountUsername => "account.username"
  }

  /** The `name` of the input that fired the event. */
  function EventName(ev: InputEvent): string {
    match ev
    case TextInput(f, _) => FieldName(f)
    case ActiveToggle(_) => "account.isActive"
  }

  /** Exactly the account inputs carry the `account.` prefix, so exactly they update `accountData`. */
  lemma AccountPrefixIffNested(ev: InputEvent)
    ensures StartsWith(EventName(ev), "account.") <==> ev.ActiveToggle? || ev.field == AccountUsername
  {
    var n := EventName(ev);
    if ev.ActiveToggle? || ev.field == AccountUsername {
      assert n[..8] == "account.";
    } else if ev.field == Address {
      assert n[1] == 'd';
    } else if |n| > 0 {
      assert n[0] != 'a';
    }
  }

  /** The value a text input shows. */
  function TextValue(form: FormData, f: TextField): string {
    match f
    case FirstName => form.firstName
    case LastName => form.lastName
    case Email => form.email
    case PhoneNumber => form.phoneNumber
    case Address => form.address
    case StoreId => form.storeId
    case AccountUsername => form.accountData.username
  }

  /** The form update of `handleInputChange`. */
  function ApplyInput(form: FormData, ev: InputEvent): (r: FormData)
    ensures ev.TextInput? ==> TextValue(r, ev.field) == ev.value
    ensures ev.TextInput? ==> forall g :: g != ev.field ==> TextValue(r, g) == TextValue(form, g)
    ensures ev.ActiveToggle? ==> forall g :: TextValue(r, g) == TextValue(form, g)
    ensures r.accountData.isActive == if ev.ActiveToggle? then ev.checked else form.accountData.isActive
    ensures r.accountData.roleId == form.accountData.roleId
    ensures r.roleIds == if ev.TextInput? && ev.field == StoreId then [] else form.roleIds
  {
    match ev
    case ActiveToggle(c) => form.(accountData := form.accountData.(isActive := c))
    case TextInput(f, v) =>
      match f
      case FirstName => form.(firstName := v)
      case LastName => form.(lastName := v)
      case Email => form.(email := v)
      case PhoneNumber => form.(phoneNumber := v)
      case Address => form.(address := v)
      case StoreId => form.(storeId := v, roleIds := [])
      case AccountUsername => form.(accountData := form.accountData.(username := v))
  }

  /** The entries of the error record, one per validated field. */
  datatype ErrorKey = FirstNameKey | LastNameKey | EmailKey | PhoneNumberKey | AddressKey | StoreIdKey | RoleIdsKey

  /** The property name of each entry in the error object. */
  function ErrorKeyName(k: ErrorKey): string {
    match k
    case FirstNameKey => "firstName"
    case LastNameKey => "lastName"
    case EmailKey => "email"
    case PhoneNumberKey => "phoneNumber"
    case AddressKey => "address"
    case StoreIdKey => "storeID"
    case RoleIdsKey => "roleIds"
  }

  /** The error entry named like the input that fired `ev`, if there is one. */
  function ErrorKeyOf(ev: InputEvent): (k: Option<ErrorKey>)
    ensures k.Some? ==> ErrorKeyName(k.value) == EventName(ev)
    ensures k.None? ==> forall key :: ErrorKeyName(key) != EventName(ev)
  {
    match ev
    case ActiveToggle(_) => None
    case TextInput(f, _) =>
      match f
      case FirstName => Some(FirstNameKey)
      case LastName => Some(LastNameKey)
      case Email => Some(EmailKey)
      case PhoneNumber => Some(PhoneNumberKey)
      case Address => Some(AddressKey)
      case StoreId => Some(StoreIdKey)
      case AccountUsername => None
  }

  /**
   * The page's error object: an optional message per validated field. A
   * missing property and one cleared to null are both `None`.
   */
  datatype ErrorRecord = ErrorRecord(
    firstName: Option<string>,
    lastName: Option<string>,
    email: Option<string>,
    phoneNumber: Option<string>,
    address: Option<string>,
    storeId: Option<string>,
    roleIds: Option<string>)

  /** The empty error object `{}`. */
  const NoErrors := ErrorRecord(None, None, None, None, None, None, None)

  /** `errors[key]`. */
  function Entry(errors: ErrorRecord, key: ErrorKey): Option<string> {
    match key
    case FirstNameKey => errors.firstName
    case LastNameKey => errors.lastName
    case EmailKey => errors.email
    case PhoneNumberKey => errors.phoneNumber
    case AddressKey => errors.address
    case StoreIdKey => errors.storeId
    case RoleIdsKey => errors.roleIds
  }

  /** `{...errors, [key]: value}`: the one entry replaced, the others kept. */
  function WithEntry(errors: ErrorRecord, key: ErrorKey, value: Option<string>): (r: ErrorRecord)
    ensures Entry(r, key) == value
    ensures forall k :: k != key ==> Entry(r, k) == Entry(errors, k)
  {
    match key
    case FirstNameKey => errors.(firstName := value)
    case LastNameKey => errors.(lastName := value)
    case EmailKey => errors.(email := value)
    case PhoneNumberKey => errors.(phoneNumber := value)
    case AddressKey => errors.(address := value)
    case StoreIdKey => errors.(storeId := value)
    case RoleIdsKey => errors.(roleIds := value)
  }

  /** An error is shown for `key`: it is set to a non-empty message. */
  predicate ErrorShown(errors: ErrorRecord, key: ErrorKey) {
    Truthy(Entry(errors, key))
  }

  const FirstNameRequired := "Tên là bắt buộc"
  const LastNameRequired := "Họ là bắt buộc"
  const EmailRequired := "Email là bắt buộc"
  const EmailInvalid := "Email không hợp lệ"
  const PhoneRequired := "Số điện thoại là bắt buộc"
  const PhoneInvalid := "Số điện thoại không hợp lệ"
  const AddressRequired := "Địa chỉ là bắt buộc"
  const StoreRequired := "Cửa hàng là bắt buộc"
  const RoleRequired := "Vai trò là bắt buộc"

  /** Characters allowed in each part of an email address: `[^\s@]`. */
  predicate EmailPart(s: string) {
    forall k :: 0 <= k < |s| ==> !IsSpace(s[k]) && s[k] != '@'
  }

  /** The pattern `^[^\s@]+@[^\s@]+\.[^\s@]+$`: local part, `@`, name, `.`, suffix. */
  predicate EmailPattern(s: string) {
    exists i, j | 0 < i < |s| && i < j < |s| ::
      && i + 1 < j && j + 1 < |s|
      && s[i] == '@' && s[j] == '.'
      && EmailPart(s[..i]) && EmailPart(s[i + 1..j]) && EmailPart(s[j + 1..])
  }

  /**
   * The accepted email shape in plain terms: no white space, exactly one `@`
   * with something before it, and a `.` after the `@` that is neither the
   * first nor the last character of the domain.
   */
  predicate EmailShape(s: string) {
    && (forall k :: 0 <= k < |s| ==> !IsSpace(s[k]))
    && exists i :: 0 < i < |s| && s[i] == '@'
         && (forall k :: 0 <= k < |s| && k != i ==> s[k] != '@')
         && (exists j :: i + 1 < j < |s| - 1 && s[j] == '.')
  }

  /** A slice is an email part exactly when none of its characters is white space or `@`. */
  lemma EmailPartSlice(s: string, a: nat, b: nat)
    requires a <= b <= |s|
    ensures EmailPart(s[a..b]) <==> forall k :: a <= k < b ==> !IsSpace(s[k]) && s[k] != '@'
  {
    forall k | a <= k < b
      ensures s[a..b][k - a] == s[k]
    {
    }
  }

  /** A match of the pattern has the accepted shape. */
  lemma PatternIsShape(s: string)
    requires EmailPattern(s)
    ensures EmailShape(s)
  {
    var i, j :| 0 < i < |s| && i < j < |s| && i + 1 < j && j + 1 < |s| && s[i] == '@' && s[j] == '.'
                && EmailPart(s[..i]) && EmailPart(s[i + 1..j]) && EmailPart(s[j + 1..]);
    assert s[..i] == s[0..i] && s[j + 1..] == s[j + 1..|s|];
    EmailPartSlice(s, 0, i);
    EmailPartSlice(s, i + 1, j);
    EmailPartSlice(s, j + 1, |s|);
    forall k | 0 <= k < |s| && k != i
      ensures !IsSpace(s[k]) && s[k] != '@'
    {
      if k < i {
      } else if k < j {
      } else if j < k {
      }
    }
  }

  /** A string of the accepted shape matches the pattern. */
  lemma ShapeIsPattern(s: string)
    requires EmailShape(s)
    ensures EmailPattern(s)
  {
    var i :| 0 < i < |s| && s[i] == '@'
             && (forall k :: 0 <= k < |s| && k != i ==> s[k] != '@')
             && (exists j :: i + 1 < j < |s| - 1 && s[j] == '.');
    var j :| i + 1 < j < |s| - 1 && s[j] == '.';
    assert s[..i] == s[0..i] && s[j + 1..] == s[j + 1..|s|];
    EmailPartSlice(s, 0, i);
    EmailPartSlice(s, i + 1, j);
    EmailPartSlice(s, j + 1, |s|);
    assert EmailPart(s[..i]) && EmailPart(s[i + 1..j]) && EmailPart(s[j + 1..]);
  }

  /** The pattern accepts exactly the strings of the accepted shape. */
  lemma EmailPatternIsShape(s: string)
    ensures EmailPattern(s) <==> EmailShape(s)
  {
    if EmailPattern(s) {
      PatternIsShape(s);
    }
    if EmailShape(s) {
      ShapeIsPattern(s);
    }
  }

  /** The pattern `^[0-9]{10,11}$`. */
  predicate PhonePattern(s: string) {
    (|s| == 10 || |s| == 11) && forall k :: 0 <= k < |s| ==> '0' <= s[k] <= '9'
  }

  /** `!s.trim()`: the field is empty or white space only. */
  predicate Blank(s: string) {
    Trim(s) == ""
  }

  /** The outcome of each test `validateForm` makes. */
  datatype Checks = Checks(
    firstNameBlank: bool,
    lastNameBlank: bool,
    emailBlank: bool,
    emailMatches: bool,
    phoneBlank: bool,
    phoneMatches: bool,
    addressBlank: bool,
    storeMissing: bool,
    rolesMissing: bool)

  /** The tests of `validateForm` applied to a form. */
  function RunChecks(f: FormData): Checks {
    Checks(
      Blank(f.firstName), Blank(f.lastName),
      Blank(f.email), EmailPattern(f.email),
      Blank(f.phoneNumber), PhonePattern(f.phoneNumber),
      Blank(f.address), f.storeId == "", |f.roleIds| == 0)
  }

  /**
   * The error object for the given test outcomes, as `validateForm` fills it:
   * the message of every failing test under its field, nothing else.
   */
  function ErrorsOf(c: Checks): ErrorRecord {
    ErrorRecord(
      if c.firstNameBlank then Some(FirstNameRequired) else None,
      if c.lastNameBlank then Some(LastNameRequired) else None,
      if c.emailBlank then Some(EmailRequired) else if !c.emailMatches then Some(EmailInvalid) else None,
      if c.phoneBlank then Some(PhoneRequired) else if !c.phoneMatches then Some(PhoneInvalid) else None,
      if c.addressBlank then Some(AddressRequired) else None,
      if c.storeMissing then Some(StoreRequired) else None,
      if c.rolesMissing then Some(RoleRequired) else None)
  }

  /** The error object `validateForm` builds for a form. */
  function FormErrors(f: FormData): ErrorRecord {
    ErrorsOf(RunChecks(f))
  }

  /** The message `validateForm` records under `key` for a form, if any. */
  function FieldError(f: FormData, key: ErrorKey): Option<string> {
    Entry(FormErrors(f), key)
  }

  /** Every test passes. */
  predicate Passes(c: Checks) {
    && !c.firstNameBlank && !c.lastNameBlank
    && !c.emailBlank && c.emailMatches
    && !c.phoneBlank && c.phoneMatches
    && !c.addressBlank && !c.storeMissing && !c.rolesMissing
  }

  /** The error object is empty exactly when every test passes. */
  lemma NoErrorsIffPasses(c: Checks)
    ensures ErrorsOf(c) == NoErrors <==> Passes(c)
  {
  }

  /** What a valid form satisfies, field by field. */
  predicate Requirements(f: FormData) {
    && !IsBlank(f.firstName)
    && !IsBlank(f.lastName)
    && EmailShape(f.email)
    && PhonePattern(f.phoneNumber)
    && !IsBlank(f.address)
    && f.storeId != ""
    && f.roleIds != []
  }

  /** A non-blank email passes the pattern exactly when it has the accepted shape (which is never blank). */
  lemma EmailAcceptedIffShape(s: string)
    ensures !Blank(s) && EmailPattern(s) <==> EmailShape(s)
  {
    EmailPatternIsShape(s);
    if EmailShape(s) {
      assert !IsSpace(s[0]);
    }
  }

  /** A phone number matching the pattern is never blank. */
  lemma PhonePatternNotBlank(s: string)
    requires PhonePattern(s)
    ensures !Blank(s)
  {
    assert !IsSpace(s[0]);
  }

  /** `!s.trim()` holds exactly for the strings made of white space only. */
  lemma BlankIffIsBlank(s: string)
    ensures Blank(s) <==> IsBlank(s)
  {
  }

  /** The tests all pass exactly when the form meets every requirement. */
  lemma PassesIffRequirements(f: FormData)
    ensures Passes(RunChecks(f)) <==> Requirements(f)
  {
    BlankIffIsBlank(f.firstName);
    BlankIffIsBlank(f.lastName);
    BlankIffIsBlank(f.address);
    EmailAcceptedIffShape(f.email);
    if PhonePattern(f.phoneNumber) {
      PhonePatternNotBlank(f.phoneNumber);
    }
  }

  /** A form has no errors exactly when it meets every requirement. */
  lemma NoErrorsIffRequirements(f: FormData)
    ensures FormErrors(f) == NoErrors <==> Requirements(f)
  {
    NoErrorsIffPasses(RunChecks(f));
    PassesIffRequirements(f);
  }

  /**
   * A non-blank phone number is refused as malformed exactly when the raw,
   * untrimmed input is not 10 or 11 ASCII digits.
   */
  lemma PhoneErrorIff(f: FormData)
    ensures Blank(f.phoneNumber) ==> FieldError(f, PhoneNumberKey) == Some(PhoneRequired)
    ensures !Blank(f.phoneNumber) ==> (FieldError(f, PhoneNumberKey) == Some(PhoneInvalid) <==> !PhonePattern(f.phoneNumber))
    ensures !Blank(f.phoneNumber) ==> (FieldError(f, PhoneNumberKey) == None <==> PhonePattern(f.phoneNumber))
  {
  }

  /** The regular expression sees the untrimmed input: a leading space fails the format check. */
  lemma PaddedPhoneRefused()
    ensures FieldError(InitialForm.(phoneNumber := " 0901234567"), PhoneNumberKey) == Some(PhoneInvalid)
  {
    var s := " 0901234567";
    assert !IsSpace(s[1]);
  }

  /**
   * The body of `validateForm`: one test after the other, each failing test
   * adding its message to a fresh record. The outcomes of the tests are the
   * parameter, so that the record is built from them alone.
   */
  method RecordErrors(c: Checks) returns (newErrors: ErrorRecord)
    ensures newErrors == ErrorsOf(c)
  {
    newErrors := NoErrors;
    if c.firstNameBlank {
      newErrors := newErrors.(firstName := Some(FirstNameRequired));
    }
    if c.lastNameBlank {
      newErrors := newErrors.(lastName := Some(LastNameRequired));
    }
    if c.emailBlank {
      newErrors := newErrors.(email := Some(EmailRequired));
    } else if !c.emailMatches {
      newErrors := newErrors.(email := Some(EmailInvalid));
    }
    if c.phoneBlank {
      newErrors := newErrors.(phoneNumber := Some(PhoneRequired));
    } else if !c.phoneMatches {
      newErrors := newErrors.(phoneNumber := Some(PhoneInvalid));
    }
    if c.addressBlank {
      newErrors := newErrors.(address := Some(AddressRequired));
    }
    if c.storeMissing {
      newErrors := newErrors.(storeId := Some(StoreRequired));
    }
    if c.rolesMissing {
      newErrors := newErrors.(roleIds := Some(RoleRequired));
    }
  }

  /** The state of the edit page for the employee `editingId`. */
  class EmployeeEditPage {
    const editingId: string
    const apiRoles: seq<Role>
    const currentEmployees: seq<ApiEmployee>
    var form: FormData
    var errors: ErrorRecord

    constructor(editingId: string, apiRoles: seq<Role>, currentEmployees: seq<ApiEmployee>)
      ensures this.editingId == editingId && this.apiRoles == apiRoles && this.currentEmployees == currentEmployees
      ensures form == InitialForm && errors == NoErrors
    {
      this.editingId := editingId;
      this.apiRoles := apiRoles;
      this.currentEmployees := currentEmployees;
      form := InitialForm;
      errors := NoErrors;
    }

    /** The load effect: the form is replaced once the employee has arrived. */
    method LoadEmployee(employee: Option<ApiEmployee>)
      modifies this
      ensures form == if employee.Some? then LoadForm(employee.value) else old(form)
      ensures errors == old(errors)
    {
      if employee.Some? {
        form := LoadForm(employee.value);
      }
    }

    /** `handleInputChange`: update the field, and clear its error if one is shown. */
    method HandleInputChange(ev: InputEvent)
      modifies this
      ensures form == ApplyInput(old(form), ev)
      ensures ErrorKeyOf(ev).Some? && ErrorShown(old(errors), ErrorKeyOf(ev).value) ==> errors == WithEntry(old(errors), ErrorKeyOf(ev).value, None)
      ensures !(ErrorKeyOf(ev).Some? && ErrorShown(old(errors), ErrorKeyOf(ev).value)) ==> errors == old(errors)
    {
      form := ApplyInput(form, ev);
      var key := ErrorKeyOf(ev);
      if key.Some? && ErrorShown(errors, key.value) {
        errors := WithEntry(errors, key.value, None);
      }
    }

    /** `handleRoleChange`: select the single role `roleId` unless the Manager rule forbids it. */
    method HandleRoleChange(roleId: string) returns (accepted: bool)
      modifies this
      ensures accepted <==> !RoleChangeBlocked(AvailableRoles(apiRoles), currentEmployees, editingId, old(form).storeId, roleId)
      ensures accepted ==> form == old(form).(roleIds := [roleId])
      ensures !accepted ==> form == old(form)
      ensures errors == old(errors)
    {
      var selected := Find(AvailableRoles(apiRoles), (r: Role) => r.roleId == roleId);
      if selected.Some? && selected.value.roleName == ManagerName && form.storeId != "" {
        if StoreHasManager(currentEmployees, editingId, form.storeId) {
          return false;
        }
      }
      form := form.(roleIds := [roleId]);
      accepted := true;
    }

    /** `validateForm`: record one message per failed check and report whether there were none. */
    method ValidateForm() returns (valid: bool)
      modifies this
      ensures errors == FormErrors(form)
      ensures valid <==> Requirements(form)
      ensures form == old(form)
    {
      var newErrors := RecordErrors(RunChecks(form));
      errors := newErrors;
      valid := newErrors == NoErrors;
      NoErrorsIffRequirements(form);
    }
  }
}
