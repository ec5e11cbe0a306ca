/** The member detail screen: the form's field handlers, the gate that
    refuses to submit a blank or whitespace-only first name, last name or
    email, the write-back of the user's own name and email to local storage,
    the language-name lookup, the role label and the choice of the user id
    the screen is about. Local storage is a map from key to stored string. */
module MemberDetail {
  import opened Common

  datatype Field =
    | FirstName | LastName | Email | AppLanguageCode | Image | Gender | BirthDate
    | Grade | EmpStatus | MaritalStatus | PhoneNumber | Address | State | City | Country

  /** `formState`. */
  datatype MemberForm = MemberForm(firstName: string, lastName: string, email: string,
                                   appLanguageCode: string, image: string, gender: string,
                                   birthDate: string, grade: string, empStatus: string,
                                   maritalStatus: string, phoneNumber: string, address: string,
                                   state: string, city: string, country: string,
                                   pluginCreationAllowed: bool)

  const InitialForm := MemberForm("", "", "", "", "", "", "2024-03-14", "", "", "", "", "", "", "", "", false)

  function Get(m: MemberForm, f: Field): string {
    match f
    case FirstName => m.firstName
    case LastName => m.lastName
    case Email => m.email
    case AppLanguageCode => m.appLanguageCode
    case Image => m.image
    case Gender => m.gender
    case BirthDate => m.birthDate
    case Grade => m.grade
    case EmpStatus => m.empStatus
    case MaritalStatus => m.maritalStatus
    case PhoneNumber => m.phoneNumber
    case Address => m.address
    case State => m.state
    case City => m.city
    case Country => m.country
  }

  /** `{...prevState, [name]: value}` for a text field: only that field
      changes, the switch included. */
  function With(m: MemberForm, f: Field, v: string): (r: MemberForm)
    ensures Get(r, f) == v
    ensures forall g :: g != f ==> Get(r, g) == Get(m, g)
    ensures r.pluginCreationAllowed == m.pluginCreationAllowed
  {
    match f
    case FirstName => m.(firstName := v)
    case LastName => m.(lastName := v)
    case Email => m.(email := v)
    case AppLanguageCode => m.(appLanguageCode := v)
    case Image => m.(image := v)
    case Gender => m.(gender := v)
    case BirthDate => m.(birthDate := v)
    case Grade => m.(grade := v)
    case EmpStatus => m.(empStatus := v)
    case MaritalStatus => m.(maritalStatus := v)
    case PhoneNumber => m.(phoneNumber := v)
    case Address => m.(address := v)
    case State => m.(state := v)
    case City => m.(city := v)
    case Country => m.(country := v)
  }

  /** Characters `String.prototype.trim` removes: the ECMAScript white space
      and line terminators. */
  predicate IsJsWhitespace(c: char) {
    var n := c as int;
    (0x09 <= n <= 0x0D) || n == 0x20 || n == 0xA0 || n == 0x1680
    || (0x2000 <= n <= 0x200A) || n == 0x2028 || n == 0x2029 || n == 0x202F
    || n == 0x205F || n == 0x3000 || n == 0xFEFF
  }

  function TrimStart(s: string): string {
    if |s| > 0 && IsJsWhitespace(s[0]) then TrimStart(s[1..]) else s
  }

  function TrimEnd(s: string): string {
    if |s| > 0 && IsJsWhitespace(s[|s| - 1]) then TrimEnd(s[..|s| - 1]) else s
  }

  /** `s.trim()`. */
  function Trim(s: string): string {
    TrimEnd(TrimStart(s))
  }

  lemma {:induction false} TrimStartEmpty(s: string)
    ensures TrimStart(s) == "" <==> forall i :: 0 <= i < |s| ==> IsJsWhitespace(s[i])
  {
    if |s| > 0 && IsJsWhitespace(s[0]) {
      TrimStartEmpty(s[1..]);
      assert forall i :: 1 <= i < |s| ==> s[i] == s[1..][i - 1];
    }
  }

  lemma {:induction false} TrimEndKeepsNonEmpty(s: string)
    requires |s| > 0 && !IsJsWhitespace(s[0])
    ensures TrimEnd(s) != ""
  {
    if IsJsWhitespace(s[|s| - 1]) {
      TrimEndKeepsNonEmpty(s[..|s| - 1]);
    }
  }

  /** `s.trim().length == 0 || !s`: the text is empty or only white space. */
  predicate IsBlank(s: string) {
    |Trim(s)| == 0 || s == ""
  }

  lemma BlankIffAllWhitespace(s: string)
    ensures IsBlank(s) <==> forall i :: 0 <= i < |s| ==> IsJsWhitespace(s[i])
  {
    TrimStartEmpty(s);
    var t := TrimStart(s);
    if t != "" {
      assert !IsJsWhitespace(t[0]) by {
        TrimStartStopsAtText(s);
      }
      TrimEndKeepsNonEmpty(t);
    }
  }

  lemma {:induction false} TrimStartStopsAtText(s: string)
    requires TrimStart(s) != ""
    ensures !IsJsWhitespace(TrimStart(s)[0])
  {
    if |s| > 0 && IsJsWhitespace(s[0]) {
      TrimStartStopsAtText(s[1..]);
    }
  }

  datatype Warning = FirstNameBlank | LastNameBlank | EmailBlank {
    /** The order in which the checks run. */
    function Order(): nat {
      match this
      case FirstNameBlank => 0
      case LastNameBlank => 1
      case EmailBlank => 2
    }
  }

  /** The variables of the update-user mutation: the target id and the
      whole form. */
  datatype UpdateRequest = UpdateRequest(id: Option<string>, form: MemberForm)

  /** The name and email written to local storage after an update of the
      user's own record. */
  function StoreOwnName(storage: map<string, string>, m: MemberForm): (r: map<string, string>)
    ensures r.Keys == storage.Keys + {"FirstName", "LastName", "Email"}
    ensures r["FirstName"] == m.firstName && r["LastName"] == m.lastName && r["Email"] == m.email
    ensures forall k :: k in storage && k !in {"FirstName", "LastName", "Email"} ==> r[k] == storage[k]
  {
    storage["FirstName" := m.firstName]["LastName" := m.lastName]["Email" := m.email]
  }

  /** `loginLink`: each blank field among first name, last name and email
      adds its own warning, in that order, and clears the submit flag. Only
      with no warning is the mutation sent. When it returns data and the
      stored id is the edited user's id, the name and email are stored. */
  method LoginLink(m: MemberForm, currentUrl: Option<string>, storage: map<string, string>, result: Outcome)
    returns (warnings: seq<Warning>, request: Option<UpdateRequest>, stored: map<string, string>)
    ensures FirstNameBlank in warnings <==> IsBlank(m.firstName)
    ensures LastNameBlank in warnings <==> IsBlank(m.lastName)
    ensures EmailBlank in warnings <==> IsBlank(m.email)
    ensures forall i, j :: 0 <= i < j < |warnings| ==> warnings[i].Order() < warnings[j].Order()
    ensures request.Some? <==> !IsBlank(m.firstName) && !IsBlank(m.lastName) && !IsBlank(m.email)
    ensures request.Some? ==> request.value == UpdateRequest(currentUrl, m)
    ensures stored == if request.Some? && result.Succeeded() && Lookup(storage, "id").Some?
                         && Lookup(storage, "id") == currentUrl
                      then StoreOwnName(storage, m) else storage
  {
    var toSubmit := true;
    warnings := [];
    if IsBlank(m.firstName) {
      warnings := warnings + [FirstNameBlank];
      toSubmit := false;
    }
    if IsBlank(m.lastName) {
      warnings := warnings + [LastNameBlank];
      toSubmit := false;
    }
    if IsBlank(m.email) {
      warnings := warnings + [EmailBlank];
      toSubmit := false;
    }
    stored := storage;
    if !toSubmit {
      request := None;
      return;
    }
    request := Some(UpdateRequest(currentUrl, m));
    if result.Succeeded() {
      var ownId := Lookup(storage, "id");
      if ownId.Some? && ownId == currentUrl {
        stored := StoreOwnName(storage, m);
      }
    }
  }

  /** An entry of the language list. */
  datatype Language = Language(code: string, name: string)

  /** The name of the last entry whose code matches, "Unavailable" when none
      does. */
  function LanguageName(languages: seq<Language>, code: string): string {
    if |languages| == 0 then "Unavailable"
    else if languages[|languages| - 1].code == code then languages[|languages| - 1].name
    else LanguageName(languages[..|languages| - 1], code)
  }

  lemma {:induction false} LanguageNameIsLastMatch(languages: seq<Language>, code: string)
    ensures (forall k :: 0 <= k < |languages| ==> languages[k].code != code) ==>
              LanguageName(languages, code) == "Unavailable"
    ensures (exists k :: 0 <= k < |languages| && languages[k].code == code) ==>
              exists j :: 0 <= j < |languages| && languages[j].code == code
                          && LanguageName(languages, code) == languages[j].name
                          && forall k :: j < k < |languages| ==> languages[k].code != code
  {
    if |languages| > 0 {
      var n := |languages| - 1;
      var init := languages[..n];
      LanguageNameIsLastMatch(init, code);
      assert forall k :: 0 <= k < n ==> init[k] == languages[k];
      if languages[n].code != code && exists k :: 0 <= k < |languages| && languages[k].code == code {
        var k :| 0 <= k < |languages| && languages[k].code == code;
        assert init[k].code == code;
        var j :| 0 <= j < |init| && init[j].code == code
                 && LanguageName(init, code) == init[j].name
                 && forall k :: j < k < |init| ==> init[k].code != code;
        assert languages[j] == init[j];
      }
    }
  }

  /** `getLanguageName`: scans the whole list and keeps overwriting the
      result with the name of each matching entry. */
  method GetLanguageName(languages: seq<Language>, code: string) returns (language: string)
    ensures language == LanguageName(languages, code)
  {
    language := "Unavailable";
    var i := 0;
    while i < |languages|
      invariant 0 <= i <= |languages|
      invariant language == LanguageName(languages[..i], code)
    {
      assert languages[..i + 1][..i] == languages[..i];
      if languages[i].code == code {
        language := languages[i].name;
      }
      i := i + 1;
    }
    assert languages[..i] == languages;
  }

  /** The part of the user's application profile the role label reads. */
  datatype AppUserProfile = AppUserProfile(isSuperAdmin: bool, adminFor: seq<string>)

  /** The role label: "Super Admin" for a super admin, else "Admin" when the
      user administers some organisation, else "User" (also when no
      application profile was loaded). */
  function RoleLabel(profile: Option<AppUserProfile>): (r: string)
    ensures r == "Super Admin" <==> profile.Some? && profile.value.isSuperAdmin
    ensures r == "Admin" <==> profile.Some? && !profile.value.isSuperAdmin && |profile.value.adminFor| > 0
    ensures r == "User" <==> profile.None? || (!profile.value.isSuperAdmin && |profile.value.adminFor| == 0)
  {
    if profile.Some? && profile.value.isSuperAdmin then "Super Admin"
    else if profile.Some? && |profile.value.adminFor| > 0 then "Admin"
    else "User"
  }

  /** `currentUrl`: the first truthy of the id in the route state, the stored
      id and the `id` prop; the prop as it is when none is truthy. */
  function TargetId(routeId: Option<string>, storedId: Option<string>, propId: Option<string>): (r: Option<string>)
    ensures r == routeId || r == storedId || r == propId
    ensures Truthy(r) <==> Truthy(routeId) || Truthy(storedId) || Truthy(propId)
    ensures Truthy(routeId) ==> r == routeId
    ensures !Truthy(routeId) && Truthy(storedId) ==> r == storedId
    ensures !Truthy(routeId) && !Truthy(storedId) ==> r == propId
  {
    OrElse(OrElse(routeId, storedId), propId)
  }

  class Detail {
    var form: MemberForm

    constructor ()
      ensures form == InitialForm
    {
      form := InitialForm;
    }

    /** `handleChange` for the input named `f`. */
    method HandleChange(f: Field, v: string)
      modifies this
      ensures form == With(old(form), f, v)
    {
      form := With(form, f, v);
    }

    /** `handleToggleChange`: the only checkbox is the plugin-creation switch. */
    method HandleToggleChange(checked: bool)
      modifies this
      ensures form == old(form).(pluginCreationAllowed := checked)
    {
      form := form.(pluginCreationAllowed := checked);
    }

    /** `handleDateChange` with the picked date already formatted as
        YYYY-MM-DD; a cleared picker (no date) is ignored. */
    method HandleDateChange(date: Option<string>)
      modifies this
      ensures form == if date.Some? then With(old(form), BirthDate, date.value) else old(form)
    {
      if date.Some? {
        form := With(form, BirthDate, date.value);
      }
    }
  }
}
