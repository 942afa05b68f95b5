/** main.go: the rules the web handlers apply around the HTML they write —
    timestamps and "created by" display, the e-mail pattern, the default
    password of a new contact, the in-place update of a contact, the session
    cookies, the authentication middleware, the license status page and the
    password change form. Requests, responses and the database are inputs and
    outputs of these functions; nothing here renders HTML. */
module App {
  import opened Base
  import opened Contacts
  import Database
  import LicenseGen

  // ---------------------------------------------------------------------------
  // Display helpers

  /** formatTimestamp: a database timestamp of 19 characters or more
      ("YYYY-MM-DD HH:MM:SS") is cut to "YYYY-MM-DD HH:MM"; anything shorter,
      the empty string included, is shown as it is. */
  function FormatTimestamp(timestamp: string): (shown: string)
    ensures |timestamp| >= 19 ==> shown == timestamp[..16]
    ensures |timestamp| < 19 ==> shown == timestamp
    ensures shown <= timestamp && |shown| <= 18
  {
    if timestamp == "" then ""
    else if |timestamp| > 16 then
      (if |timestamp| >= 19 then timestamp[..16] else timestamp)
    else timestamp
  }

  /** Formatting a shown timestamp again changes nothing. */
  lemma FormatTimestampIdempotent(timestamp: string)
    ensures FormatTimestamp(FormatTimestamp(timestamp)) == FormatTimestamp(timestamp)
  {
  }

  /** getCreatedByDisplay: a nil or empty creator is shown as "System". */
  function GetCreatedByDisplay(createdBy: Option<string>): (shown: string)
    ensures shown != ""
    ensures createdBy.Some? && createdBy.value != "" ==> shown == createdBy.value
    ensures shown == "System" <==> createdBy.None? || createdBy.value in {"", "System"}
  {
    if createdBy.None? || createdBy.value == "" then "System" else createdBy.value
  }

  // ---------------------------------------------------------------------------
  // emailRegex = ^[^@\s]+@[^@\s]+\.[^@\s]+$

  /** Go's \s in a regular expression: tab, newline, form feed, carriage
      return and space. */
  predicate IsRegexSpace(c: char) {
    c == '\t' || c == '\n' || c == '\U{000C}' || c == '\r' || c == ' '
  }

  /** Every character is matched by the class [^@\s]. */
  predicate Plain(s: string) {
    forall k :: 0 <= k < |s| ==> s[k] != '@' && !IsRegexSpace(s[k])
  }

  /** The pattern read as a split of the address: `s[..at]` is the first
      run, `s[at]` the '@', `s[at + 1..dot]` the second run, `s[dot]` the
      literal '.', `s[dot + 1..]` the last run; every run is non-empty. */
  ghost predicate EmailSplit(s: string, at: int, dot: int) {
    0 < at && at + 2 <= dot && dot + 2 <= |s| && s[at] == '@' && s[dot] == '.' &&
    Plain(s[..at]) && Plain(s[at + 1..dot]) && Plain(s[dot + 1..])
  }

  ghost predicate MatchesEmailRegex(s: string) {
    exists at, dot :: EmailSplit(s, at, dot)
  }

  /** The position of the first `c` in `s`, or |s| when there is none. */
  function FirstIndex(s: string, c: char): (i: nat)
    ensures i <= |s|
    ensures i < |s| ==> s[i] == c
    ensures forall k :: 0 <= k < i ==> s[k] != c
  {
    if s == [] then 0
    else if s[0] == c then 0
    else 1 + FirstIndex(s[1..], c)
  }

  /** The direct decision, given the position `at` of the first '@': the
      text before it is a non-empty run, the rest is a run, and that rest has
      a '.' that is neither its first nor its last character. */
  predicate DecidedAt(s: string, at: nat) {
    0 < at && at + 4 <= |s| && Plain(s[..at]) && Plain(s[at + 1..]) && '.' in s[at + 2..|s| - 1]
  }

  /** emailRegex.MatchString, decided directly at the first '@'; it accepts
      exactly the strings the regular expression matches. */
  function EmailRegexMatch(s: string): (r: bool)
    ensures r <==> MatchesEmailRegex(s)
  {
    var at := FirstIndex(s, '@');
    FirstAtDecides(s, at);
    DecidedAt(s, at)
  }

  lemma PlainSlice(s: string, i: int, j: int)
    requires Plain(s) && 0 <= i <= j <= |s|
    ensures Plain(s[i..j])
  {
    forall k | 0 <= k < j - i ensures s[i..j][k] != '@' && !IsRegexSpace(s[i..j][k]) {
      assert s[i..j][k] == s[i + k];
    }
  }

  /** Deciding at the first '@' is the regular expression. */
  lemma FirstAtDecides(s: string, at: nat)
    requires at == FirstIndex(s, '@')
    ensures DecidedAt(s, at) <==> MatchesEmailRegex(s)
  {
    if DecidedAt(s, at) {
      var tail := s[at + 2..|s| - 1];
      var k :| 0 <= k < |tail| && tail[k] == '.';
      var dot := at + 2 + k;
      assert s[dot] == '.';
      var rest := s[at + 1..];
      PlainSlice(rest, 0, dot - at - 1);
      assert rest[0..dot - at - 1] == s[at + 1..dot];
      PlainSlice(rest, dot - at, |rest|);
      assert rest[dot - at..|rest|] == s[dot + 1..];
      assert EmailSplit(s, at, dot);
    }
    if MatchesEmailRegex(s) {
      var a, d :| EmailSplit(s, a, d);
      assert at == a;
      var rest := s[at + 1..];
      forall k | 0 <= k < |rest| ensures rest[k] != '@' && !IsRegexSpace(rest[k]) {
        if at + 1 + k < d {
          assert rest[k] == s[at + 1..d][k];
        } else if at + 1 + k > d {
          assert rest[k] == s[d + 1..][k - (d - at)];
        }
      }
      assert s[at + 2..|s| - 1][d - at - 2] == '.';
    }
  }

  /** Every address the handlers accept passes contact.go's isValidEmail. */
  lemma RegexImpliesIsValidEmail(s: string)
    ensures EmailRegexMatch(s) ==> IsValidEmail(s)
  {
    if EmailRegexMatch(s) {
      var at := FirstIndex(s, '@');
      var k :| 0 <= k < |s[at + 2..|s| - 1]| && s[at + 2..|s| - 1][k] == '.';
      assert s[at + 2 + k] == '.';
    }
  }

  /** The converse fails: isValidEmail accepts an address whose only '.'
      precedes the '@'. */
  lemma IsValidEmailIsLooser()
    ensures IsValidEmail("a.b@c") && !EmailRegexMatch("a.b@c")
  {
    assert "a.b@c"[3] == '@' && "a.b@c"[1] == '.';
    assert FirstIndex("a.b@c", '@') == 3 by {
      assert "a.b@c"[1..] == ".b@c";
      assert ".b@c"[1..] == "b@c";
      assert "b@c"[1..] == "@c";
    }
  }

  // ---------------------------------------------------------------------------
  // addContact: the default password

  function Min(a: int, b: int): int {
    if a <= b then a else b
  }

  /** The default password: the last three characters of the phone (all of
      it when shorter) followed by the first letter of the first name in
      upper case, when there is one. */
  function DefaultPassword(phone: string, firstName: string): (pw: string)
    ensures var n := Min(|phone|, 3);
            |pw| == n + (if firstName == "" then 0 else 1) &&
            pw[..n] == phone[|phone| - n..] &&
            (firstName != "" ==> pw[n] == ToUpperAscii(firstName[0]))
  {
    (if |phone| >= 3 then phone[|phone| - 3..] else phone) +
    (if |firstName| > 0 then [ToUpperAscii(firstName[0])] else [])
  }

  /** addContact's password: the form's own when given, else the default. */
  method ResolveNewContactPassword(password: string, phone: string, firstName: string) returns (result: string)
    ensures password != "" ==> result == password
    ensures password == "" ==> result == DefaultPassword(phone, firstName)
  {
    result := password;
    if result == "" {
      var phoneLast3 := "";
      if |phone| >= 3 {
        phoneLast3 := phone[|phone| - 3..];
      } else {
        phoneLast3 := phone;
      }
      var firstNameFirstLetter := "";
      if |firstName| > 0 {
        firstNameFirstLetter := [ToUpperAscii(firstName[0])];
      }
      result := phoneLast3 + firstNameFirstLetter;
    }
  }

  /** addContact rejects an empty phone or first name before this point, so
      a new contact never gets an empty password; the default holds at most
      four characters and ends in an upper-case letter when the name starts
      with a lower-case one. */
  lemma DefaultPasswordShape(phone: string, firstName: string)
    requires phone != "" && firstName != ""
    ensures var pw := DefaultPassword(phone, firstName);
            2 <= |pw| <= 4 &&
            (IsAsciiLower(firstName[0]) ==> 'A' <= pw[|pw| - 1] <= 'Z')
  {
  }

  /** The required fields and the pattern, in the order addContact checks
      them: FirstName, LastName, Email and Phone must be non-empty (the
      contact type may be empty), then the e-mail must match. */
  datatype FormCheck = MissingFields | InvalidEmail | Accepted

  function CheckNewContact(firstName: string, lastName: string, email: string, phone: string): (r: FormCheck)
    ensures r == MissingFields <==> firstName == "" || lastName == "" || email == "" || phone == ""
    ensures r == Accepted <==> firstName != "" && lastName != "" && phone != "" && MatchesEmailRegex(email)
  {
    if firstName == "" || lastName == "" || email == "" || phone == "" then MissingFields
    else if !EmailRegexMatch(email) then InvalidEmail
    else Accepted
  }

  /** addContact's user account: created only when GetUser finds none, with
      the contact's e-mail as user name and a forced password change. */
  function NewContactUser(email: string, password: string, newId: string,
                          existing: Result<Database.User>): (u: Option<Database.User>)
    ensures u.Some? <==> existing.Err?
    ensures u.Some? ==> u.value.username == email && u.value.password == password &&
                        u.value.contactId == Some(newId) && u.value.needPasswordChange
  {
    if existing.Err? then Some(Database.User(email, password, Some(newId), true)) else None
  }

  // ---------------------------------------------------------------------------
  // updateContact

  /** The form values updateContact reads. */
  datatype ContactForm = ContactForm(contactType: string, firstName: string, lastName: string,
                                     email: string, phone: string, password: string, companyId: string)

  /** updateContact's checks on the updated contact: all five fields,
      ContactType included, must be non-empty, then the e-mail must match. */
  function CheckUpdatedContact(contactType: string, firstName: string, lastName: string,
                               email: string, phone: string): (r: FormCheck)
    ensures r == MissingFields <==> contactType == "" || firstName == "" || lastName == "" || email == "" || phone == ""
    ensures r == Accepted <==> contactType != "" && firstName != "" && lastName != "" && phone != "" &&
                               MatchesEmailRegex(email)
  {
    if contactType == "" || firstName == "" || lastName == "" || email == "" || phone == "" then MissingFields
    else if !EmailRegexMatch(email) then InvalidEmail
    else Accepted
  }

  /** updateContact's in-place update of the stored contact: every listed
      field is overwritten, the password only when the form gives one, the
      company becomes nil exactly when the form's is empty; then the checks
      run on the updated object. */
  method UpdateContact(contact: Contact, form: ContactForm) returns (check: FormCheck)
    modifies contact
    ensures contact.id == old(contact.id)
    ensures contact.contactType == form.contactType && contact.firstName == form.firstName
    ensures contact.lastName == form.lastName && contact.email == form.email && contact.phone == form.phone
    ensures contact.password == (if form.password != "" then form.password else old(contact.password))
    ensures contact.companyId.None? <==> form.companyId == ""
    ensures contact.companyId.Some? ==> contact.companyId.value == form.companyId
    ensures check == CheckUpdatedContact(contact.contactType, contact.firstName, contact.lastName,
                                         contact.email, contact.phone)
  {
    contact.contactType := form.contactType;
    contact.firstName := form.firstName;
    contact.lastName := form.lastName;
    contact.email := form.email;
    contact.phone := form.phone;
    var password := form.password;
    var companyId := form.companyId;

    if password != "" {
      contact.password := password;
    }

    if companyId == "" {
      contact.companyId := None;
    } else {
      contact.companyId := Some(companyId);
    }

    check := CheckUpdatedContact(contact.contactType, contact.firstName, contact.lastName,
                                 contact.email, contact.phone);
  }

  /** What updateContact does to the user account once the contact is saved. */
  datatype UserSync = CreateAccount(user: Database.User) | UpdatePassword(username: string, password: string) | KeepAccount

  /** A missing account is created (its NeedPasswordChange is Go's zero
      value, false); an existing one gets the contact's password when it
      differs. */
  function SyncUserAfterUpdate(id: string, email: string, password: string,
                               existing: Result<Database.User>): (sync: UserSync)
    ensures sync.CreateAccount? <==> existing.Err?
    ensures sync.CreateAccount? ==> sync.user == Database.User(email, password, Some(id), false)
    ensures sync.UpdatePassword? <==> existing.Ok? && existing.value.password != password
    ensures sync.UpdatePassword? ==> sync.username == email && sync.password == password
  {
    match existing
    case Err(_) => CreateAccount(Database.User(email, password, Some(id), false))
    case Ok(user) => if user.password != password then UpdatePassword(email, password) else KeepAccount
  }

  /** Read back through GetUser, an account made by addContact asks for a
      password change and one made by updateContact does not. */
  lemma CreatedAccountsReadBack(email: string, password: string, id: string, err: Error)
    ensures var u := NewContactUser(email, password, id, Err(err)).value;
            var ins := Database.CreateUser(u);
            Database.GetUser(email, Database.Row(ins.username, ins.password, ins.contactId,
                                                  Database.Int64(ins.needsChange))).value.needPasswordChange
    ensures var u := SyncUserAfterUpdate(id, email, password, Err(err)).user;
            var ins := Database.CreateUser(u);
            !Database.GetUser(email, Database.Row(ins.username, ins.password, ins.contactId,
                                                   Database.Int64(ins.needsChange))).value.needPasswordChange
  {
    Database.CreatedUserReadsBack(NewContactUser(email, password, id, Err(err)).value);
    Database.CreatedUserReadsBack(SyncUserAfterUpdate(id, email, password, Err(err)).user);
  }

  // ---------------------------------------------------------------------------
  // Session cookies

  datatype Cookie = Cookie(name: string, value: string)

  /** r.Cookie(name): the value of the first cookie with that name. */
  function FindCookie(cookies: seq<Cookie>, name: string): (found: Option<string>)
    ensures found.None? <==> forall i :: 0 <= i < |cookies| ==> cookies[i].name != name
    ensures found.Some? ==> exists i :: 0 <= i < |cookies| && cookies[i] == Cookie(name, found.value) &&
                                        forall j :: 0 <= j < i ==> cookies[j].name != name
  {
    if cookies == [] then None
    else if cookies[0].name == name then
      assert cookies[0] == Cookie(name, cookies[0].value);
      Some(cookies[0].value)
    else
      var rest := FindCookie(cookies[1..], name);
      assert forall i :: 1 <= i < |cookies| ==> cookies[i] == cookies[1..][i - 1];
      if rest.Some? then
        var i :| 0 <= i < |cookies[1..]| && cookies[1..][i] == Cookie(name, rest.value) &&
                 forall j :: 0 <= j < i ==> cookies[1..][j].name != name;
        assert cookies[i + 1] == Cookie(name, rest.value);
        assert forall j :: 0 <= j < i + 1 ==> cookies[j].name != name;
        rest
      else
        rest
  }

  /** The session cookie is present and says "authenticated". */
  predicate Authenticated(cookies: seq<Cookie>) {
    FindCookie(cookies, "session") == Some("authenticated")
  }

  /** getCurrentUser: "not authenticated" without a valid session; then the
      current_user cookie, falling back to password_change_user; else "user
      not found in session cookies". */
  function GetCurrentUser(cookies: seq<Cookie>): (r: Result<string>)
    ensures r == Err(Error("not authenticated")) <==> !Authenticated(cookies)
    ensures r.Ok? <==> Authenticated(cookies) &&
                       (FindCookie(cookies, "current_user").Some? || FindCookie(cookies, "password_change_user").Some?)
    ensures r.Ok? && FindCookie(cookies, "current_user").Some? ==> r.value == FindCookie(cookies, "current_user").value
    ensures r.Ok? && FindCookie(cookies, "current_user").None? ==> r.value == FindCookie(cookies, "password_change_user").value
    ensures r.Err? && Authenticated(cookies) ==> r.error == Error("user not found in session cookies")
  {
    if !Authenticated(cookies) then Err(Error("not authenticated"))
    else match FindCookie(cookies, "current_user")
      case Some(user) => Ok(user)
      case None =>
        match FindCookie(cookies, "password_change_user")
        case Some(user) => Ok(user)
        case None => Err(Error("user not found in session cookies"))
  }

  /** isAdmin: the resolved user is "af". */
  function IsAdmin(cookies: seq<Cookie>): (admin: bool)
    ensures admin <==> GetCurrentUser(cookies) == Ok("af")
  {
    var user := GetCurrentUser(cookies);
    user.Ok? && user.value == "af"
  }

  /** The admin check needs a valid session cookie; a forged user name
      without one is not enough. */
  lemma AdminNeedsSession(cookies: seq<Cookie>)
    ensures IsAdmin(cookies) ==> Authenticated(cookies)
    ensures IsAdmin([Cookie("current_user", "af"), Cookie("session", "authenticated")])
    ensures !IsAdmin([Cookie("current_user", "af")])
  {
    var good := [Cookie("current_user", "af"), Cookie("session", "authenticated")];
    assert good[1] == Cookie("session", "authenticated");
    assert FindCookie(good, "session") == Some("authenticated");
    assert good[0] == Cookie("current_user", "af");
  }

  // ---------------------------------------------------------------------------
  // authMiddleware

  datatype Access = Serve | RedirectToLogin | RedirectToChangePassword

  function AuthMiddleware(path: string, cookies: seq<Cookie>): (a: Access)
    ensures path == "/login" || path == "/change-password" ==> a == Serve
    ensures path != "/login" && path != "/change-password" ==>
              (a == RedirectToLogin <==> !Authenticated(cookies)) &&
              (a == RedirectToChangePassword <==>
                 Authenticated(cookies) && FindCookie(cookies, "password_change_user").Some?)
  {
    if path == "/login" || path == "/change-password" then Serve
    else if !Authenticated(cookies) then RedirectToLogin
    else if FindCookie(cookies, "password_change_user").Some? then RedirectToChangePassword
    else Serve
  }

  /** On a protected path the middleware sends to /login exactly the
      requests getCurrentUser calls unauthenticated; a request sent to
      /change-password always has a resolvable user, and a served one has a
      user exactly when its current_user cookie is set. */
  lemma MiddlewareAgreesWithCurrentUser(path: string, cookies: seq<Cookie>)
    requires path != "/login" && path != "/change-password"
    ensures AuthMiddleware(path, cookies) == RedirectToLogin <==>
              GetCurrentUser(cookies) == Err(Error("not authenticated"))
    ensures AuthMiddleware(path, cookies) == RedirectToChangePassword ==> GetCurrentUser(cookies).Ok?
    ensures AuthMiddleware(path, cookies) == Serve ==>
              (GetCurrentUser(cookies).Ok? <==> FindCookie(cookies, "current_user").Some?)
  {
  }

  // ---------------------------------------------------------------------------
  // licenseAdminHandler

  datatype LicenseStatus = Active | Trial | Expired

  /** The status badge: Expired when now is after the expiry date, whatever
      the type; else Trial for a "trial" license; else Active. */
  function LicenseStatusOf(now: LicenseGen.Instant, license: LicenseGen.LicenseData): (s: LicenseStatus)
    ensures s == Expired <==> now > license.expiryDate
    ensures s == Trial <==> now <= license.expiryDate && license.licenseType == "trial"
    ensures s == Active <==> now <= license.expiryDate && license.licenseType != "trial"
  {
    if now > license.expiryDate then Expired
    else if license.licenseType == "trial" then Trial
    else Active
  }

  /** The box under the details: the days left while at most 30 remain,
      the expiry date once expired, else nothing. */
  datatype Banner = DaysRemaining(days: int) | ExpiredOn(date: LicenseGen.Instant) | NoBanner

  function LicenseBanner(now: LicenseGen.Instant, license: LicenseGen.LicenseData, daysLeft: int): (b: Banner)
    ensures b.DaysRemaining? <==> now <= license.expiryDate && daysLeft <= 30
    ensures b.DaysRemaining? ==> b.days == daysLeft
    ensures b.ExpiredOn? <==> now > license.expiryDate
    ensures b.ExpiredOn? ==> b.date == license.expiryDate
  {
    if now <= license.expiryDate then
      (if daysLeft <= 30 then DaysRemaining(daysLeft) else NoBanner)
    else ExpiredOn(license.expiryDate)
  }

  /** What the license page shows. */
  datatype LicensePage =
    | Forbidden
    | SystemError(err: Error)
    | TrialMode
    | InvalidLicense(err: Error)
    | Report(license: LicenseGen.LicenseData, status: LicenseStatus, banner: Banner)

  /** licenseAdminHandler: admins only; a failing license manager is
      reported; an empty AFCB_LICENSE_KEY means trial mode; otherwise the
      validated license is reported, or the validation error. The manager's
      outcome and the validation result come from license code that is not
      part of this model, and `daysLeft` from a floating-point division. */
  function LicenseAdminPage(cookies: seq<Cookie>, manager: Option<Error>, licenseKey: string,
                            validated: Result<LicenseGen.LicenseData>,
                            now: LicenseGen.Instant, daysLeft: int): (page: LicensePage)
    ensures !IsAdmin(cookies) ==> page == Forbidden
    ensures IsAdmin(cookies) && manager.Some? ==> page == SystemError(manager.value)
    ensures page == TrialMode <==> IsAdmin(cookies) && manager.None? && licenseKey == ""
    ensures page.InvalidLicense? <==> IsAdmin(cookies) && manager.None? && licenseKey != "" && validated.Err?
    ensures page.Report? <==> IsAdmin(cookies) && manager.None? && licenseKey != "" && validated.Ok?
    ensures page.Report? ==> page.license == validated.value &&
                             page.status == LicenseStatusOf(now, validated.value) &&
                             page.banner == LicenseBanner(now, validated.value, daysLeft)
  {
    if !IsAdmin(cookies) then Forbidden
    else if manager.Some? then SystemError(manager.value)
    else if licenseKey == "" then TrialMode
    else match validated
      case Err(e) => InvalidLicense(e)
      case Ok(license) => Report(license, LicenseStatusOf(now, license), LicenseBanner(now, license, daysLeft))
  }

  /** A license made by the issuer's trial command shows as Trial until it
      expires; a permanent one never does. */
  lemma IssuedLicenseStatus(lib: LicenseGen.Library, companyName: string, email: string, domain: string,
                            maxUsers: int, days: int, months: int,
                            nowForExpiry: LicenseGen.Instant, nowForIssue: LicenseGen.Instant,
                            now: LicenseGen.Instant)
    ensures var trial := LicenseGen.TrialLicense(lib, companyName, email, days, nowForExpiry, nowForIssue);
            LicenseStatusOf(now, trial) == (if now <= trial.expiryDate then Trial else Expired)
    ensures var permanent := LicenseGen.PermanentLicense(lib, companyName, email, domain, maxUsers, months,
                                                         nowForExpiry, nowForIssue);
            LicenseStatusOf(now, permanent) != Trial
  {
  }

  // ---------------------------------------------------------------------------
  // changePasswordHandler (POST)

  const SessionExpiredMessage := "Session expired. Please login again."
  const TooShortMessage := "Password must be at least 6 characters long."
  const MismatchMessage := "Passwords do not match."
  const UpdateFailedMessage := "Failed to update password. Please try again"

  /** Either a message back to the form, or the new password to store for
      the user named by the password_change_user cookie. */
  datatype PasswordChange = Rejected(message: string) | Store(username: string, password: string)

  /** The POST branch as written: the mismatch check answers with the
      length message. */
  function ChangePasswordAsWritten(cookies: seq<Cookie>, newPassword: string, confirmPassword: string): (r: PasswordChange)
    ensures r.Store? <==> FindCookie(cookies, "password_change_user").Some? &&
                          newPassword == confirmPassword && |newPassword| >= 6
    ensures r.Store? ==> r == Store(FindCookie(cookies, "password_change_user").value, newPassword)
    ensures FindCookie(cookies, "password_change_user").None? ==> r == Rejected(SessionExpiredMessage)
  {
    match FindCookie(cookies, "password_change_user")
    case None => Rejected(SessionExpiredMessage)
    case Some(username) =>
      if newPassword != confirmPassword then Rejected(TooShortMessage)
      else if |newPassword| < 6 then Rejected(TooShortMessage)
      else Store(username, newPassword)
  }

  /** Two long, different passwords are told they are too short. */
  lemma MismatchReportedAsTooShort()
    ensures var cookies := [Cookie("password_change_user", "bob")];
            ChangePasswordAsWritten(cookies, "secret-one", "secret-two") == Rejected(TooShortMessage)
  {
    var cookies := [Cookie("password_change_user", "bob")];
    assert cookies[0].name == "password_change_user";
    assert "secret-one" != "secret-two" by {
      assert "secret-one"[7] != "secret-two"[7];
    }
  }

  /** The POST branch with the message the mismatch check evidently
      intends; it stores exactly what the code as written stores. */
  function ChangePassword(cookies: seq<Cookie>, newPassword: string, confirmPassword: string): (r: PasswordChange)
    ensures r.Store? <==> FindCookie(cookies, "password_change_user").Some? &&
                          newPassword == confirmPassword && |newPassword| >= 6
    ensures r.Store? ==> r == Store(FindCookie(cookies, "password_change_user").value, newPassword)
    ensures r == Rejected(SessionExpiredMessage) <==> FindCookie(cookies, "password_change_user").None?
    ensures r == Rejected(MismatchMessage) <==>
              (FindCookie(cookies, "password_change_user").Some? && newPassword != confirmPassword)
    ensures r == Rejected(TooShortMessage) <==>
              (FindCookie(cookies, "password_change_user").Some? &&
               newPassword == confirmPassword && |newPassword| < 6)
  {
    match FindCookie(cookies, "password_change_user")
    case None => Rejected(SessionExpiredMessage)
    case Some(username) =>
      if newPassword != confirmPassword then Rejected(MismatchMessage)
      else if |newPassword| < 6 then Rejected(TooShortMessage)
      else Store(username, newPassword)
  }

  /** The correction changes only the mismatch message. */
  lemma ChangePasswordCorrectionOnlyRewords(cookies: seq<Cookie>, newPassword: string, confirmPassword: string)
    ensures ChangePasswordAsWritten(cookies, newPassword, confirmPassword) ==
            (if ChangePassword(cookies, newPassword, confirmPassword) == Rejected(MismatchMessage)
             then Rejected(TooShortMessage)
             else ChangePassword(cookies, newPassword, confirmPassword))
  {
  }

  /** The reply once the store was attempted. */
  function PasswordStoredReply(err: Option<Error>): (reply: string)
    ensures err.Some? <==> reply == UpdateFailedMessage
  {
    if err.Some? then UpdateFailedMessage else "Password updated succesfully! Redirecting..."
  }
}
