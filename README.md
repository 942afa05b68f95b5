# Contact book and license issuer — a Dafny model

This project models the core of a small Go web application. The application keeps companies and
contacts in SQLite, issues a contact card as a vCard inside a QR code, and gates use with
RSA-signed license keys. The model covers:

- **license_gen.go**: the license issuer. It covers the trial and permanent license records and the
  signing pipeline (serialize, SHA-256, PKCS#1 v1.5 signature, JSON envelope, base64). It covers
  the generator object, whose private key is loaded from and saved to `private.key`, and the
  command line (`keygen`, `trial`, `permanent`).
- **database.go**: how the `needs_password_change` flag is written by `CreateUser` and read back by
  `GetUser` and `UserNeedsPasswordChange`, the error messages of `GetUser`, and the `LIKE` pattern
  of `SearchContacts`. SQLite's `LIKE` is modelled as a matcher, so the model can say which rows
  the pattern selects.
- **pdf_service.go**: `generateVCardContent` as an imperative builder that appends line by line.
  It is proved equal to a reference card, and the card is proved to read back into its properties.
  The phone filter is proved to keep exactly the digits and `+`.
- **contact.go**: the contact record, which the handlers overwrite in place and is therefore a
  class, and the loose `isValidEmail`.
- **main.go**: the rules around the handlers' HTML:
  - `formatTimestamp` and `getCreatedByDisplay`;
  - the `emailRegex` pattern;
  - `addContact`'s default password and user account;
  - `updateContact`'s in-place update and user sync;
  - `getCurrentUser`, `isAdmin` and `authMiddleware` over the request cookies;
  - the status, banner and page choice of `licenseAdminHandler`;
  - the POST branch of `changePasswordHandler`.

Library code has no source here, so it becomes parameters:

- Cryptography, JSON, PEM, base64, `time.AddDate` and `fmt.Sscanf` are the function-valued fields
  of `LicenseGen.Library`. The laws the proofs rely on are named predicates
  (`EnvelopeLaws`, `KeyCodecLaws`), and the lemmas that use them require them.
- The clock is an explicit instant (`LicenseGen.Instant`). The two `time.Now()` calls of a
  license are two instants.
- Query results, cookies, form values and the result of `crypto/rand` key generation are inputs.
- The file system is `LicenseGen.FileSystem`, a class over a map of files. Which names cannot be
  read, which opens are refused, where a write stops early, where the close fails, and the umask
  are its inputs.

Go strings are byte strings. The model treats them as `seq<char>`, one character per byte, so
every length, slice and first-byte rule is exact for ASCII text.

## Model

| member | source | states |
|---|---|---|
| Base.ToUpperAscii | main.go:1544 | an ASCII lower-case letter becomes its upper-case letter (32 code points lower), every other character is unchanged |
| Base.BytesStringRoundTrip | license_gen.go:84-85 | `string(b)` of a byte slice converts back to the same bytes |
| Contacts.Contact.constructor | contact.go:11-19 | a contact holds exactly the given field values |
| Contacts.IsValidEmail | contact.go:30-32 | true iff the address contains an '@' and contains a '.', at any positions |
| Contacts.IsValidEmailExamples | contact.go:30-32 | the empty string is rejected; "@." and "a.b@c" are accepted (no order needed); "ab@c" and "a.b" are rejected |
| Database.DecodeNeedsChange | database.go:186-198 | the flag is false exactly for an int64 other than 1, the bool false, or a string other than "1" and "true"; NULL and unknown types mean true |
| Database.EncodeNeedsChange | database.go:203-206 | the stored value is 0 or 1, and 1 iff a change is needed |
| Database.NeedsChangeRoundTrip | database.go:188-206 | decoding what CreateUser stored, as int64 or as bool, gives the flag back |
| Database.GetUser | database.go:173-199 | no row gives "user not found: <name>"; any other query error gives "database error: <err>"; a row gives the user with its columns and decoded flag |
| Database.CreateUser | database.go:202-210 | the INSERT carries the user's name, password and contact id, and 1 iff NeedPasswordChange, else 0 |
| Database.CreatedUserReadsBack | database.go:173-208 | a user written by CreateUser and read by GetUser is the same user |
| Database.UserNeedsPasswordChange | database.go:217-224 | a scan error gives (false, err); else true iff the stored integer is 1 |
| Database.NeedsChangeReadersAgreeOnIntegers | database.go:186-224 | on integers the two readers agree; on NULL GetUser says "change needed" while UserNeedsPasswordChange fails with false |
| Database.SearchPattern | database.go:291 | the pattern is the keyword between two '%' |
| Database.SearchArgs | database.go:288-292 | the same pattern is passed for all four columns |
| Database.PercentMatchesAll | database.go:288-292 | the pattern "%" matches every string |
| Database.LiteralThenPercent | database.go:288-292 | a wildcard-free keyword followed by '%' matches exactly the strings that begin with it, ignoring ASCII case |
| Database.PercentThen | database.go:288-292 | a leading '%' matches iff the rest matches some suffix |
| Database.SearchPatternMatches | database.go:288-292 | for a keyword without wildcards, a column matches iff the keyword occurs in it, ignoring ASCII case |
| Database.PercentKeywordMatchesAll | database.go:291 | wildcards are not escaped: searching for "%" matches every contact |
| LicenseGen.TrialLicense | license_gen.go:122-132 | the trial record has 3 seats, domain "*", version "1.0", type "trial", expiry `days` days after the first instant, issue date the second; its text is valid UTF-8 iff company and email are |
| LicenseGen.PermanentLicense | license_gen.go:136-146 | the permanent record has the given seats and domain, version "1.0", type "permanent", expiry `months` months after the first instant; its text is valid UTF-8 iff company, email and domain are |
| LicenseGen.Issue | license_gen.go:88-120 | each failing step (serialize, sign, wrap) returns "" with that step's error; success ships the base64 of the envelope of the serialized record and its signature |
| LicenseGen.IssueOpens | license_gen.go:88-120 | what is shipped opens to the signed bytes and the signature verifies under the public key; when JSON carries the record unchanged (valid UTF-8 text, whole-minute zone offsets), the data decodes to the issued record |
| LicenseGen.IssueInjective | license_gen.go:88-120 | two records that JSON carries unchanged never share a license key |
| LicenseGen.LicenseGenerator.constructor | license_gen.go:33-41 | the generator starts with the freshly generated key |
| LicenseGen.FileSystem.WriteFile | license_gen.go:70 | fails iff the open is refused, the write stops early or the close fails; a refused open changes nothing; otherwise only that file changes and holds a prefix of the data, all of it unless the write stopped early; a new file gets the mode masked by the umask, an existing one keeps its mode |
| LicenseGen.FileSystem.ReadFile | license_gen.go:44 | the read succeeds iff the file exists and is readable, and returns its contents |
| LicenseGen.KeyFromFile | license_gen.go:43-58 | the read error, then "Failed to parse PEM block" when no block decodes, else the key that PKCS#1 parsing of the block gives |
| LicenseGen.SavedKeyLoads | license_gen.go:43-71 | a key saved by SavePrivateKey loads back as the same key, given that PEM round-trips a plain type line such as "RSA PRIVATE KEY" |
| LicenseGen.LicenseGenerator.LoadPrivateKeyFromFile | license_gen.go:43-61 | the key is replaced only when read, decode and parse all succeed; otherwise it is unchanged and the error is returned |
| LicenseGen.LicenseGenerator.SavePrivateKey | license_gen.go:63-71 | writes the PKCS#1 PEM of the key; fails iff that write fails; a failed write may leave a prefix of the PEM or all of it; a new file gets 0600 masked by the umask, an existing one keeps its mode; no other file changes |
| LicenseGen.PublicKeyPem | license_gen.go:73-86 | "" when the public key cannot be marshalled; else a "PUBLIC KEY" PEM that decodes back to the PKIX encoding, given that PEM round-trips a plain type line |
| LicenseGen.LicenseGenerator.GetPublicKeyPEM | license_gen.go:73-86 | the public-key PEM of the generator's current key; "" when it cannot be marshalled |
| LicenseGen.LicenseGenerator.GenerateLicense | license_gen.go:88-120 | the pipeline of Issue with the generator's key, step errors included; a key without error ships the signed record, and opens to it under the generator's public key when JSON carries the record unchanged |
| LicenseGen.LicenseGenerator.GenerateTrialLicense | license_gen.go:122-134 | Issue of the trial record; a key without error, for a company and email in valid UTF-8 and instants at whole-minute offsets, opens to the 3-seat trial record of that company and email |
| LicenseGen.LicenseGenerator.GeneratePermanentLicense | license_gen.go:136-148 | Issue of the permanent record; a key without error, for company, email and domain in valid UTF-8 and instants at whole-minute offsets, opens to the permanent record with the given seats, domain and months |
| LicenseGen.GenerateLicenseCLI | license_gen.go:150-233 | fewer than 2 args gives usage; any load failure writes the new key over private.key, keeping an existing file's mode, and a failed write is fatal and may leave a prefix of the key or all of it; keygen prints the public-key PEM of the active key; trial needs exactly 5 args, permanent exactly 7; unknown commands are reported; the issued key is that of the active key |
| PdfService.CleanPhone | pdf_service.go:197-202 | keeps only digits and '+', never lengthens, and is the identity on a number that has only those |
| PdfService.CleanPhoneAppend | pdf_service.go:197-202 | the filter keeps order: cleaning a concatenation concatenates the cleaned parts |
| PdfService.CleanPhoneIdempotent | pdf_service.go:197-202 | cleaning twice is cleaning once |
| PdfService.CleanPhoneKeepsPhoneChars | pdf_service.go:197-202 | every digit and '+' occurs as often after cleaning as before |
| PdfService.SplitJoin | pdf_service.go:184-216 | splitting the '\n'-joined lines, none holding a break, gives the lines back |
| PdfService.ParseRender | pdf_service.go:189-211 | a `NAME:value` line whose name has no ':' parses back to its name and value |
| PdfService.VCardParses | pdf_service.go:184-216 | when no value holds a line break, the card text reads back into exactly its properties |
| PdfService.VCardNames | pdf_service.go:187-213 | the lines come in the order BEGIN, VERSION, FN, N, then EMAIL, TEL and ORG each only when its input is non-empty, then REV and END |
| PdfService.VCardValues | pdf_service.go:189-211 | FN is "first last", N is "last;first;;;", the line before END is REV with the timestamp, and a non-empty phone gives a TEL line with the cleaned number |
| PdfService.VCardOptionalLines | pdf_service.go:192-208 | EMAIL is present iff the email is non-empty, TEL iff the phone is, ORG iff the company name is |
| PdfService.VCardFrame | pdf_service.go:187-213 | the card begins "BEGIN:VCARD\nVERSION:3.0\n" and ends "END:VCARD" with no trailing break |
| PdfService.GenerateVCardContent | pdf_service.go:184-216 | the text built by the appends is the reference card of the contact, with that beginning and end |
| App.FormatTimestamp | main.go:1221-1237 | 19 or more characters are cut to the first 16; anything shorter, "" included, is unchanged |
| App.FormatTimestampIdempotent | main.go:1221-1237 | formatting a formatted timestamp changes nothing |
| App.GetCreatedByDisplay | main.go:1213-1218 | never empty; nil or "" is shown as "System"; any other creator as itself |
| App.FirstIndex | main.go:18 | the position of the first occurrence, or the length when there is none |
| App.EmailRegexMatch | main.go:18 | the decision at the first '@' accepts exactly the strings that split as run '@' run '.' run, each run non-empty and free of '@' and whitespace |
| App.RegexImpliesIsValidEmail | main.go:18 | every address the regular expression accepts passes isValidEmail |
| App.IsValidEmailIsLooser | main.go:18 | "a.b@c" passes isValidEmail but not the regular expression |
| App.DefaultPassword | main.go:1532-1549 | the last 3 characters of the phone (all of it when shorter), then the upper-cased first letter of the first name when there is one |
| App.ResolveNewContactPassword | main.go:1532-1549 | a given password is kept; an empty one becomes the default password |
| App.DefaultPasswordShape | main.go:1483-1549 | with the required phone and first name, the default has 2 to 4 characters and ends in upper case for a lower-case initial |
| App.CheckNewContact | main.go:1483-1495 | missing fields iff first name, last name, email or phone is empty; accepted iff all are set and the email matches |
| App.NewContactUser | main.go:1600-1619 | an account is created only when GetUser fails, named by the email, with the contact id and a forced password change |
| App.CheckUpdatedContact | main.go:1666-1677 | missing fields iff the type, names, email or phone is empty; accepted iff all are set and the email matches |
| App.UpdateContact | main.go:1647-1677 | overwrites type, names, email and phone; keeps the password when the form's is empty; the company is nil iff the form's is empty; the checks run on the result |
| App.SyncUserAfterUpdate | main.go:1688-1708 | a missing account is created without a forced change; an existing one gets the password only when it differs |
| App.CreatedAccountsReadBack | main.go:1688-1699 | read back, an account created by updateContact does not need a password change, while one from addContact (main.go:1600-1610) does |
| App.FindCookie | main.go:795-806 | the value of the first cookie with that name; none iff no cookie has it |
| App.GetCurrentUser | main.go:793-811 | "not authenticated" iff the session cookie is not "authenticated"; then current_user wins over password_change_user; else "user not found in session cookies" |
| App.IsAdmin | main.go:497-503 | true iff the resolved user is "af" |
| App.AdminNeedsSession | main.go:497-503 | being admin needs a valid session as getCurrentUser (main.go:793-799) reads it; a user cookie alone is not enough |
| App.AuthMiddleware | main.go:2153-2175 | /login and /change-password pass; else no valid session redirects to /login; else a password_change_user cookie redirects to /change-password; else serve |
| App.MiddlewareAgreesWithCurrentUser | main.go:2153-2175 | on protected paths the login redirect happens iff getCurrentUser says "not authenticated"; a redirect to /change-password always has a user |
| App.LicenseStatusOf | main.go:590-603 | Expired iff now is after the expiry; Trial iff not expired and type "trial"; else Active |
| App.LicenseBanner | main.go:640-663 | the days banner iff not expired and at most 30 days are left; the expiry banner iff expired |
| App.LicenseAdminPage | main.go:509-663 | non-admins are forbidden; then a manager error; then an empty key means trial mode; then the validation error or the report with status and banner |
| App.IssuedLicenseStatus | main.go:590-603 | a trial license from the issuer shows as Trial until it expires; a permanent one never shows as Trial |
| App.ChangePasswordAsWritten | main.go:1807-1838 | stores iff the password_change_user cookie is present, both entries are equal and at least 6 long; without the cookie the session has expired |
| App.MismatchReportedAsTooShort | main.go:1824-1827 | two different 10-character passwords are answered "Password must be at least 6 characters long." |
| App.ChangePassword | main.go:1807-1838 | as above, and each rejection names its own reason: session expired, mismatch, or too short |
| App.ChangePasswordCorrectionOnlyRewords | main.go:1807-1838 | the corrected branch differs from the code as written only in the mismatch message |
| App.PasswordStoredReply | main.go:1835-1860 | the reply is the failure message iff the store failed |

## Left out

- The license verifier (`NewLicenseManager`, `ValidateLicense`) is called from main.go but defined
  in no file of this model. Its outcomes are parameters of `App.LicenseAdminPage`.
  `LicenseGen.OpenEnvelope` is a reference inverse of the issuer, not that verifier.
- Cryptography, JSON, PEM, base64 and calendar arithmetic are parameters with stated laws. The
  model proves nothing about RSA or SHA-256 themselves.
- `daysLeft` is computed by floating-point division of a duration; it is an integer input here.
  The two `time.Now()` readings of the license page are one instant.
- `activateLicenseHandler` is not modelled: it calls the unseen verifier.
- HTML, templates, routing, `http.SetCookie` and all `fmt` output are not modelled. The GET branch
  of `changePasswordHandler` only chooses between two fixed pages.
- The SQL statements, `InitDB`, the row loops of the list queries, and the contact password sync
  after a password change are database I/O. That sync reads the contact back with `GetContact`
  (database.go:240-252), a single-row query.
- Randomness is not modelled: `genID` and RSA key generation are inputs.
- QR encoding and the PDF layout are not modelled; they are library and floating-point code.
- The REV timestamp is an input. The source formats local time with a literal "Z" suffix.
- App.DefaultPassword: `strings.ToUpper(string(firstName[0]))` upper-cases a byte read as a
  Unicode code point. The model upper-cases ASCII letters only, and treats the phone and name
  character by character.
- Contacts.Contact: contact.go declares no CompanyID field, but main.go and database.go read and
  write one. The class has it as `companyId`.
- LicenseGen.IssueOpens: encoding/json writes each invalid UTF-8 byte of a string as U+FFFD, and
  time.Time's JSON form keeps the zone offset to whole minutes only, so a record with invalid text,
  or an instant where the local offset has seconds (local mean time before 1937 in some zones),
  does not open back to itself. The model states nothing about such records.
- LicenseGen.IssueInjective: two records that differ only in invalid UTF-8 bytes, or only by those
  offset seconds, serialize alike and share one key; injectivity is proved for the other records.
- LicenseGen.LicenseGenerator.GenerateLicense: opens to its record only when JSON carries it
  unchanged, for the same reasons.
- LicenseGen.LicenseGenerator.GenerateTrialLicense: company, email and the day count come from the
  command line unchecked, so a large negative count reaches such instants; the round trip is
  stated for valid UTF-8 text and whole-minute offsets only.
- LicenseGen.LicenseGenerator.GeneratePermanentLicense: likewise for company, email, domain and
  the month count.
- LicenseGen.SavedKeyLoads: the PEM law is assumed for plain type lines only (upper-case letters
  and spaces); pem.Decode does not return a type holding a line break or ending in a blank as
  written. Both types the issuer writes are plain.
- LicenseGen.PublicKeyPem: its decode clause rests on the same PEM law for plain type lines.
- LicenseGen.FileSystem.ReadFile: every read failure of an existing file has one message,
  "permission denied"; a directory's "is a directory" is not distinguished.
- LicenseGen.FileSystem.WriteFile: the errors are one message each for a refused open, a short
  write and a failed close; which bytes of a short write reach the disk beyond a prefix is not
  modelled.
- LicenseGen.GenerateLicenseCLI: the usage text lists only `trial` and `keygen`; the printed text
  is not modelled, only which outcome is reached.
- Database.DecodeNeedsChange: the SQLite driver's own conversions are not modelled. Which Go type
  a column arrives as is an input.

## Findings

| source | as written | input that shows it | evidently intended | confidence | as-written member | corrected member |
|---|---|---|---|---|---|---|
| main.go:1824-1827 | when the new password and its confirmation differ, the reply is "Password must be at least 6 characters long." | newPassword "secret-one", confirmPassword "secret-two", with a password_change_user cookie | a message saying the two passwords do not match | high (not executed) | App.MismatchReportedAsTooShort | App.ChangePassword |
