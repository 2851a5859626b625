# Gym management front-end: form actions, session store and page decisions

This project models the logic of the gym-management browser front-end and proves properties of it.

The front-end's form actions validate string fields with zod schemas and send one HTTP request. They then turn its single outcome into an `{errors, success}` record. The Redux `auth` slice holds the signed-in user's name, email and encrypted token. The list and search actions normalise the server's page envelopes. Two pages make decisions from results: the login page and the administrator's home page.

Each form action is a module with:
- `Valid`: what the schema demands, written without zod;
- `Validate`: the field errors, one channel per field, collected for every failing field;
- `Request`: the request the action would send;
- `Submit`: the resulting form state, with the request if one is sent.

The HTTP outcome is an input: `Http.Outcome` is a response with a 2xx status and data, an HTTP-client error, or any other exception. axios's default `validateStatus` throws for every other status, so a 4xx or 5xx reply is an HTTP-client error carrying the server's `exceptionMessage`, and an action's "unexpected status" branch is reached only by a 2xx status other than the one it expects. JavaScript's `Number(string)` is modelled exactly, on unbounded reals, by `JsNumber.ToNumber`, following section 7.1.4.1.1 (StringToNumber) of ECMAScript. `Number.prototype.toString` for the decimal numerals the schemas let through is `NumberText.DecimalText`.

The store is a class, `AuthSlice.AuthStore`, whose methods update its three fields in place. Each method is proved against the pure reducer `AuthSlice.Reduce`. The two pages are classes too, `LoginPage.Page` and `AdminHome.Page`, with the page's React state as fields and the shared store as a constant field.

Modelling assumptions:
- zod behaves as version 4 does:
  - every check on a `z.string()` runs and contributes its message;
  - a `.transform(...).refine(...)` step runs only when those checks all passed;
  - `z.enum(values, "msg")` reports `msg`.
- The email format check of zod is a parameter `isEmail: string -> bool`.
- The CryptoJS encryption is a parameter `encrypt`.
- The decrypted token is an input. It may be `""`, which is what `decryptJWT` returns for a token it cannot read.
- Clock readings (`Date.now()`) are an input `now`.

## Model

| member | source | states |
|---|---|---|
| Text.ValuePositive | src/actions/member/add-member-action.ts:7 | a digit string's value is positive exactly when one of its digits is not '0' (the `age > 0` refinement in terms of the text) |
| JsNumber.DigitsToNumber | src/actions/member/add-member-action.ts:7-8 | `Number` of a string matching `^[0-9]+$` is the finite number equal to its decimal value |
| JsNumber.DecimalToNumber | src/actions/trainer/add-trainer-action.ts:11 | `Number` of a string matching `^\d+(\.\d+)?$` is its exact decimal value, and that value is positive iff some digit is non-zero |
| NumberText.DecimalTextValue | src/actions/membership/update-membership-action.ts:79 | `price.toString()` of a validated price is again a decimal numeral with the same value, with no superfluous leading or trailing zero |
| NumberText.DecimalTextRoundTrip | src/actions/membership/update-membership-action.ts:79 | `Number(price.toString())` is `Number(price)`: the string sent converts back to the price that was validated |
| Checks.Required | src/actions/member/add-member-action.ts:6 | `.min(1, msg)` reports nothing iff the string is non-empty, else exactly `[msg]` |
| Checks.OneOf | src/actions/member/add-member-action.ts:10 | `z.enum` reports nothing iff the value is one of the options, else exactly `[msg]` |
| Checks.Email | src/actions/loginAndRegisterActions/login.ts:6 | `.email(msg)` reports nothing iff the address passes the format check, else `[msg]` |
| Checks.RequiredEmail | src/actions/member/add-member-action.ts:9 | empty addresses report the "required" message first; a non-empty malformed one reports only the format message; nothing iff non-empty and well-formed |
| Checks.WholeNumber | src/actions/member/add-member-action.ts:12 | nothing iff the string is a non-empty digit string; "" reports both messages, other non-digit strings only the pattern message |
| Checks.PositiveWhole | src/actions/member/add-member-action.ts:7 | nothing iff a digit string with a non-zero digit; the positivity message only for digit strings of zeros, the string-check messages otherwise |
| Checks.TenDigits | src/actions/member/add-member-action.ts:8 | nothing iff exactly ten digits; "" reports both messages, any other string only the pattern message |
| Checks.PositiveDecimal | src/actions/trainer/add-trainer-action.ts:11 | nothing iff a decimal numeral with a non-zero digit; which of the three messages each failing string gets |
| Checks.WholeBetween | src/actions/loginAndRegisterActions/register.ts:7-12 | nothing iff a digit string whose value is in the inclusive range; the range message only for digit strings outside it |
| Checks.PositiveNumber | src/actions/membership/update-membership-action.ts:8 | a transform and refine with no string check: nothing iff `Number` of the text is positive, else `[msg]` |
| Text.DigitsLength | src/actions/admin/update-admin-action.ts:15-19 | a digit string's JavaScript length is its number of digits |
| Checks.ExactDigits | src/actions/admin/update-admin-action.ts:15-19 | nothing iff exactly n characters, all digits; lengths in UTF-16 code units, as JavaScript counts them; wrong lengths report the length message first, right-length non-digits only the digits message |
| Json.Or | src/actions/member/find-all-members.ts:28-29 | `a || b`: `a` when it is truthy, `b` otherwise |
| Json.Prop | src/actions/member/find-all-members.ts:28-29 | `j?.key`: undefined on null or undefined and on a missing key, the property otherwise |
| Http.Wire | src/actions/membership/update-membership-action.ts:76 | a number in a JSON body: finite numbers as themselves, NaN and the infinities as null |
| Http.NumberOrOmitted | src/actions/member/update-member-action.ts:13-14 | an optional numeric field is omitted iff the text is empty, otherwise sent as `Number` of the text |
| Http.WireDigits | src/actions/member/add-member-action.ts:7-8 | a validated digit string is sent as its decimal value, so a leading zero is lost |
| Http.WireDecimal | src/actions/trainer/add-trainer-action.ts:11 | a validated decimal numeral is sent as its exact value |
| Forms.Reason | src/actions/member/add-member-action.ts:101-125 | the one form error for a failed outcome: for a 2xx response other than the expected status, the server message or the fallback (an internal error when `response.data` is absent and read unguarded), the client error's server message or its fallback, the internal-error text otherwise |
| Forms.ReasonOrigin | src/actions/member/add-member-action.ts:101-125 | the form error is always the server's message or one of the action's three fixed texts, and is never empty when those texts are not |
| Forms.Settle | src/actions/member/add-member-action.ts:97-126 | no form error iff the outcome is a response with the expected status; otherwise exactly one, the `Reason` |
| AddMember.Validate | src/actions/member/add-member-action.ts:5-13 | no errors iff every field rule holds; the messages for empty and zero ages, missing name, gender, membership and trainer; never a form error |
| AddMember.Request | src/actions/member/add-member-action.ts:74-95 | POST to `user/addMember` with the token; the body holds exactly name, age, phone, email and gender, with the form's name, email and gender and numbers for age and phone; the query parameters are exactly the membership name and the trainer id as a number |
| AddMember.Submit | src/actions/member/add-member-action.ts:57-126 | invalid forms give the field errors and no request; valid ones send the request; success iff the status is 201 iff no errors; always timestamped |
| AddMember.AgeExamples | src/actions/member/add-member-action.ts:7 | age "0" gives "Age must be positive", "-5" gives "Age must be a number", "1" gives no error |
| UpdateMember.Validate | src/actions/member/update-member-action.ts:6-18 | no errors iff every rule holds (the add rules, status, original email); member id and register number never have errors |
| UpdateMember.MemberData | src/actions/member/update-member-action.ts:96-105 | the body's keys are exactly name, age, phno, email, gender and status, plus `memberId` and `registerNo` iff non-empty; it carries the new email, and neither the original email, the membership nor the trainer; age and phone as numbers, the ids as `Number` of their text |
| UpdateMember.Request | src/actions/member/update-member-action.ts:107-120 | PUT to `user/updateMember` with the token, keyed by the original email in `memberEmail`; membership and trainer only as parameters; the body is `MemberData` |
| UpdateMember.Submit | src/actions/member/update-member-action.ts:74-151 | invalid forms give the field errors and no request; success iff the status is 200 iff no errors |
| AddTrainer.Validate | src/actions/trainer/add-trainer-action.ts:6-14 | no errors iff every rule holds, the salary a positive decimal numeral; the salary messages |
| AddTrainer.Request | src/actions/trainer/add-trainer-action.ts:77-97 | POST to `user/addTrainer`; the body holds exactly name, age, phone, email, salary and gender, with the form's name, email and gender and numbers for age, phone and salary; the membership only as a query parameter |
| AddTrainer.Submit | src/actions/trainer/add-trainer-action.ts:58-129 | invalid forms give the field errors and no request; success iff the status is 201 iff no errors |
| AddTrainer.SalaryZero | src/actions/trainer/add-trainer-action.ts:11 | salaries "0" and "0.0" are refused as not positive |
| AddTrainer.SalaryPoint | src/actions/trainer/add-trainer-action.ts:11 | salary "1." is refused as not a number and "12.5" is accepted |
| UpdateTrainer.Validate | src/actions/trainer/update-trainer-action.ts:7-19 | no errors iff every rule holds, the salary only non-empty; the nine channels only |
| UpdateTrainer.TrainerData | src/actions/trainer/update-trainer-action.ts:92-102 | the body's keys are exactly name, age, phno, email, salary, gender and status, plus `trainerId` and `registerNo` iff non-empty; it carries the new email and status, and neither the original email nor the membership; the salary as the typed string |
| UpdateTrainer.Request | src/actions/trainer/update-trainer-action.ts:105-117 | PUT to the hard-coded update address with the token, keyed by the original email in `trainerEmail`; membership only as a parameter; the body is `TrainerData` |
| UpdateTrainer.Submit | src/actions/trainer/update-trainer-action.ts:71-150 | invalid forms give the field errors and no request; success iff the status is 200 iff no errors |
| UpdateTrainer.SalaryUnchecked | src/actions/trainer/update-trainer-action.ts:12 | the salaries "0" and "abc" are accepted |
| AddMembership.Validate | src/actions/membership/add-membership-action.ts:7-18 | no errors iff name and duration are non-empty and the price is a positive decimal numeral; the price messages |
| AddMembership.Request | src/actions/membership/add-membership-action.ts:64-80 | POST to `user/addMembership` with no parameters and a body of exactly name, duration and the price's value |
| AddMembership.Submit | src/actions/membership/add-membership-action.ts:50-112 | invalid forms give the three channels and no request; success iff the status is 201 iff no errors |
| UpdateMembership.Validate | src/actions/membership/update-membership-action.ts:7-20 | no errors iff the id converts to a positive number and the other rules hold; the id, price and status messages |
| UpdateMembership.Request | src/actions/membership/update-membership-action.ts:74-91 | PUT to `user/updateMembership` with no parameters and a body of exactly id, name, duration, price (as `toString` writes it) and status, with the form's name, duration and status |
| UpdateMembership.Submit | src/actions/membership/update-membership-action.ts:58-123 | invalid forms give the five channels and no request; success iff the status is 200 iff no errors |
| UpdateMembership.PriceRoundTrip | src/actions/membership/update-membership-action.ts:17-18 | the price string sent has the value of the validated price |
| UpdateMembership.InfiniteId | src/actions/membership/update-membership-action.ts:8 | the id "Infinity" passes the positivity rule and is sent as `null` |
| UpdateAdmin.Validate | src/actions/admin/update-admin-action.ts:6-22 | no errors iff every rule holds (age 10 to 120 as text or number, phone of ten digits, optional status); the messages of each channel |
| UpdateAdmin.Body | src/actions/admin/update-admin-action.ts:73-75 | the submitted record as sent, not zod's parsed copy: exactly its name, email, phone, age and gender plus `id` and `status` iff present, each with the record's value, and the age kept as text or number |
| UpdateAdmin.Request | src/actions/admin/update-admin-action.ts:73-84 | PUT to `user` with the record, keyed by the caller's `adminEmail` parameter |
| UpdateAdmin.Submit | src/actions/admin/update-admin-action.ts:47-110 | validation first, then the empty-token guard ("Invalid JWT. Please login again.", no request), then success iff the status is 200; never a timestamp |
| UpdateAdmin.ValidationFirst | src/actions/admin/update-admin-action.ts:47-63 | an invalid record gives the same result whatever the token |
| UpdateAdmin.AgeDigits | src/actions/admin/update-admin-action.ts:8-13 | a digit-string age is accepted iff its value is from 10 to 120 |
| UpdateAdmin.AgeBounds | src/actions/admin/update-admin-action.ts:8-13 | 9 and 121 are refused, 10 and 120 accepted |
| UpdateAdmin.AgeNotNumeric | src/actions/admin/update-admin-action.ts:11-12 | "abc" is refused |
| UpdateAdmin.AgePadded | src/actions/admin/update-admin-action.ts:11 | " 12" is accepted, since `Number` ignores the white space |
| UpdateAdmin.AgeExponent | src/actions/admin/update-admin-action.ts:11 | "1e1" is accepted as 10 |
| Register.Validate | src/actions/loginAndRegisterActions/register.ts:5-20 | no errors iff every rule holds (age a digit string from 10 to 120); the messages of each channel |
| Register.Request | src/actions/loginAndRegisterActions/register.ts:73-81 | POST to `api/auth/register` without a token; the body holds the fields as the strings typed |
| Register.Submit | src/actions/loginAndRegisterActions/register.ts:56-111 | invalid forms give the five channels and no request; success iff the status is 201 iff no errors; no timestamp |
| Login.Validate | src/actions/loginAndRegisterActions/login.ts:5-8 | no errors iff the email is well-formed and the OTP is at least six UTF-16 code units long, of any characters |
| Login.AstralOtp | src/actions/loginAndRegisterActions/login.ts:7 | three characters above U+FFFF are six code units, so such an OTP passes the length rule |
| Login.Request | src/actions/loginAndRegisterActions/login.ts:50-54 | POST to `api/auth/login` without a token, the body exactly email and OTP |
| Login.Echo | src/actions/loginAndRegisterActions/login.ts:47 | the echoed values are the submitted email and OTP, with no token or message |
| Login.Submit | src/actions/loginAndRegisterActions/login.ts:39-88 | invalid input echoes the values and sends nothing; a 200 with data gives no errors, the token and the message; any other outcome gives one form error and the echo |
| Login.EmptyBodyFails | src/actions/loginAndRegisterActions/login.ts:56-69 | a 200 without data is a failed login with the fallback message |
| SendOtp.EmptyEmailMessage | src/actions/loginAndRegisterActions/send-otp.ts:19-24 | the message for an empty address is the schema's own one when it refuses "", the fixed one otherwise, and is never empty |
| SendOtp.Request | src/actions/loginAndRegisterActions/send-otp.ts:31-37 | GET to the hard-coded address with the email as the only parameter and no token |
| SendOtp.Submit | src/actions/loginAndRegisterActions/send-otp.ts:19-72 | only the empty address is stopped; success iff the status is 200 iff no errors |
| SendOtp.StatusIgnoresServer | src/actions/loginAndRegisterActions/send-otp.ts:46-51 | a 2xx status other than 200 always shows the fixed text, whatever the server sent |
| Listings.ListRequest | src/actions/member/find-all-members.ts:17-26 | a GET to the path with the token and exactly the parameters searchParam, searchValue, page and limit |
| Listings.Page | src/actions/member/find-all-members.ts:28-40 | a failure or missing data gives ([], 0); otherwise `content` or [] and `totalElements` or 0 |
| Listings.Search | src/actions/member/find-all-members.ts:91-108 | a failure gives ([], 0); a unique-key search lists the body alone; others list `content` or []; the total falls back to 1 |
| Listings.PageDefaults | src/actions/member/find-all-members.ts:28-29 | the list of a page is always truthy and its total truthy or 0 |
| Listings.SearchTotal | src/actions/member/find-all-members.ts:91 | a search's total is truthy exactly when the fetch produced data |
| Listings.UniqueSearch | src/actions/member/find-all-members.ts:93-95 | a unique-key search lists exactly one item |
| Listings.SearchAsPage | src/actions/member/find-all-members.ts:91-97 | a search on another key lists what the page fetch would, with 1 instead of 0 as the missing total |
| Listings.RegisteredMembers | src/actions/trainer/find-all-trainers.ts:114-148 | an empty token gives "Invalid JWT" and no request; missing data or body gives "Invalid response from server"; a failure its message; a success the page and no error |
| Listings.RegisteredError | src/actions/trainer/find-all-trainers.ts:135-147 | there is an error exactly when the token is empty, the fetch failed or no body came; every error result is ([], 0) with a non-empty message |
| Members.Active | src/actions/member/find-all-members.ts:12-41 | searchParam 'members', searchValue 'active', the caller's page and limit; the result is the page normalisation |
| Members.Inactive | src/actions/member/find-all-members.ts:43-72 | searchParam 'members', searchValue 'inactive'; the result is the page normalisation |
| Members.Search | src/actions/member/find-all-members.ts:74-109 | the caller's parameters; a memberId or email search lists the body alone |
| Trainers.Active | src/actions/trainer/find-all-trainers.ts:11-42 | searchParam 'trainers', searchValue 'active'; the page normalisation |
| Trainers.Inactive | src/actions/trainer/find-all-trainers.ts:44-74 | searchParam 'trainers', searchValue 'inactive'; the page normalisation |
| Trainers.Search | src/actions/trainer/find-all-trainers.ts:76-112 | a trainerId or email search lists the body alone; the search normalisation |
| Memberships.Active | src/actions/membership/find-all-memberships.ts:13-45 | searchParam 'memberships', searchValue 'active'; the page normalisation |
| Memberships.Inactive | src/actions/membership/find-all-memberships.ts:47-77 | searchParam 'memberships', searchValue 'inactive'; the page normalisation |
| Memberships.Search | src/actions/membership/find-all-memberships.ts:79-115 | a name search lists the body alone; the search normalisation |
| AuthSlice.Reduce | src/store/authSlice.ts:20-33 | each setter changes only its own field, the token setter stores the encrypted token, and clearing gives the initial state |
| AuthSlice.ClearForgets | src/store/authSlice.ts:29-33 | clearing is idempotent and gives the initial state whatever the state before |
| AuthSlice.RunAfterClear | src/store/authSlice.ts:29-33 | after a clear the state depends only on the actions dispatched since |
| AuthSlice.EmailKept | src/store/authSlice.ts:20-28 | name and token updates never change the email |
| AuthSlice.TokenEncrypted | src/store/authSlice.ts:26-28 | from an empty token, the stored token is always empty or the encryption of some token, never a plaintext |
| AuthSlice.AuthStore.constructor | src/store/authSlice.ts:10-14 | the store starts with all three fields empty |
| AuthSlice.AuthStore.SetNameSclice | src/store/authSlice.ts:20-22 | the new state is the reducer's, only the name changed |
| AuthSlice.AuthStore.SetEmailSclice | src/store/authSlice.ts:23-25 | the new state is the reducer's, only the email changed |
| AuthSlice.AuthStore.SetJwtSclice | src/store/authSlice.ts:26-28 | the new state is the reducer's, the token the encrypted payload |
| AuthSlice.AuthStore.ClearAuth | src/store/authSlice.ts:29-33 | the new state is the initial state |
| LoginPage.Digits | src/loginAndRegister/Login.tsx:170 | removing non-digits leaves only digits, never lengthens, and leaves an all-digit text as it is |
| LoginPage.DigitsAppend | src/loginAndRegister/Login.tsx:170 | removing non-digits works part by part on a concatenation |
| LoginPage.SanitizeOtp | src/loginAndRegister/Login.tsx:170 | the OTP kept is all digits, the first min(6, digit count) digits of the input, and a digit text of at most six is kept whole |
| LoginPage.SanitizeIdempotent | src/loginAndRegister/Login.tsx:170 | sanitising a sanitised OTP changes nothing |
| LoginPage.SanitizeIgnores | src/loginAndRegister/Login.tsx:170 | inserting non-digit characters anywhere does not change the OTP kept |
| LoginPage.DigitsOfNone | src/loginAndRegister/Login.tsx:170 | a text without digits is removed entirely |
| LoginPage.RouteFor | src/loginAndRegister/Login.tsx:76-83 | the route is /admin, /trainer or /member iff the message starts with ADMIN, TRAINER or MEMBER, and none iff none of them |
| LoginPage.PrefixesExclusive | src/loginAndRegister/Login.tsx:76-83 | no message starts with two role names, so the order of the tests is immaterial |
| LoginPage.RoleMustLead | src/loginAndRegister/Login.tsx:77 | a role name later in the message chooses no route |
| LoginPage.StaleSessionEmail | src/loginAndRegister/Login.tsx:34-41 | two successful sends to different addresses leave the first one in the session as written, the second with the correction |
| LoginPage.SessionEmailIsLastSent | src/loginAndRegister/Login.tsx:34-37 | with the correction the session email is the address of the last successful send |
| LoginPage.NoSuccessKeeps | src/loginAndRegister/Login.tsx:34-37 | sends that all failed leave the session email unchanged |
| LoginPage.FailedLoginStoresNothing | src/loginAndRegister/Login.tsx:64-74 | a failed login result carries neither a token nor a message, so nothing is stored and no route chosen |
| LoginPage.Page.constructor | src/loginAndRegister/Login.tsx:11-21 | the page starts with empty fields, nothing sent, no errors, no message and no route |
| LoginPage.Page.TypeEmail | src/loginAndRegister/Login.tsx:137 | typing sets the email and nothing else |
| LoginPage.Page.TypeOtp | src/loginAndRegister/Login.tsx:168-171 | typing sets the OTP to the sanitised text and nothing else |
| LoginPage.Page.HandleSendOtp | src/loginAndRegister/Login.tsx:26-41 | the send's result is the action's; the session email is set to the address iff this send succeeded and the previous one did not, which is `SessionEmailAsWritten` for one send |
| LoginPage.Page.HandleLogin | src/loginAndRegister/Login.tsx:55-86 | errors are shown and nothing else changes; a message clears the fields, stores the encrypted token iff one came, and sets the route iff the prefix names one |
| AdminHome.Decide | src/Admin/pages/AdminHomePage.tsx:79-111 | failure retries; a success ends the session iff the email changed, or else the status became INACTIVE; the email test first |
| AdminHome.KeepsSession | src/Admin/pages/AdminHomePage.tsx:79-103 | a success keeps the session iff neither the email nor the status changes to INACTIVE |
| AdminHome.EmailFirst | src/Admin/pages/AdminHomePage.tsx:80-88 | a change of both email and status is reported as the email change |
| AdminHome.StillInactive | src/Admin/pages/AdminHomePage.tsx:88 | saving an already inactive record keeps the session |
| AdminHome.Page.constructor | src/Admin/pages/AdminHomePage.tsx:15-25 | the page starts loading, with no administrator, form, error, notice or redirect |
| AdminHome.Page.FetchAdmin | src/Admin/pages/AdminHomePage.tsx:30-55 | without email or token an error and no change; a found record fills the page and form and sets the session name; a failure its message or the fallback |
| AdminHome.Assign | src/Admin/pages/AdminHomePage.tsx:67 | the field named takes the typed text (the age as text, id and status as present) and every other field is kept |
| AdminHome.AssignOverwrites | src/Admin/pages/AdminHomePage.tsx:67 | typing into a field again replaces the earlier text |
| AdminHome.AssignCommutes | src/Admin/pages/AdminHomePage.tsx:67 | edits to two different fields can be made in either order |
| AdminHome.AssignKeepsDecision | src/Admin/pages/AdminHomePage.tsx:67 | an edit to a field other than email and status never changes the session decision after an update |
| AdminHome.Page.Edit | src/Admin/pages/AdminHomePage.tsx:65-68 | an edit sets one field of the form's record, and applies only once the form holds a record |
| AdminHome.Page.HandleUpdate | src/Admin/pages/AdminHomePage.tsx:70-113 | no form or token does nothing; otherwise the action runs keyed by the pre-edit email and the page concludes as `Decide` says |
| AdminHome.Page.Conclude | src/Admin/pages/AdminHomePage.tsx:79-111 | ending clears the session and redirects to '/', keeping closes the form, retrying reopens it with the loaded record |

## Findings

| source | as written | input that shows it | evidently intended | confidence | as-written member | corrected member |
|---|---|---|---|---|---|---|
| src/loginAndRegister/Login.tsx:34-41 | the effect that stores the email in the session depends only on `formState.success`, so it does not run again when a send succeeds right after another success | send an OTP to a@gym.com (success), change the email field to b@gym.com, send again (success): the session keeps a@gym.com and the home page later loads a@gym.com | every successful send records the address it was sent to | not executed | LoginPage.SessionEmailAsWritten, shown by LoginPage.StaleSessionEmail | LoginPage.SessionEmail, proved by LoginPage.SessionEmailIsLastSent; LoginPage.Page.HandleSendOtp keeps the page's behaviour and is tied to the as-written rule |

## Left out

- Network I/O: every axios call is replaced by its outcome as an input, and the request it would send is returned for inspection. The backend URL is the symbolic `Backend(path)`.
- Float arithmetic: `Number` is exact on reals, so rounding, overflow to infinity and underflow of very long numerals are not modelled.
- NumberText.DecimalText does not model `toString`'s exponent notation for numbers of 10^21 and above or below 10^-6, nor float rounding of long numerals.
- The email format of zod is an abstract parameter. The AES routines `encryptJWT` and `decryptJWT` are abstract too: encryption is a parameter, and the decrypted token is an input that may be "".
- AuthSlice.Reduce: `encrypt` is a function, so the model encrypts the same token to the same text. `CryptoJS.AES.encrypt` with a passphrase (src/cryptoUtils.ts:6) picks a fresh salt on each call, so its output is randomised; no contract depends on the ciphertext beyond its being an encryption.
- LoginPage.Page.TypeOtp: the field's `maxLength: 6` (src/loginAndRegister/Login.tsx:177) is not modelled. The browser cuts the typed or pasted text to six characters before `onChange` sees it, so "12-34-56" keeps "1234" on the page, where the model keeps "123456". LoginPage.SanitizeIgnores is a fact about the sanitiser alone.
- UpdateAdmin.Validate: the record's phone is text only. The schema's `z.coerce.string()` (src/actions/admin/update-admin-action.ts:15-16) would also take a numeric phone from the server, check `String(n)` and send the number unchanged; the `Admin` type (src/types.ts:5) declares the phone a string, and `String` of a number is not modelled.
- `Date.now()` is an input `now`.
- The timers of the administrator's home page are collapsed. The session clear, the redirect to '/' and the closing of the form happen at once, and the notice stays set instead of hiding.
- LoginPage.Page.HandleLogin: the login page's timers (src/loginAndRegister/Login.tsx:88-106) are dropped, not applied. `loginErrors` keeps the errors `handleLogin` showed, where the page clears them after 3 seconds. `loginSuccess` keeps the message, where the page clears it after 2 seconds. `redirectPath` keeps the route and stands for the pending `navigate(redirectPath)`, after which the page resets it to null.
- Loading and submitting spinners (`isSending`, `isLoggingIn`, `isSubmitting`), the visible-error copies of the send form and of the administrator's home page (`visibleErrors`, cleared after 3 seconds, src/Admin/pages/AdminHomePage.tsx:25,57-63), and the OTP success banner are left out.
- `findAdminByEmail` and the other single-call fetchers are left out; their result is an input to `AdminHome.Page.FetchAdmin`.
- Redux persistence, the presentation components and the types file are left out; the types file is used for the datatypes.
- zod's own error texts are written out as constants: the default enum message and the first message for an empty email.
