# Point Maker authentication forms, modelled in Dafny

Point Maker is a client-side mockup of an employee time-clock product. Its
only logic sits in its three authentication forms. This project models them:

- **Login** (`LoginForm`). A schema requires a non-empty username and
  password. A lookup then runs over the fixed list of demo accounts
  (`demo`, `admin`, `GABRIEL_SANTOS`). It takes the first record whose
  username is exactly the submitted one, and produces one of three
  outcomes: user not found, incorrect password, or success with navigation
  to `/dashboard`. The form state is `isSubmitting`, `loginError` and the
  navigation.
- **Registration** (`RegistrationForm`). A field schema checks name,
  position, e-mail, CPF (the Brazilian taxpayer number: eleven digits), username,
  password, a required birth date and a rule that the password
  confirmation equals the password. The CPF input strips non-digits. The
  birth date can be typed as `dd/MM/yyyy` or picked in a calendar. A
  submission goes from idle to submitting, then success, then back to the
  default values.
- **Recovery** (`RecoveryForm`). An e-mail schema. The simulated request
  fails for `nonexistent@example.com` only. Any other accepted address
  moves the form to a terminal "e-mail sent" view.
- **Date text** (`DateText`). The `dd/MM/yyyy` rendering and parsing that
  the birth-date input relies on, with the Gregorian calendar rule.

Each form is a Dafny class. Its fields are the component's state
variables. Its methods are the events that change them: submission, the
firing of a simulated-latency timer, and input changes. Each delay is an
explicit method call (`Resolve`, `Saved`, `ResetAfterSuccess`), not a
length of time. Toasts and logging are left out. Navigation is kept only
as a value (`navigatedTo`). The decisions, schemas and sanitisers are pure
functions, and the properties are lemmas and contracts about them.

Two behaviours of the code shape the model:

- There is no store of registered users. The registration form only logs
  the accepted data (RegistrationForm.tsx:85), and login looks only at the
  demo list (LoginForm.tsx:64). So the model has no store.
- An over-long CPF is not truncated. When the stripped text has more than
  eleven digits, the previous value is kept (RegistrationForm.tsx:105-108).

One behaviour comes from the schema library rather than the form. The
library does not run an object-level refinement once a field has a type
error. In this form only a missing birth date is a type error. So the
password-mismatch issue is reported only when a birth date is set (see
`Fails`). A mismatch still blocks submission in every case.

## Model

| member | source | states |
|---|---|---|
| LoginForm.LoginIssues | src/components/LoginForm.tsx:23-26 | the login schema rejects a values pair exactly when the username or the password is empty, naming each empty field |
| LoginForm.FindUser | src/components/LoginForm.tsx:64 | the lookup yields None exactly when no record has the username, and otherwise the position of the first record whose username is exactly equal to it |
| LoginForm.Decide | src/components/LoginForm.tsx:64-76 | not found exactly when no record has the username; incorrect password exactly when the first matching record's password differs; success exactly when it is equal |
| LoginForm.LoggedInIffListed | src/components/LoginForm.tsx:64-86 | for a list with distinct usernames, a login succeeds exactly when the username/password pair is one of the records |
| LoginForm.ListedNameWrongPassword | src/components/LoginForm.tsx:73-76 | a listed username with a different password gives "incorrect password", never "not found" |
| LoginForm.MockLogin | src/components/LoginForm.tsx:31-36 | over the demo accounts exactly the three listed pairs log in, and `DEMO`, `Demo` and `gabriel_santos` are not found (the comparison is case-sensitive) |
| LoginForm.LoginFormState.constructor | src/components/LoginForm.tsx:39-40 | the form starts not submitting, with no error and no navigation |
| LoginForm.LoginFormState.Submit | src/components/LoginForm.tsx:54-56 | the schema runs first; rejected values change nothing; accepted values set `isSubmitting`, clear the previous error and schedule the request |
| LoginForm.LoginFormState.Resolve | src/components/LoginForm.tsx:59-87 | `isSubmitting` becomes false on every branch; the outcome is the decision over the demo accounts; not found and wrong password set their own messages without navigating; success navigates to `/dashboard` with no error; exactly one of error and navigation is set |
| RegistrationForm.Failing | src/components/RegistrationForm.tsx:30-55 | the reported checks are exactly the failing ones among those listed, and never more than are listed |
| RegistrationForm.FailingKeepsOrder | src/components/RegistrationForm.tsx:30-55 | when the listed checks are in the order the schema runs them, so are the reported ones |
| RegistrationForm.EveryCheckListed | src/components/RegistrationForm.tsx:30-55 | the check list holds every check of the schema, each at its position in the schema order |
| RegistrationForm.AllChecksInOrder | src/components/RegistrationForm.tsx:30-55 | the check list is in the order the schema runs the checks: field by field, then the password comparison |
| RegistrationForm.AcceptableIffNoCheckFails | src/components/RegistrationForm.tsx:30-55 | the per-check failures agree with the field rules: all rules hold exactly when no check fails |
| RegistrationForm.RegistrationIssues | src/components/RegistrationForm.tsx:30-55 | the schema reports exactly the failing checks; it reports none exactly when name and position have at least 2 characters, the CPF is exactly 11 digits, a birth date is set, the e-mail is well formed, the username has at least 3 characters from `[A-Za-z0-9_]`, the password has at least 6 characters and the confirmation equals it |
| RegistrationForm.IssuesInSchemaOrder | src/components/RegistrationForm.tsx:30-55 | the schema reports its issues in the order it runs the checks: field by field, then the password comparison |
| RegistrationForm.ShownIssue | src/components/RegistrationForm.tsx:188 | a field's message shows nothing exactly when no issue is reported on that field, and otherwise an issue reported on it |
| RegistrationForm.ShownIssueIsEarliest | src/components/RegistrationForm.tsx:66 | in issues kept in schema order, a field shows its reported check that runs first |
| RegistrationForm.FieldShowsEarliest | src/components/RegistrationForm.tsx:66 | a field with two checks shows the earlier one when it is reported, else the later one when that is, else nothing |
| RegistrationForm.CpfIssueShown | src/components/RegistrationForm.tsx:31-34 | the CPF field shows the length message whenever the CPF is not 11 characters long (so an empty CPF shows it), the digits message when it has 11 characters that are not all digits, and nothing otherwise |
| RegistrationForm.UsernameIssueShown | src/components/RegistrationForm.tsx:41-46 | the username field shows the length message when the name is shorter than 3, the character-class message when it is long enough but has another character, and nothing otherwise |
| RegistrationForm.MismatchBlocksSubmission | src/components/RegistrationForm.tsx:52-55 | a confirmation different from the password always yields issues; with a birth date set it yields the mismatch issue; the only check attached to `confirmPassword` is the mismatch |
| RegistrationForm.MatchingPasswordsPass | src/components/RegistrationForm.tsx:52-55 | equal password and confirmation raise no issue on `confirmPassword` |
| RegistrationForm.StripNonDigits | src/components/RegistrationForm.tsx:105 | the stripped text is all digits and no longer than the input, and strictly shorter when the input held a non-digit |
| RegistrationForm.StripConcat | src/components/RegistrationForm.tsx:105 | stripping text made of two parts is stripping each part and joining the results |
| RegistrationForm.StripFixedIffDigits | src/components/RegistrationForm.tsx:105 | stripping leaves a text unchanged exactly when it is all digits |
| RegistrationForm.StripIdempotent | src/components/RegistrationForm.tsx:105 | stripping twice equals stripping once |
| RegistrationForm.DisplayedBirthDate | src/components/RegistrationForm.tsx:205 | the input shows the typed text when there is any; otherwise it is empty exactly when no date is set, and a shown date parses back to the date held |
| RegistrationForm.RegistrationFormState.constructor | src/components/RegistrationForm.tsx:60-77 | the form starts with the default (empty) values, not submitting and not in the success view; the CPF invariant holds |
| RegistrationForm.RegistrationFormState.SetText | src/components/RegistrationForm.tsx:152-340 | typing into a plain input sets that field only |
| RegistrationForm.RegistrationFormState.ChangeCpf | src/components/RegistrationForm.tsx:104-109 | the CPF becomes the input without non-digits when that has at most 11 characters, and is unchanged otherwise; nothing else changes, and the CPF stays all digits with at most 11 characters |
| RegistrationForm.RegistrationFormState.ChangeBirthDateText | src/components/RegistrationForm.tsx:112-127 | the raw text is always stored; the date becomes the parsed date only when the text is non-empty and parses; otherwise (empty or invalid text) the previous date is kept; nothing else changes |
| RegistrationForm.RegistrationFormState.SelectDate | src/components/RegistrationForm.tsx:226-231 | the date becomes the picked value; a picked date is also written as `dd/MM/yyyy` text that parses back to it; clearing keeps the text |
| RegistrationForm.RegistrationFormState.Submit | src/components/RegistrationForm.tsx:80-82 | the schema result is returned; rejected values change nothing; accepted values set `isSubmitting` and schedule the request with exactly those values |
| RegistrationForm.RegistrationFormState.Saved | src/components/RegistrationForm.tsx:84-94 | `isSubmitting` becomes false and `submitSuccess` true; the data handed on satisfies every rule, including equal password and confirmation |
| RegistrationForm.RegistrationFormState.ResetAfterSuccess | src/components/RegistrationForm.tsx:96-99 | all fields return to their defaults and `submitSuccess` becomes false, back to idle |
| RecoveryForm.RecoveryIssues | src/components/RecoveryForm.tsx:24-29 | an address passes exactly when it is non-empty and well formed; an empty address fails both checks |
| RecoveryForm.UnknownEmailPassesSchema | src/components/RecoveryForm.tsx:58 | the sentinel `nonexistent@example.com` passes the schema, so it reaches the decision |
| RecoveryForm.EmptyEmailRejected | src/components/RecoveryForm.tsx:24-29 | the empty address is rejected as both missing and malformed |
| RecoveryForm.RecoveryFormState.constructor | src/components/RecoveryForm.tsx:34-36 | the form starts not submitting, with no error and not sent |
| RecoveryForm.RecoveryFormState.Submit | src/components/RecoveryForm.tsx:48-50 | the schema runs first; rejected addresses change nothing; accepted ones set `isSubmitting`, clear the previous error and schedule the request |
| RecoveryForm.RecoveryFormState.Resolve | src/components/RecoveryForm.tsx:53-70 | `isSubmitting` becomes false on both branches; the result is "not found" exactly for the sentinel, which sets the error and leaves `recoverySuccess` false; any other address sets `recoverySuccess` with no error |
| RecoveryForm.SentIsTerminal | src/components/RecoveryForm.tsx:73-88 | once `recoverySuccess` holds no request is pending and the form is not submitting, so no event can reset it |
| DateText.ParseFieldText | src/components/RegistrationForm.tsx:119-120 | zero-padded `dd/MM/yyyy` text is accepted exactly when it names a real calendar day in years 1 to 9999, and then as that day |
| DateText.ParseRejectsYearZero | src/components/RegistrationForm.tsx:119-120 | any `dd/MM/0000` text is rejected, as the date library's year parser refuses year zero |
| DateText.ParseFormat | src/components/RegistrationForm.tsx:229 | every date written into the input as `dd/MM/yyyy` parses back to the same date |
| DateText.ParseRejectsFebruary31 | src/components/RegistrationForm.tsx:119-120 | `31/02/yyyy` is rejected in every year |
| DateText.ParseLeapDay | src/components/RegistrationForm.tsx:119-120 | for years 1 to 9999, `29/02/yyyy` is accepted exactly when the year is a leap year |

## Left out

- Rendering, styling, toasts, `console.log` and the form-library wiring are
  not modelled. Navigation is recorded only as the route value.
- The simulated latencies (1000, 1500 and 3000 ms) are explicit method
  calls. Time is not modelled.
- A timer that fires after the component has unmounted is not modelled.
- Submit methods require an idle form. The submit buttons are disabled
  while `isSubmitting` holds (LoginForm.tsx:150, RecoveryForm.tsx:130,
  RegistrationForm.tsx:349). The success views replace the forms
  (RegistrationForm.tsx:129, RecoveryForm.tsx:73). Login navigates away on
  success. So no second submission can overlap a pending one.
- The e-mail format check of the schema library is not visible.
  `Common.IsEmail` is a stand-in: exactly one `@`, a non-empty local part,
  and a domain with an inner dot. Only `UnknownEmailPassesSchema`,
  `EmptyEmailRejected` (which needs the empty address to be malformed, as
  it is for the library's check) and the registration `email` rule depend
  on it.
- The date library's `parse`/`isValid`/`format` are not visible.
  `DateText.Parse` is a stand-in. It reads fields of one or two digits
  (day, month) and one to four digits (year) greedily, separated by `/`,
  with nothing after the year, and checks the Gregorian calendar. Year
  zero is rejected, as by the library's year parser. Years above 9999
  are outside `CalendarDate`. The picker cannot offer them
  anyway: it disables dates after today. Any further leniency of the
  library (trailing whitespace, for one) is not modelled. The birth-date
  handler's contract is stated in terms of `Parse`, whatever it accepts.
- The calendar's disabled-date rule (RegistrationForm.tsx:232-234) is not
  modelled, because it depends on the current date.
- The schema's length checks count UTF-16 code units. The model counts
  characters, so the two differ only for characters outside the Basic
  Multilingual Plane.
- The browser's `maxLength={11}` on the CPF input (RegistrationForm.tsx:181)
  is not modelled. `ChangeCpf` accepts raw text of any length.
- The pages, the dashboard, the layout and the logo are pure presentation
  with static data, and are not part of this model.
