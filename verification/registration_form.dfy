/** The employee registration form: its field schema with the password
    confirmation rule, the CPF input sanitiser, the two ways of entering the
    birth date (typed text and calendar), and the submit / success / reset
    cycle. The form only reports the data it accepted; it stores nothing. */
module RegistrationForm {
  import opened Common
  import opened DateText

  datatype RegistrationValues = RegistrationValues(
    name: string,
    cpf: string,
    birthDate: Option<CalendarDate>,
    birthDateInput: string,
    email: string,
    position: string,
    username: string,
    password: string,
    confirmPassword: string)

  /** The form's default values; the birth date starts unset. */
  const DefaultValues := RegistrationValues("", "", None, "", "", "", "", "", "")

  datatype RegField = Name | Cpf | BirthDate | Email | Position | Username | Password | ConfirmPassword

  /** The fields bound directly to a text input. */
  type TextField = f: RegField | f != Cpf && f != BirthDate witness Name

  /** The checks of the schema, each with the field its issue is attached
      to and the message shown there. */
  datatype RegCheck =
    | NameMin | CpfLength | CpfDigits | BirthDateRequired | EmailFormat
    | PositionMin | UsernameMin | UsernamePattern | PasswordMin | PasswordsMatch
  {
    function Field(): (f: RegField)
    {
      match this
      case NameMin => Name
      case CpfLength | CpfDigits => Cpf
      case BirthDateRequired => BirthDate
      case EmailFormat => Email
      case PositionMin => Position
      case UsernameMin | UsernamePattern => Username
      case PasswordMin => Password
      case PasswordsMatch => ConfirmPassword
    }

    function Message(): (m: string)
    {
      match this
      case NameMin => "Nome deve ter pelo menos 2 caracteres"
      case CpfLength => "CPF deve ter exatamente 11 dígitos"
      case CpfDigits => "CPF deve conter apenas números"
      case BirthDateRequired => "Data de nascimento é obrigatória"
      case EmailFormat => "Email inválido"
      case PositionMin => "Cargo é obrigatório"
      case UsernameMin => "Nome de usuário deve ter pelo menos 3 caracteres"
      case UsernamePattern => "Nome de usuário deve conter apenas letras, números e underscore"
      case PasswordMin => "Senha deve ter pelo menos 6 caracteres"
      case PasswordsMatch => "As senhas não coincidem"
    }

    /** The position of the check in the order the schema runs them. */
    function Rank(): (r: nat)
    {
      match this
      case NameMin => 0
      case CpfLength => 1
      case CpfDigits => 2
      case BirthDateRequired => 3
      case EmailFormat => 4
      case PositionMin => 5
      case UsernameMin => 6
      case UsernamePattern => 7
      case PasswordMin => 8
      case PasswordsMatch => 9
    }
  }

  /** The class `[a-zA-Z0-9_]`. */
  predicate IsUsernameChar(c: char)
  {
    'a' <= c <= 'z' || 'A' <= c <= 'Z' || '0' <= c <= '9' || c == '_'
  }

  /** `^\d+$`: one or more digits. */
  predicate MatchesDigits(s: string)
  {
    |s| > 0 && AllDigits(s)
  }

  /** `^[a-zA-Z0-9_]+$`. */
  predicate MatchesUsernamePattern(s: string)
  {
    |s| > 0 && forall i | 0 <= i < |s| :: IsUsernameChar(s[i])
  }

  /** The rules of the schema, stated field by field. */
  predicate Acceptable(v: RegistrationValues)
  {
    |v.name| >= 2
    && |v.cpf| == 11 && AllDigits(v.cpf)
    && v.birthDate.Some?
    && IsEmail(v.email)
    && |v.position| >= 2
    && |v.username| >= 3 && (forall i | 0 <= i < |v.username| :: IsUsernameChar(v.username[i]))
    && |v.password| >= 6
    && v.password == v.confirmPassword
  }

  /** The checks in the order the schema runs them: field by field, then
      the refinement that compares the two passwords. */
  const AllChecks: seq<RegCheck> := [
    NameMin, CpfLength, CpfDigits, BirthDateRequired, EmailFormat,
    PositionMin, UsernameMin, UsernamePattern, PasswordMin, PasswordsMatch
  ]

  /** Whether check `c` fails on `v`. Every string check of a field runs, so
      a field may fail two checks. A missing birth date is a type error, and
      the schema library does not run an object's refinement after a type
      error, so the password comparison fails only when a birth date is
      present. */
  predicate Fails(v: RegistrationValues, c: RegCheck)
  {
    match c
    case NameMin => |v.name| < 2
    case CpfLength => |v.cpf| != 11
    case CpfDigits => !MatchesDigits(v.cpf)
    case BirthDateRequired => v.birthDate.None?
    case EmailFormat => !IsEmail(v.email)
    case PositionMin => |v.position| < 2
    case UsernameMin => |v.username| < 3
    case UsernamePattern => !MatchesUsernamePattern(v.username)
    case PasswordMin => |v.password| < 6
    case PasswordsMatch => v.birthDate.Some? && v.password != v.confirmPassword
  }

  /** The checks of `s` appear in the order the schema runs them, each at
      most once. */
  predicate InRankOrder(s: seq<RegCheck>)
  {
    forall i, j | 0 <= i < j < |s| :: s[i].Rank() < s[j].Rank()
  }

  /** The checks of `checks` that fail on `v`, in their order. */
  function Failing(v: RegistrationValues, checks: seq<RegCheck>): (r: seq<RegCheck>)
    ensures forall c :: c in r <==> c in checks && Fails(v, c)
    ensures |r| <= |checks|
  {
    if checks == [] then []
    else (if Fails(v, checks[0]) then [checks[0]] else []) + Failing(v, checks[1..])
  }

  /** Filtering keeps the order of the list it filters. */
  lemma {:induction false} FailingKeepsOrder(v: RegistrationValues, checks: seq<RegCheck>)
    requires InRankOrder(checks)
    ensures InRankOrder(Failing(v, checks))
  {
    if checks != [] {
      var tail := checks[1..];
      forall i, j | 0 <= i < j < |tail| ensures tail[i].Rank() < tail[j].Rank() {
        assert tail[i] == checks[i + 1] && tail[j] == checks[j + 1];
      }
      FailingKeepsOrder(v, tail);
      var rest := Failing(v, tail);
      forall c | c in rest ensures checks[0].Rank() < c.Rank() {
        var k :| 0 <= k < |tail| && tail[k] == c;
        assert checks[k + 1] == c;
      }
    }
  }

  /** The check list holds every check, each at the position of its rank. */
  lemma EveryCheckListed()
    ensures forall c: RegCheck :: c.Rank() < |AllChecks| && AllChecks[c.Rank()] == c
  {
  }

  /** Every check is in the check list. */
  lemma ChecksCovered()
    ensures forall c: RegCheck :: c in AllChecks
  {
    EveryCheckListed();
    forall c: RegCheck ensures c in AllChecks {
      assert AllChecks[c.Rank()] == c;
    }
  }

  /** The check list is in the order the schema runs the checks. */
  lemma AllChecksInOrder()
    ensures InRankOrder(AllChecks)
  {
  }

  /** The rules hold exactly when no check fails. */
  lemma AcceptableIffNoCheckFails(v: RegistrationValues)
    ensures Acceptable(v) <==> forall c: RegCheck :: !Fails(v, c)
  {
    if !Acceptable(v) {
      var c :=
        if |v.name| < 2 then NameMin
        else if |v.cpf| != 11 then CpfLength
        else if !AllDigits(v.cpf) then CpfDigits
        else if v.birthDate.None? then BirthDateRequired
        else if !IsEmail(v.email) then EmailFormat
        else if |v.position| < 2 then PositionMin
        else if |v.username| < 3 then UsernameMin
        else if !MatchesUsernamePattern(v.username) then UsernamePattern
        else if |v.password| < 6 then PasswordMin
        else PasswordsMatch;
      assert Fails(v, c);
    }
  }

  /** The issues the schema reports for `v`: exactly the failing checks,
      and none exactly when `v` obeys every rule. */
  function RegistrationIssues(v: RegistrationValues): (issues: seq<RegCheck>)
    ensures forall c :: c in issues <==> Fails(v, c)
    ensures issues == [] <==> Acceptable(v)
  {
    ChecksCovered();
    AcceptableIffNoCheckFails(v);
    var issues := Failing(v, AllChecks);
    assert issues != [] ==> issues[0] in issues;
    issues
  }

  /** The schema reports its issues in the order it runs the checks. */
  lemma IssuesInSchemaOrder(v: RegistrationValues)
    ensures InRankOrder(RegistrationIssues(v))
  {
    AllChecksInOrder();
    FailingKeepsOrder(v, AllChecks);
  }

  /** The issue a field's message shows: the first one reported on it. */
  function ShownIssue(issues: seq<RegCheck>, f: RegField): (r: Option<RegCheck>)
    ensures r.None? <==> forall c | c in issues :: c.Field() != f
    ensures r.Some? ==> r.value in issues && r.value.Field() == f
  {
    if issues == [] then None
    else if issues[0].Field() == f then Some(issues[0])
    else ShownIssue(issues[1..], f)
  }

  /** In a list kept in schema order, a field shows its earliest-running
      failing check. */
  lemma {:induction false} ShownIssueIsEarliest(issues: seq<RegCheck>, f: RegField, c: RegCheck)
    requires InRankOrder(issues)
    requires c in issues && c.Field() == f
    requires forall d | d in issues && d.Field() == f :: c.Rank() <= d.Rank()
    ensures ShownIssue(issues, f) == Some(c)
  {
    if issues[0] != c {
      var tail := issues[1..];
      var k :| 0 <= k < |tail| && tail[k] == c;
      assert issues[k + 1] == c;
      assert issues[0].Field() != f;
      forall i, j | 0 <= i < j < |tail| ensures tail[i].Rank() < tail[j].Rank() {
        assert tail[i] == issues[i + 1] && tail[j] == issues[j + 1];
      }
      ShownIssueIsEarliest(tail, f, c);
    }
  }

  /** The CPF message: a wrong length is shown before non-digits, so an
      empty CPF shows the length message. */
  lemma CpfIssueShown(v: RegistrationValues)
    ensures ShownIssue(RegistrationIssues(v), Cpf) ==
      if |v.cpf| != 11 then Some(CpfLength)
      else if !MatchesDigits(v.cpf) then Some(CpfDigits)
      else None
  {
    IssuesInSchemaOrder(v);
    FieldShowsEarliest(RegistrationIssues(v), Cpf, CpfLength, CpfDigits);
  }

  /** The username message: a short name is shown before a bad character. */
  lemma UsernameIssueShown(v: RegistrationValues)
    ensures ShownIssue(RegistrationIssues(v), Username) ==
      if |v.username| < 3 then Some(UsernameMin)
      else if !MatchesUsernamePattern(v.username) then Some(UsernamePattern)
      else None
  {
    IssuesInSchemaOrder(v);
    FieldShowsEarliest(RegistrationIssues(v), Username, UsernameMin, UsernamePattern);
  }

  /** A field with two checks, `first` running before `second`, shows the
      first one reported. */
  lemma FieldShowsEarliest(issues: seq<RegCheck>, f: RegField, first: RegCheck, second: RegCheck)
    requires InRankOrder(issues)
    requires first.Rank() < second.Rank()
    requires forall c: RegCheck :: c.Field() == f <==> c == first || c == second
    ensures ShownIssue(issues, f) ==
      if first in issues then Some(first)
      else if second in issues then Some(second)
      else None
  {
    if first in issues {
      forall d | d in issues && d.Field() == f ensures first.Rank() <= d.Rank() {
        assert d == first || d == second;
      }
      ShownIssueIsEarliest(issues, f, first);
    } else if second in issues {
      forall d | d in issues && d.Field() == f ensures d == second {
        assert d == first || d == second;
      }
      ShownIssueIsEarliest(issues, f, second);
    } else {
      forall d | d in issues ensures d.Field() != f {
        assert d != first && d != second;
      }
    }
  }

  /** A confirmation that differs from the password always blocks the
      submission; once the other fields are well typed its issue is
      reported, on the confirmation field; the rule is never reported
      against any other field. */
  lemma MismatchBlocksSubmission(v: RegistrationValues)
    requires v.password != v.confirmPassword
    ensures RegistrationIssues(v) != []
    ensures v.birthDate.Some? ==> PasswordsMatch in RegistrationIssues(v)
    ensures forall c | c in RegistrationIssues(v) :: c.Field() == ConfirmPassword <==> c == PasswordsMatch
  {
  }

  /** Equal passwords never raise the confirmation issue. */
  lemma MatchingPasswordsPass(v: RegistrationValues)
    requires v.password == v.confirmPassword
    ensures forall c | c in RegistrationIssues(v) :: c.Field() != ConfirmPassword
  {
  }

  /** `value.replace(/\D/g, '')`: the digits of `s`, in order. */
  function StripNonDigits(s: string): (r: string)
    ensures AllDigits(r) && |r| <= |s|
    ensures !AllDigits(s) ==> |r| < |s|
  {
    if s == [] then []
    else (if IsDigit(s[0]) then [s[0]] else []) + StripNonDigits(s[1..])
  }

  /** Stripping distributes over concatenation. */
  lemma {:induction false} StripConcat(a: string, b: string)
    ensures StripNonDigits(a + b) == StripNonDigits(a) + StripNonDigits(b)
  {
    if a == [] {
      assert a + b == b;
    } else {
      var head := if IsDigit(a[0]) then [a[0]] else [];
      assert (a + b)[0] == a[0] && (a + b)[1..] == a[1..] + b;
      StripConcat(a[1..], b);
      calc {
        StripNonDigits(a + b);
        head + StripNonDigits(a[1..] + b);
        head + (StripNonDigits(a[1..]) + StripNonDigits(b));
        (head + StripNonDigits(a[1..])) + StripNonDigits(b);
        StripNonDigits(a) + StripNonDigits(b);
      }
    }
  }

  /** Text made of digits only is left as it is, and only such text is. */
  lemma {:induction false} StripFixedIffDigits(s: string)
    ensures StripNonDigits(s) == s <==> AllDigits(s)
  {
    if s != [] && AllDigits(s) {
      assert AllDigits(s[1..]);
      StripFixedIffDigits(s[1..]);
    }
  }

  /** Stripping twice is stripping once. */
  lemma StripIdempotent(s: string)
    ensures StripNonDigits(StripNonDigits(s)) == StripNonDigits(s)
  {
    StripFixedIffDigits(StripNonDigits(s));
  }

  /** Every CPF value the input can hold: digits only, at most eleven. */
  predicate CpfInputShape(cpf: string)
  {
    AllDigits(cpf) && |cpf| <= 11
  }

  /** The text shown in the birth-date input: the typed text when there is
      any, otherwise the selected date rendered as `dd/MM/yyyy`. */
  function DisplayedBirthDate(v: RegistrationValues): (shown: string)
    ensures v.birthDateInput != "" ==> shown == v.birthDateInput
    ensures v.birthDateInput == "" ==> (shown == "" <==> v.birthDate.None?)
    ensures v.birthDateInput == "" && v.birthDate.Some? ==> Parse(shown) == v.birthDate
  {
    if v.birthDateInput != "" then v.birthDateInput
    else match v.birthDate
      case None => ""
      case Some(d) => ParseFormat(d); Format(d)
  }

  datatype Phase =
    | Idle
    | Saving(data: RegistrationValues)   // the simulated request is pending
    | Succeeded                          // the confirmation view is shown

  /** The registration component's state. */
  class RegistrationFormState {
    var values: RegistrationValues
    var isSubmitting: bool
    var submitSuccess: bool
    var phase: Phase

    ghost predicate Valid()
      reads this
    {
      CpfInputShape(values.cpf)
      && (isSubmitting <==> phase.Saving?)
      && (submitSuccess <==> phase.Succeeded?)
      && (phase.Saving? ==> Acceptable(phase.data))
    }

    constructor ()
      ensures Valid()
      ensures values == DefaultValues && !isSubmitting && !submitSuccess && phase == Idle
    {
      values := DefaultValues;
      isSubmitting := false;
      submitSuccess := false;
      phase := Idle;
    }

    /** Typing into one of the inputs bound straight to its field. */
    method SetText(field: TextField, text: string)
      requires Valid()
      modifies this
      ensures Valid()
      ensures isSubmitting == old(isSubmitting) && submitSuccess == old(submitSuccess)
      ensures phase == old(phase)
      ensures values == match field
        case Name => old(values).(name := text)
        case Email => old(values).(email := text)
        case Position => old(values).(position := text)
        case Username => old(values).(username := text)
        case Password => old(values).(password := text)
        case ConfirmPassword => old(values).(confirmPassword := text)
    {
      match field
      case Name => values := values.(name := text);
      case Email => values := values.(email := text);
      case Position => values := values.(position := text);
      case Username => values := values.(username := text);
      case Password => values := values.(password := text);
      case ConfirmPassword => values := values.(confirmPassword := text);
    }

    /** The CPF input: non-digits are removed, and the result replaces the
        field only when it has at most eleven digits. */
    method ChangeCpf(raw: string)
      requires Valid()
      modifies this
      ensures Valid()
      ensures isSubmitting == old(isSubmitting) && submitSuccess == old(submitSuccess)
      ensures phase == old(phase)
      ensures |StripNonDigits(raw)| <= 11 ==> values == old(values).(cpf := StripNonDigits(raw))
      ensures |StripNonDigits(raw)| > 11 ==> values == old(values)
    {
      var digits := StripNonDigits(raw);
      if |digits| <= 11 {
        values := values.(cpf := digits);
      }
    }

    /** Typing into the birth-date input: the text is always kept; the date
        changes only when the text is non-empty and names a real day. */
    method ChangeBirthDateText(text: string)
      requires Valid()
      modifies this
      ensures Valid()
      ensures isSubmitting == old(isSubmitting) && submitSuccess == old(submitSuccess)
      ensures phase == old(phase)
      ensures values.birthDateInput == text
      ensures text != "" && Parse(text).Some? ==> values.birthDate == Parse(text)
      ensures text == "" || Parse(text).None? ==> values.birthDate == old(values).birthDate
      ensures values == old(values).(birthDateInput := text, birthDate := values.birthDate)
    {
      values := values.(birthDateInput := text);
      if text != "" {
        var parsed := Parse(text);
        if parsed.Some? {
          values := values.(birthDate := parsed);
        }
      }
    }

    /** Picking in the calendar: the date is replaced (or cleared), and a
        picked date is also written into the text input, where it reads back
        as the same date. */
    method SelectDate(date: Option<CalendarDate>)
      requires Valid()
      modifies this
      ensures Valid()
      ensures isSubmitting == old(isSubmitting) && submitSuccess == old(submitSuccess)
      ensures phase == old(phase)
      ensures values.birthDate == date
      ensures date.Some? ==> values.birthDateInput == Format(date.value)
      ensures date.Some? ==> Parse(values.birthDateInput) == date
      ensures date.None? ==> values.birthDateInput == old(values).birthDateInput
      ensures values == old(values).(birthDate := date, birthDateInput := values.birthDateInput)
    {
      values := values.(birthDate := date);
      if date.Some? {
        values := values.(birthDateInput := Format(date.value));
        ParseFormat(date.value);
      }
    }

    /** A submit event while the form is idle (the button is disabled while
        submitting, and the confirmation view replaces the form). */
    method Submit() returns (issues: seq<RegCheck>)
      requires Valid() && phase == Idle
      modifies this
      ensures Valid() && values == old(values) && !submitSuccess
      ensures issues == RegistrationIssues(values)
      ensures issues != [] ==> !isSubmitting && phase == Idle
      ensures issues == [] ==> isSubmitting && phase == Saving(values)
    {
      issues := RegistrationIssues(values);
      if issues == [] {
        isSubmitting := true;
        phase := Saving(values);
      }
    }

    /** The first timer fires: the accepted data is reported and the
        confirmation view is shown. */
    method Saved() returns (data: RegistrationValues)
      requires Valid() && phase.Saving?
      modifies this
      ensures Valid() && values == old(values)
      ensures data == old(phase).data && Acceptable(data)
      ensures data.password == data.confirmPassword
      ensures !isSubmitting && submitSuccess && phase == Succeeded
    {
      data := phase.data;
      isSubmitting := false;
      submitSuccess := true;
      phase := Succeeded;
    }

    /** The second timer fires: every field goes back to its default and
        the confirmation view closes. */
    method ResetAfterSuccess()
      requires Valid() && phase == Succeeded
      modifies this
      ensures Valid()
      ensures values == DefaultValues && !isSubmitting && !submitSuccess && phase == Idle
    {
      values := DefaultValues;
      submitSuccess := false;
      phase := Idle;
    }
  }
}
