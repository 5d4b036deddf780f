/** The user sign-up screen: its form, its error flags, its validation chain
    and the payload it hands to `signUp`. */
module Register {
  import opened Wrappers
  import opened Text
  import opened Records
  import opened Validators
  import opened Chain
  import Auth

  datatype RegisterForm = RegisterForm(cpf: string, nome: string, email: string, telefone: string,
                                       senha: string, confirmarSenha: string, role: string)

  datatype RegisterErrors = RegisterErrors(cpf: bool, nome: bool, email: bool, senha: bool, confirmarSenha: bool)

  datatype FormField = Cpf | Nome | Email | Telefone | Senha | ConfirmarSenha | Role

  /** The checks of `handleRegister`, in the order they run. */
  datatype Check = CpfCheck | NameCheck | EmailCheck | PasswordCheck | ConfirmCheck

  const CheckOrder: seq<Check> := [CpfCheck, NameCheck, EmailCheck, PasswordCheck, ConfirmCheck]

  predicate Fails(form: RegisterForm, c: Check) {
    match c
    case CpfCheck => |StripNonDigits(form.cpf)| != 11
    case NameCheck => Trim(form.nome) == ""
    case EmailCheck => !ValidateEmail(form.email)
    case PasswordCheck => !ValidatePassword(form.senha)
    case ConfirmCheck => form.senha != form.confirmarSenha
  }

  /** The check that rejects the form, if any, tried in the order they run. */
  function FirstFailure(form: RegisterForm): Option<Check> {
    if Fails(form, CpfCheck) then Some(CpfCheck)
    else if Fails(form, NameCheck) then Some(NameCheck)
    else if Fails(form, EmailCheck) then Some(EmailCheck)
    else if Fails(form, PasswordCheck) then Some(PasswordCheck)
    else if Fails(form, ConfirmCheck) then Some(ConfirmCheck)
    else None
  }

  /** `FirstFailing` over `CheckOrder`, written out for any verdicts. */
  lemma ChainInOrder(fails: Check -> bool)
    ensures FirstFailing(CheckOrder, fails) ==
      if fails(CpfCheck) then Some(CpfCheck)
      else if fails(NameCheck) then Some(NameCheck)
      else if fails(EmailCheck) then Some(EmailCheck)
      else if fails(PasswordCheck) then Some(PasswordCheck)
      else if fails(ConfirmCheck) then Some(ConfirmCheck)
      else None
  {
    var o := CheckOrder;
    assert o[1..] == [NameCheck, EmailCheck, PasswordCheck, ConfirmCheck];
    assert o[1..][1..] == [EmailCheck, PasswordCheck, ConfirmCheck];
    assert o[1..][1..][1..] == [PasswordCheck, ConfirmCheck];
    assert o[1..][1..][1..][1..] == [ConfirmCheck];
    assert o[1..][1..][1..][1..][1..] == [];
  }

  /** The chain is "first failing check wins" over `CheckOrder`: a reported
      check fails, and every check before it passes. */
  lemma FirstFailureInOrder(form: RegisterForm)
    ensures FirstFailure(form) == FirstFailing(CheckOrder, c => Fails(form, c))
    ensures FirstFailure(form).Some? ==> Fails(form, FirstFailure(form).value)
    ensures FirstFailure(form).Some? ==>
      exists k :: 0 <= k < |CheckOrder| && CheckOrder[k] == FirstFailure(form).value
        && forall j :: 0 <= j < k ==> !Fails(form, CheckOrder[j])
  {
    ChainInOrder(c => Fails(form, c));
    FirstFailingSpec(CheckOrder, c => Fails(form, c));
  }

  /** The i18n key of the alert each check raises; a mismatching
      confirmation reuses the invalid-password key. */
  function MessageKey(c: Check): (key: string)
    ensures key == "logs.errorInvalidPassword" <==> c == PasswordCheck || c == ConfirmCheck
  {
    match c
    case CpfCheck => "logs.errorInvalidCPF"
    case NameCheck => "logs.errorEmptyName"
    case EmailCheck => "logs.errorInvalidEmail"
    case PasswordCheck => "logs.errorInvalidPassword"
    case ConfirmCheck => "logs.errorInvalidPassword"
  }

  /** The flags after check `c` failed: its flag set, the others as they were. */
  function Flag(errors: RegisterErrors, c: Check): RegisterErrors {
    match c
    case CpfCheck => errors.(cpf := true)
    case NameCheck => errors.(nome := true)
    case EmailCheck => errors.(email := true)
    case PasswordCheck => errors.(senha := true)
    case ConfirmCheck => errors.(confirmarSenha := true)
  }

  function WithField(form: RegisterForm, key: FormField, value: string): RegisterForm {
    match key
    case Cpf => form.(cpf := value)
    case Nome => form.(nome := value)
    case Email => form.(email := value)
    case Telefone => form.(telefone := value)
    case Senha => form.(senha := value)
    case ConfirmarSenha => form.(confirmarSenha := value)
    case Role => form.(role := value)
  }

  /** Editing a field clears its flag; `telefone` and `role` have none. */
  function Cleared(errors: RegisterErrors, key: FormField): RegisterErrors {
    match key
    case Cpf => errors.(cpf := false)
    case Nome => errors.(nome := false)
    case Email => errors.(email := false)
    case Senha => errors.(senha := false)
    case ConfirmarSenha => errors.(confirmarSenha := false)
    case _ => errors
  }

  datatype SignUpPayload = SignUpPayload(cpf: string, nome: string, email: string, senha: string, role: string, telefone: nat)

  /** `telefone`: 0 for an empty field, else `Number` of its digits. */
  function PhoneNumber(telefone: string): (n: nat)
    ensures CountDigits(telefone) == 0 ==> n == 0
    ensures telefone != "" ==> n == DecimalValue(StripNonDigits(telefone))
    ensures n < Pow10(CountDigits(telefone))
  {
    StripLength(telefone);
    DecimalValueBound(StripNonDigits(telefone));
    if telefone == "" then 0 else DecimalValue(StripNonDigits(telefone))
  }

  /** The payload: the CPF reduced to its digits, the role always "USER",
      name, e-mail and password as typed. */
  function Payload(form: RegisterForm): (p: SignUpPayload)
    ensures p.cpf == StripNonDigits(form.cpf) && p.telefone == PhoneNumber(form.telefone)
    ensures forall i :: 0 <= i < |p.cpf| ==> IsDigit(p.cpf[i])
    ensures |p.cpf| == CountDigits(form.cpf)
    ensures p.role == "USER"
    ensures p.nome == form.nome && p.email == form.email && p.senha == form.senha
  {
    StripLength(form.cpf);
    SignUpPayload(StripNonDigits(form.cpf), form.nome, form.email, form.senha, "USER", PhoneNumber(form.telefone))
  }

  /** Typing a digit at the end of the phone field appends it to the
      number: `Number` reads the digits as a decimal numeral. */
  lemma PhoneNumberAppendDigit(telefone: string, d: char)
    requires IsDigit(d)
    ensures PhoneNumber(telefone + [d]) == 10 * PhoneNumber(telefone) + DigitValue(d)
  {
    StripAppend(telefone, [d]);
    StripSingle(d);
    DecimalValueAppend(StripNonDigits(telefone), [d]);
    DecimalValueDigit(d);
    if telefone == "" {
      assert StripNonDigits(telefone) == [];
    }
  }

  /** Separators typed anywhere in the phone field (spaces, brackets,
      dashes) do not change the number, as long as the field is not left
      empty. */
  lemma PhoneNumberIgnoresSeparator(a: string, c: char, b: string)
    requires !IsDigit(c) && a + b != ""
    ensures PhoneNumber(a + [c] + b) == PhoneNumber(a + b)
  {
    StripAppend(a + [c], b);
    StripAppend(a, [c]);
    StripAppend(a, b);
    StripSingle(c);
    assert StripNonDigits(a + [c]) == StripNonDigits(a);
  }

  /** `signUp` is called exactly for forms that pass all five checks. */
  lemma AcceptedIff(form: RegisterForm)
    ensures FirstFailure(form).None? <==>
      |StripNonDigits(form.cpf)| == 11 && !IsBlank(form.nome) && ValidateEmail(form.email)
      && ValidatePassword(form.senha) && form.senha == form.confirmarSenha
  {
    TrimEmptyIffBlank(form.nome);
  }

  /** An accepted form sends an 11-digit CPF (whose `length` is 11 as well). */
  lemma AcceptedPayloadCpf(form: RegisterForm)
    requires FirstFailure(form).None?
    ensures |Payload(form).cpf| == 11 && JsLength(Payload(form).cpf) == 11
  {
    AcceptedIff(form);
    JsLengthOfBmp(Payload(form).cpf);
  }

  /** What a submit ends in: an alert naming the failed check (its message
      key is `MessageKey(check)`), or the payload and what became of it. */
  datatype RegisterOutcome =
    | Rejected(check: Check)
    | SignedUp(payload: SignUpPayload)
    | SignUpFailed(payload: SignUpPayload, message: string)

  class RegisterScreen {
    var form: RegisterForm
    var errors: RegisterErrors

    constructor ()
      ensures form == RegisterForm("", "", "", "", "", "", "USER")
      ensures errors == RegisterErrors(false, false, false, false, false)
    {
      form := RegisterForm("", "", "", "", "", "", "USER");
      errors := RegisterErrors(false, false, false, false, false);
    }

    /** `updateField`: one field takes the value, and only its flag is cleared. */
    method UpdateField(key: FormField, value: string)
      modifies this
      ensures form == WithField(old(form), key, value)
      ensures errors == Cleared(old(errors), key)
    {
      form := WithField(form, key, value);
      errors := Cleared(errors, key);
    }

    /** `handleRegister`, with the provider whose `signUp` it calls and the
        register call's outcome given. The new flags start as a copy of the
        old ones; only the first failing check raises its flag and alert.
        Each `if` of the chain tests the condition `Fails` names for its check. */
    method HandleRegister(auth: Auth.AuthProvider, register: Result<string, RequestError>)
      returns (r: RegisterOutcome)
      modifies this
      ensures form == old(form)
      ensures FirstFailure(form).Some? ==>
        errors == Flag(old(errors), FirstFailure(form).value)
        && r == Rejected(FirstFailure(form).value)
      ensures FirstFailure(form).None? ==>
        errors == old(errors)
        && r == (if register.Success? then SignedUp(Payload(form))
                 else SignUpFailed(Payload(form), Auth.SignUpErrorMessage(register.error)))
    {
      var newErrors := errors;
      var msg: Option<Check> := None;  // `msg`, named by the check that set it; None while it is ""
      var cpfNumbers := StripNonDigits(form.cpf);
      if Fails(form, CpfCheck) {
        newErrors := newErrors.(cpf := true);
        msg := Some(CpfCheck);
      } else if Fails(form, NameCheck) {
        newErrors := newErrors.(nome := true);
        msg := Some(NameCheck);
      } else if Fails(form, EmailCheck) {
        newErrors := newErrors.(email := true);
        msg := Some(EmailCheck);
      } else if Fails(form, PasswordCheck) {
        newErrors := newErrors.(senha := true);
        msg := Some(PasswordCheck);
      } else if Fails(form, ConfirmCheck) {
        newErrors := newErrors.(confirmarSenha := true);
        msg := Some(ConfirmCheck);
      }
      errors := newErrors;
      if msg.Some? {
        return Rejected(msg.value);
      }
      var payload := SignUpPayload(cpfNumbers, form.nome, form.email, form.senha, "USER",
                                   if form.telefone != "" then PhoneNumber(form.telefone) else 0);
      var result := auth.SignUp(register);
      match result
      case Success(_) => r := SignedUp(payload);
      case Failure(message) => r := SignUpFailed(payload, message);
    }
  }
}
