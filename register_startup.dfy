/** The startup registration screen: its form, its flags, the eight-step
    validation chain and the request it hands to `registerStartup`. */
module RegisterStartup {
  import opened Wrappers
  import opened Text
  import opened Validators
  import opened Chain

  datatype StartupRequest = StartupRequest(cnpj: string, video: string, nomeStartup: string, site: string,
                                           descricao: string, nomeResponsavel: string, emailStartup: string,
                                           usuarioCPF: string)

  datatype StartupErrors = StartupErrors(cnpj: bool, video: bool, nomeStartup: bool, site: bool,
                                         descricao: bool, nomeResponsavel: bool, emailStartup: bool,
                                         usuarioCPF: bool)

  datatype StartupField = Cnpj | Video | NomeStartup | Site | Descricao | NomeResponsavel | EmailStartup | UsuarioCpf

  /** `/^https?:\/\/.+/`: "http://" or "https://" and then at least one
      character that is not a line terminator. */
  predicate IsValidURL(url: string) {
    ("http://" <= url && |url| > 7 && !IsLineTerminator(url[7]))
    || ("https://" <= url && |url| > 8 && !IsLineTerminator(url[8]))
  }

  lemma IsValidURLExamples()
    ensures IsValidURL("https://a") && IsValidURL("http://x")
    ensures !IsValidURL("http://") && !IsValidURL("https://") && !IsValidURL("ftp://x")
    ensures !IsValidURL("") && !IsValidURL("http://\n")
  {
    assert !StartsWith("https://", "http://") by { assert "https://"[4] != "http://"[4]; }
    assert !StartsWith("ftp://x", "http://") by { assert "ftp://x"[0] != "http://"[0]; }
    assert !StartsWith("ftp://x", "https://") by { assert "ftp://x"[0] != "https://"[0]; }
  }

  /** Text after a valid URL never makes it invalid. */
  lemma {:induction false} IsValidURLExtend(url: string, rest: string)
    requires IsValidURL(url)
    ensures IsValidURL(url + rest)
  {
    assert (url + rest)[..|url|] == url;
    if StartsWith(url, "http://") && |url| > 7 && !IsLineTerminator(url[7]) {
      assert (url + rest)[..7] == url[..7];
      assert (url + rest)[7] == url[7];
    } else {
      assert (url + rest)[..8] == url[..8];
      assert (url + rest)[8] == url[8];
    }
  }

  datatype Check = CnpjCheck | NameCheck | SiteCheck | DescriptionCheck
                 | ResponsibleCheck | EmailCheck | CpfCheck | VideoCheck

  const CheckOrder: seq<Check> :=
    [CnpjCheck, NameCheck, SiteCheck, DescriptionCheck, ResponsibleCheck, EmailCheck, CpfCheck, VideoCheck]

  predicate Fails(form: StartupRequest, c: Check) {
    match c
    case CnpjCheck => |StripNonDigits(form.cnpj)| != 14
    case NameCheck => Trim(form.nomeStartup) == ""
    case SiteCheck => !IsValidURL(form.site)
    case DescriptionCheck => JsLength(form.descricao) < 10
    case ResponsibleCheck => Trim(form.nomeResponsavel) == ""
    case EmailCheck => !ValidateEmail(form.emailStartup)
    case CpfCheck => |StripNonDigits(form.usuarioCPF)| != 11
    case VideoCheck => form.video != "" && !IsValidURL(form.video)
  }

  /** The check that rejects the form, if any, tried in the order they run. */
  function FirstFailure(form: StartupRequest): Option<Check> {
    if Fails(form, CnpjCheck) then Some(CnpjCheck)
    else if Fails(form, NameCheck) then Some(NameCheck)
    else if Fails(form, SiteCheck) then Some(SiteCheck)
    else if Fails(form, DescriptionCheck) then Some(DescriptionCheck)
    else if Fails(form, ResponsibleCheck) then Some(ResponsibleCheck)
    else if Fails(form, EmailCheck) then Some(EmailCheck)
    else if Fails(form, CpfCheck) then Some(CpfCheck)
    else if Fails(form, VideoCheck) then Some(VideoCheck)
    else None
  }

  /** The alert texts of handleRegister. */
  const CnpjMessage: string := "CNPJ inv\U{00E1}lido. Deve conter 14 d\U{00ED}gitos."
  const NameMessage: string := "O nome da startup \U{00E9} obrigat\U{00F3}rio."
  const SiteMessage: string := "Insira um site v\U{00E1}lido (http:// ou https://)."
  const DescriptionMessage: string := "A descri\U{00E7}\U{00E3}o deve ter pelo menos 10 caracteres."
  const ResponsibleMessage: string := "O nome do respons\U{00E1}vel \U{00E9} obrigat\U{00F3}rio."
  const EmailMessage: string := "E-mail corporativo inv\U{00E1}lido."
  const CpfMessage: string := "CPF do usu\U{00E1}rio inv\U{00E1}lido."
  const VideoMessage: string := "URL do v\U{00ED}deo inv\U{00E1}lida."

  /** The alert text of each check. None is empty, so `if (msg)` fires
      exactly when a check has set one. */
  function Message(c: Check): (alert: string)
    ensures alert != ""
  {
    match c
    case CnpjCheck => CnpjMessage
    case NameCheck => NameMessage
    case SiteCheck => SiteMessage
    case DescriptionCheck => DescriptionMessage
    case ResponsibleCheck => ResponsibleMessage
    case EmailCheck => EmailMessage
    case CpfCheck => CpfMessage
    case VideoCheck => VideoMessage
  }

  /** Every check has its own text, so the alert names the check that failed. */
  lemma MessageInjective(a: Check, b: Check)
    ensures Message(a) == Message(b) <==> a == b
  {
    if Message(a) == Message(b) {
      MessageLength(a);
      MessageLength(b);
    }
  }

  /** The texts have eight different lengths. */
  lemma MessageLength(c: Check)
    ensures |Message(c)| == match c
      case CnpjCheck => 38 case NameCheck => 32 case SiteCheck => 44 case DescriptionCheck => 46
      case ResponsibleCheck => 36 case EmailCheck => 28 case CpfCheck => 24 case VideoCheck => 22
  {
  }

  function Flag(errors: StartupErrors, c: Check): StartupErrors {
    match c
    case CnpjCheck => errors.(cnpj := true)
    case NameCheck => errors.(nomeStartup := true)
    case SiteCheck => errors.(site := true)
    case DescriptionCheck => errors.(descricao := true)
    case ResponsibleCheck => errors.(nomeResponsavel := true)
    case EmailCheck => errors.(emailStartup := true)
    case CpfCheck => errors.(usuarioCPF := true)
    case VideoCheck => errors.(video := true)
  }

  function WithField(form: StartupRequest, key: StartupField, value: string): StartupRequest {
    match key
    case Cnpj => form.(cnpj := value)
    case Video => form.(video := value)
    case NomeStartup => form.(nomeStartup := value)
    case Site => form.(site := value)
    case Descricao => form.(descricao := value)
    case NomeResponsavel => form.(nomeResponsavel := value)
    case EmailStartup => form.(emailStartup := value)
    case UsuarioCpf => form.(usuarioCPF := value)
  }

  function Cleared(errors: StartupErrors, key: StartupField): StartupErrors {
    match key
    case Cnpj => errors.(cnpj := false)
    case Video => errors.(video := false)
    case NomeStartup => errors.(nomeStartup := false)
    case Site => errors.(site := false)
    case Descricao => errors.(descricao := false)
    case NomeResponsavel => errors.(nomeResponsavel := false)
    case EmailStartup => errors.(emailStartup := false)
    case UsuarioCpf => errors.(usuarioCPF := false)
  }

  /** The request sent: the form with CNPJ and CPF reduced to their digits. */
  function Payload(form: StartupRequest): (p: StartupRequest)
    ensures p.cnpj == StripNonDigits(form.cnpj) && p.usuarioCPF == StripNonDigits(form.usuarioCPF)
    ensures forall i :: 0 <= i < |p.cnpj| ==> IsDigit(p.cnpj[i])
    ensures forall i :: 0 <= i < |p.usuarioCPF| ==> IsDigit(p.usuarioCPF[i])
    ensures p == form.(cnpj := p.cnpj, usuarioCPF := p.usuarioCPF)
    ensures |p.cnpj| == CountDigits(form.cnpj) && |p.usuarioCPF| == CountDigits(form.usuarioCPF)
  {
    StripLength(form.cnpj);
    StripLength(form.usuarioCPF);
    form.(cnpj := StripNonDigits(form.cnpj), usuarioCPF := StripNonDigits(form.usuarioCPF))
  }

  /** `FirstFailing` over `CheckOrder`, written out for any verdicts. */
  lemma ChainInOrder(fails: Check -> bool)
    ensures FirstFailing(CheckOrder, fails) ==
      if fails(CnpjCheck) then Some(CnpjCheck)
      else if fails(NameCheck) then Some(NameCheck)
      else if fails(SiteCheck) then Some(SiteCheck)
      else if fails(DescriptionCheck) then Some(DescriptionCheck)
      else if fails(ResponsibleCheck) then Some(ResponsibleCheck)
      else if fails(EmailCheck) then Some(EmailCheck)
      else if fails(CpfCheck) then Some(CpfCheck)
      else if fails(VideoCheck) then Some(VideoCheck)
      else None
  {
    var o := CheckOrder;
    assert o[1..] == [NameCheck, SiteCheck, DescriptionCheck, ResponsibleCheck, EmailCheck, CpfCheck, VideoCheck];
    assert o[1..][1..] == [SiteCheck, DescriptionCheck, ResponsibleCheck, EmailCheck, CpfCheck, VideoCheck];
    assert o[1..][1..][1..] == [DescriptionCheck, ResponsibleCheck, EmailCheck, CpfCheck, VideoCheck];
    assert o[1..][1..][1..][1..] == [ResponsibleCheck, EmailCheck, CpfCheck, VideoCheck];
    assert o[1..][1..][1..][1..][1..] == [EmailCheck, CpfCheck, VideoCheck];
    assert o[1..][1..][1..][1..][1..][1..] == [CpfCheck, VideoCheck];
    assert o[1..][1..][1..][1..][1..][1..][1..] == [VideoCheck];
    assert o[1..][1..][1..][1..][1..][1..][1..][1..] == [];
  }

  /** The chain is "first failing check wins" over `CheckOrder`: a reported
      check fails, and every check before it passes. */
  lemma FirstFailureInOrder(form: StartupRequest)
    ensures FirstFailure(form) == FirstFailing(CheckOrder, c => Fails(form, c))
    ensures FirstFailure(form).Some? ==> Fails(form, FirstFailure(form).value)
    ensures FirstFailure(form).Some? ==>
      exists k :: 0 <= k < |CheckOrder| && CheckOrder[k] == FirstFailure(form).value
        && forall j :: 0 <= j < k ==> !Fails(form, CheckOrder[j])
  {
    ChainInOrder(c => Fails(form, c));
    FirstFailingSpec(CheckOrder, c => Fails(form, c));
  }

  /** The request goes out exactly for forms that pass all eight checks;
      an empty video is accepted. */
  lemma AcceptedIff(form: StartupRequest)
    ensures FirstFailure(form).None? <==>
      |StripNonDigits(form.cnpj)| == 14 && !IsBlank(form.nomeStartup) && IsValidURL(form.site)
      && JsLength(form.descricao) >= 10 && !IsBlank(form.nomeResponsavel)
      && ValidateEmail(form.emailStartup) && |StripNonDigits(form.usuarioCPF)| == 11
      && (form.video == "" || IsValidURL(form.video))
  {
    TrimEmptyIffBlank(form.nomeStartup);
    TrimEmptyIffBlank(form.nomeResponsavel);
  }

  /** An accepted request carries 14 CNPJ digits and 11 CPF digits. */
  lemma AcceptedPayloadDigits(form: StartupRequest)
    requires FirstFailure(form).None?
    ensures |Payload(form).cnpj| == 14 && |Payload(form).usuarioCPF| == 11
  {
    AcceptedIff(form);
  }

  /** What a submit ends in: the alert of the failed check, or the request
      and what became of it. */
  datatype RegisterOutcome =
    | Rejected(alert: string)
    | Registered(payload: StartupRequest)
    | RegisterFailed(payload: StartupRequest, message: string)

  class RegisterStartupScreen {
    var form: StartupRequest
    var errors: StartupErrors

    constructor ()
      ensures form == StartupRequest("", "", "", "", "", "", "", "")
      ensures errors == StartupErrors(false, false, false, false, false, false, false, false)
    {
      form := StartupRequest("", "", "", "", "", "", "", "");
      errors := StartupErrors(false, false, false, false, false, false, false, false);
    }

    /** `updateField`: the key takes the value and only its flag is cleared. */
    method UpdateField(key: StartupField, value: string)
      modifies this
      ensures form == WithField(old(form), key, value)
      ensures errors == Cleared(old(errors), key)
    {
      form := WithField(form, key, value);
      errors := Cleared(errors, key);
    }

    /** `handleRegister`, with the outcome of `registerStartup` given (the
        failure carries the error's message). Each `if` of the chain tests
        the condition `Fails` names for its check. */
    method HandleRegister(register: Result<(), string>) returns (r: RegisterOutcome)
      modifies this
      ensures form == old(form)
      ensures FirstFailure(form).Some? ==>
        errors == Flag(old(errors), FirstFailure(form).value)
        && r == Rejected(Message(FirstFailure(form).value))
      ensures FirstFailure(form).None? ==>
        errors == old(errors)
        && r == (if register.Success? then Registered(Payload(form))
                 else RegisterFailed(Payload(form), register.error))
    {
      var newErrors := errors;
      var msg := "";
      var cnpjNumbers := StripNonDigits(form.cnpj);
      if Fails(form, CnpjCheck) {
        newErrors := newErrors.(cnpj := true);
        msg := Message(CnpjCheck);
      } else if Fails(form, NameCheck) {
        newErrors := newErrors.(nomeStartup := true);
        msg := Message(NameCheck);
      } else if Fails(form, SiteCheck) {
        newErrors := newErrors.(site := true);
        msg := Message(SiteCheck);
      } else if Fails(form, DescriptionCheck) {
        newErrors := newErrors.(descricao := true);
        msg := Message(DescriptionCheck);
      } else if Fails(form, ResponsibleCheck) {
        newErrors := newErrors.(nomeResponsavel := true);
        msg := Message(ResponsibleCheck);
      } else if Fails(form, EmailCheck) {
        newErrors := newErrors.(emailStartup := true);
        msg := Message(EmailCheck);
      } else if Fails(form, CpfCheck) {
        newErrors := newErrors.(usuarioCPF := true);
        msg := Message(CpfCheck);
      } else if Fails(form, VideoCheck) {
        newErrors := newErrors.(video := true);
        msg := Message(VideoCheck);
      }
      errors := newErrors;
      if msg != "" {
        return Rejected(msg);
      }
      var payload := form.(cnpj := cnpjNumbers, usuarioCPF := StripNonDigits(form.usuarioCPF));
      match register
      case Success(_) => r := Registered(payload);
      case Failure(message) => r := RegisterFailed(payload, message);
    }
  }
}
