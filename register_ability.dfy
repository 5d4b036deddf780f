/** The skill registration screen: two independent blank-field checks and
    the post of the form as typed. */
module RegisterAbility {
  import opened Wrappers
  import opened Text
  import opened Records

  datatype AbilityForm = AbilityForm(nomeHabilidade: string, tipoHabilidade: string)

  datatype AbilityErrors = AbilityErrors(nomeHabilidade: bool, tipoHabilidade: bool)

  datatype AbilityField = NomeHabilidade | TipoHabilidade

  const NameMessage: string := "O nome da habilidade \U{00E9} obrigat\U{00F3}rio."
  const TypeMessage: string := "O tipo da habilidade \U{00E9} obrigat\U{00F3}rio."

  /** A failed post: the response body, if any, and the error's message. */
  datatype PostError = PostError(data: Option<string>, message: string)

  /** `err.response?.data || err.message`. */
  function FailureText(e: PostError): (text: string)
    ensures Truthy(e.data) ==> text == e.data.value
    ensures !Truthy(e.data) ==> text == e.message
  {
    if Truthy(e.data) then e.data.value else e.message
  }

  datatype AbilityOutcome =
    | Rejected(message: string)
    | Posted(payload: AbilityForm)
    | PostFailed(payload: AbilityForm, message: string)

  class RegisterAbilityScreen {
    var form: AbilityForm
    var errors: AbilityErrors

    constructor ()
      ensures form == AbilityForm("", "") && errors == AbilityErrors(false, false)
    {
      form := AbilityForm("", "");
      errors := AbilityErrors(false, false);
    }

    /** `updateField`: the key takes the value and only its flag is cleared. */
    method UpdateField(key: AbilityField, value: string)
      modifies this
      ensures key == NomeHabilidade ==>
        form == old(form).(nomeHabilidade := value) && errors == old(errors).(nomeHabilidade := false)
      ensures key == TipoHabilidade ==>
        form == old(form).(tipoHabilidade := value) && errors == old(errors).(tipoHabilidade := false)
    {
      match key
      case NomeHabilidade =>
        form := form.(nomeHabilidade := value);
        errors := errors.(nomeHabilidade := false);
      case TipoHabilidade =>
        form := form.(tipoHabilidade := value);
        errors := errors.(tipoHabilidade := false);
    }

    /** `handleRegister`, with the outcome of `postHabilidade` given. Both
        checks run; each blank field raises its flag on top of the old
        flags, and the type message, set last, wins when both are blank.
        The form is posted untrimmed exactly when neither field is blank. */
    method HandleRegister(post: Result<(), PostError>) returns (r: AbilityOutcome)
      modifies this
      ensures form == old(form)
      ensures errors == AbilityErrors(old(errors).nomeHabilidade || Trim(form.nomeHabilidade) == "",
                                      old(errors).tipoHabilidade || Trim(form.tipoHabilidade) == "")
      ensures Trim(form.tipoHabilidade) == "" ==> r == Rejected(TypeMessage)
      ensures Trim(form.nomeHabilidade) == "" && Trim(form.tipoHabilidade) != "" ==> r == Rejected(NameMessage)
      ensures Trim(form.nomeHabilidade) != "" && Trim(form.tipoHabilidade) != "" ==>
        r == (if post.Success? then Posted(form) else PostFailed(form, FailureText(post.error)))
    {
      var newErrors := errors;
      var msg := "";
      if Trim(form.nomeHabilidade) == "" {
        newErrors := newErrors.(nomeHabilidade := true);
        msg := NameMessage;
      }
      if Trim(form.tipoHabilidade) == "" {
        newErrors := newErrors.(tipoHabilidade := true);
        msg := TypeMessage;
      }
      errors := newErrors;
      if msg != "" {
        return Rejected(msg);
      }
      match post
      case Success(_) => r := Posted(form);
      case Failure(e) => r := PostFailed(form, FailureText(e));
    }
  }
}
