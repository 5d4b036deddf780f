/** The change-password screen: two guards on the new password, then the
    update of the loaded user record with only its password replaced. */
module ChangePassword {
  import opened Wrappers
  import opened Text
  import opened Records

  const TooShortMessage: string := "A senha deve ter pelo menos 5 caracteres."
  const MismatchMessage: string := "As senhas n\U{00E3}o coincidem."
  const FailedMessage: string := "N\U{00E3}o foi poss\U{00ED}vel alterar a senha."

  datatype ChangeOutcome =
    | NotLoaded
    | Rejected(message: string)
    | Updated(cpf: string, record: UserRecord)
    | UpdateFailed(cpf: string, record: UserRecord, message: string)

  class ChangePasswordScreen {
    var currentUser: Option<UserRecord>
    var senha: string
    var confirmSenha: string

    constructor ()
      ensures currentUser == None && senha == "" && confirmSenha == ""
    {
      currentUser := None;
      senha := "";
      confirmSenha := "";
    }

    /** `setCurrentUser` with the record the load fetched. */
    method SetCurrentUser(data: UserRecord)
      modifies this
      ensures currentUser == Some(data) && senha == old(senha) && confirmSenha == old(confirmSenha)
    {
      currentUser := Some(data);
    }

    method SetSenha(value: string)
      modifies this
      ensures senha == value && currentUser == old(currentUser) && confirmSenha == old(confirmSenha)
    {
      senha := value;
    }

    method SetConfirmSenha(value: string)
      modifies this
      ensures confirmSenha == value && currentUser == old(currentUser) && senha == old(senha)
    {
      confirmSenha := value;
    }

    /** `handleChangePassword`, with the success of `putUserByCPF` given:
        nothing happens before the user is loaded; a password shorter than
        5 code units is refused before the confirmation is compared; the
        update goes to the loaded CPF with the loaded record, only `senha`
        replaced. */
    method HandleChangePassword(putOk: bool) returns (r: ChangeOutcome)
      ensures currentUser.None? <==> r == NotLoaded
      ensures currentUser.Some? && JsLength(senha) < 5 ==> r == Rejected(TooShortMessage)
      ensures currentUser.Some? && JsLength(senha) >= 5 && senha != confirmSenha ==> r == Rejected(MismatchMessage)
      ensures r.Updated? || r.UpdateFailed? <==>
        currentUser.Some? && JsLength(senha) >= 5 && senha == confirmSenha
      ensures r.Updated? || r.UpdateFailed? ==>
        r.cpf == currentUser.value.cpf && r.record == currentUser.value.(senha := senha)
        && r.record.senha == senha && r.record.cpf == currentUser.value.cpf
      ensures r.Updated? ==> putOk
      ensures r.UpdateFailed? ==> !putOk && r.message == FailedMessage
    {
      if currentUser.None? {
        return NotLoaded;
      }
      if JsLength(senha) < 5 {
        return Rejected(TooShortMessage);
      }
      if senha != confirmSenha {
        return Rejected(MismatchMessage);
      }
      var user := currentUser.value;
      if putOk {
        r := Updated(user.cpf, user.(senha := senha));
      } else {
        r := UpdateFailed(user.cpf, user.(senha := senha), FailedMessage);
      }
    }
  }
}
