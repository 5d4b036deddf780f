/** The records the application exchanges with its server, reduced to the
    fields the modelled code reads or writes. */
module Records {
  import opened Wrappers

  /** The user profile returned by login (`UsuarioAuth`). */
  datatype AuthUser = AuthUser(nome: string, email: string, role: string)

  /** A user as the `/Usuario` endpoints return it (`UserResponse`). */
  datatype UserRecord = UserRecord(cpf: string, nome: string, email: string, senha: string, role: string, telefone: int)

  /** A rating (`AvaliacaoResponse`), possibly with its author attached.
      `nota` is optional because the details screen reads it as `a.nota ?? 0`. */
  datatype Review = Review(
    idAvaliacao: int,
    nota: Option<int>,
    comentario: string,
    usuarioCPF: string,
    startupCNPJ: string,
    usuario: Option<UserRecord>)

  /** One entry of the startup listing (`AllStartupsResponse`). */
  datatype StartupSummary = StartupSummary(cnpj: string, nomeStartup: string, video: Option<string>, emailStartup: string)

  /** The failure of a request: the server's `response.data.message`, if
      any, and the error's own `message`, if any. */
  datatype RequestError = RequestError(serverMessage: Option<string>, message: Option<string>)

  /** JavaScript truthiness of a possibly missing string. */
  predicate Truthy(s: Option<string>) {
    s.Some? && s.value != ""
  }
}
