/** Data shapes exchanged with the token endpoint of the login page. */
module Wire {

  datatype Option<+T> = None | Some(value: T)

  /** How the server is to interpret the identifier of a token request. */
  datatype IdentifierType = Email | Id | Username

  /** The name under which each identifier type is serialised. */
  function IdentifierTypeName(t: IdentifierType): (name: string)
    ensures name in {"email", "id", "username"}
    ensures name == "email" <==> t == Email
    ensures name == "id" <==> t == Id
    ensures name == "username" <==> t == Username
  {
    match t
    case Email => "email"
    case Id => "id"
    case Username => "username"
  }

  /** Distinct identifier types are serialised under distinct names. */
  lemma IdentifierTypeNameInjective(a: IdentifierType, b: IdentifierType)
    requires IdentifierTypeName(a) == IdentifierTypeName(b)
    ensures a == b
  {
  }

  /** The body of a token request. */
  datatype GetToken = GetToken(identifier: string, identifierType: IdentifierType, password: string)

  /** Failure kinds the server may report; declared, but no behaviour depends on them. */
  datatype ErrorKind = NoSuchUser | PasswordIncorrect | External(reason: string)

  /** Replies of the token endpoint; declared, but no behaviour depends on them. */
  datatype Response = ErrorResponse(kind: ErrorKind) | TokenResponse(token: string)
}
