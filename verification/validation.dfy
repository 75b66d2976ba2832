/** The error message computed when the login form is submitted. */
module Validation {
  import opened Wire
  import opened Identifier

  // The messages, spelled as the page shows them ("cannt" included).
  const BothBlankMessage := "Identifier and password cannt be blank"
  const IdentifierBlankMessage := "Identifier cannot be blank"
  const PasswordBlankMessage := "Password cannot be blank"
  const InvalidEmailMessage := "Invalid email address"

  /** The blank-field check: one message per combination of empty fields, none when both are filled. */
  function BlankCheck(identifier: string, password: string): (e: Option<string>)
    ensures e == None <==> identifier != "" && password != ""
    ensures e == Some(BothBlankMessage) <==> identifier == "" && password == ""
    ensures e == Some(IdentifierBlankMessage) <==> identifier == "" && password != ""
    ensures e == Some(PasswordBlankMessage) <==> identifier != "" && password == ""
  {
    match (identifier == "", password == "")
    case (true, true) => Some(BothBlankMessage)
    case (true, false) => Some(IdentifierBlankMessage)
    case (false, true) => Some(PasswordBlankMessage)
    case (false, false) => None
  }

  /**
   * The error left after the blank check and the classification: an
   * identifier flagged as a malformed email replaces whatever the blank
   * check found. No error exactly when both fields are filled and an
   * identifier containing `@` matches the email pattern.
   */
  function SubmitError(identifier: string, password: string): (e: Option<string>)
    ensures e == None <==>
      identifier != "" && password != "" && ('@' in identifier ==> MatchesEmailPattern(identifier))
    ensures Classify(identifier).invalidEmail ==> e == Some(InvalidEmailMessage)
    ensures !Classify(identifier).invalidEmail ==> e == BlankCheck(identifier, password)
  {
    if Classify(identifier).invalidEmail then Some(InvalidEmailMessage)
    else BlankCheck(identifier, password)
  }

  /**
   * The intended blank-first precedence: the blank-field messages first, in
   * the order both, identifier, password; the malformed-email message only
   * when both fields are filled.
   */
  function PrecedenceError(identifier: string, password: string): Option<string> {
    var blank := BlankCheck(identifier, password);
    if blank.Some? then blank
    else if Classify(identifier).invalidEmail then Some(InvalidEmailMessage)
    else None
  }

  /**
   * The submitted error agrees with the blank-first precedence except in one
   * case: a blank password with an `@`-bearing identifier that is not a
   * well-formed email, where the malformed-email message wins.
   */
  lemma SubmitErrorVersusPrecedence(identifier: string, password: string)
    ensures SubmitError(identifier, password) == PrecedenceError(identifier, password)
      <==> !(password == "" && Classify(identifier).invalidEmail)
    ensures password == "" && Classify(identifier).invalidEmail ==>
      SubmitError(identifier, password) == Some(InvalidEmailMessage) &&
      PrecedenceError(identifier, password) == Some(PasswordBlankMessage)
  {
  }

  /** An instance of the override: "bob@x" with a blank password reports the email, not the password. */
  lemma InvalidEmailOverridesBlankPassword()
    ensures BlankCheck("bob@x", "") == Some(PasswordBlankMessage)
    ensures SubmitError("bob@x", "") == Some(InvalidEmailMessage)
  {
  }

  /** A blank identifier never contains `@`, so its blank-field message stands. */
  lemma BlankIdentifierKeepsBlankMessage(password: string)
    ensures SubmitError("", password) == BlankCheck("", password)
    ensures SubmitError("", password) ==
      Some(if password == "" then BothBlankMessage else IdentifierBlankMessage)
  {
  }

  /**
   * An accepted identifier is an email exactly when it contains `@`, and a
   * username otherwise.
   */
  lemma AcceptedIdentifierType(identifier: string, password: string)
    requires SubmitError(identifier, password) == None
    ensures Classify(identifier).kind == Email <==> '@' in identifier
    ensures Classify(identifier).kind == Username <==> '@' !in identifier
  {
  }

  /** The outcomes listed for sample inputs. */
  lemma SubmitErrorExamples()
    ensures SubmitError("", "") == Some(BothBlankMessage)
    ensures SubmitError("bob", "") == Some(PasswordBlankMessage)
    ensures SubmitError("", "pw") == Some(IdentifierBlankMessage)
    ensures SubmitError("bob", "pw") == None
    ensures SubmitError("bob@nodomain", "pw") == Some(InvalidEmailMessage)
    ensures SubmitError("a@b.co", "pw") == None
  {
    ClassifyExamples();
  }
}
