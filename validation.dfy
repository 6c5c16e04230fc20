/**
 * The email rule that the login form and the edit form both apply: a blank
 * (after trimming) address is reported as missing, and otherwise an address
 * that fails `/\S+@\S+\.\S+/` is reported as invalid.
 */
module Validation {
  import opened Text

  const EmailRequired := "Email is required"
  const EmailInvalid := "Email is invalid"

  /** The message shown under the email field; `""` when the address is accepted. */
  function EmailError(email: string): (e: string)
    ensures e == EmailRequired <==> IsBlank(email)
    ensures e == EmailInvalid <==> !IsBlank(email) && !MatchesEmailPattern(email)
    ensures e == "" <==> !IsBlank(email) && MatchesEmailPattern(email)
  {
    if IsBlank(email) then EmailRequired
    else if !MatchesEmailPattern(email) then EmailInvalid
    else ""
  }

  /**
   * An address is accepted exactly when it has a non-whitespace character and
   * an `@`...`.` window as `EmailShape` describes; both forms rely on this.
   */
  lemma EmailAcceptedIff(email: string)
    ensures EmailError(email) == "" <==> HasText(email) && EmailShape(email)
  {
    BlankIffNoText(email);
    EmailPatternIffShape(email);
  }
}
