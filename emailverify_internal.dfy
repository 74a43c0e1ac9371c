/**
 * The older copy of the verification-code generator kept in the client's
 * internal packages. Its alphabet and its loop are those of module
 * EmailVerify, so it is stated by delegation.
 */
module EmailVerifyInternal {
  import EmailVerify

  const CharSet: string := EmailVerify.CharSet

  /** `GenerateVerificationCode(length)`: `length` characters of the alphabet, one per random index. */
  method GenerateVerificationCode(length: nat, picks: seq<nat>) returns (code: string)
    requires |picks| == length
    requires forall i :: 0 <= i < |picks| ==> picks[i] < |CharSet|
    ensures |code| == length
    ensures forall i :: 0 <= i < length ==> code[i] == CharSet[picks[i]] && EmailVerify.IsAlphanumeric(code[i])
    ensures length == 0 ==> code == ""
  {
    code := EmailVerify.GenerateVerificationCode(length, picks);
    EmailVerify.CodeFromProperties(picks);
  }
}
