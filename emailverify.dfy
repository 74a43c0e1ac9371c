/**
 * E-mail verification: the random code sent to a new user, the decision
 * whether a submitted code matches the stored one, and whether a user must
 * verify again. The stored record is what the `users` table returns for
 * the e-mail address (nothing when it has no item); reading and writing
 * the table, and sending the mail, are left out. `rand.Intn(62)` becomes a
 * supplied sequence of indices below 62 and `time.Now()` a parameter, in
 * nanoseconds.
 */
module EmailVerify {
  import opened Results

  /**
   * The alphabet of verification codes: the 62-character literal of the
   * source, written here as its three runs (lower case, upper case, digits).
   */
  const CharSet: string := "abcdefghijklmnopqrstuvwxyz" + "ABCDEFGHIJKLMNOPQRSTUVWXYZ" + "0123456789"

  predicate IsAlphanumeric(c: char) {
    'a' <= c <= 'z' || 'A' <= c <= 'Z' || '0' <= c <= '9'
  }

  /** The `i`-th character of the alphabet: lower case, upper case, digits. */
  function CharAt(i: nat): (c: char)
    requires i < 62
    ensures IsAlphanumeric(c)
  {
    if i < 26 then ('a' as int + i) as char
    else if i < 52 then ('A' as int + (i - 26)) as char
    else ('0' as int + (i - 52)) as char
  }

  /** The position of an ASCII letter or digit in the alphabet. */
  function IndexOf(c: char): (i: nat)
    requires IsAlphanumeric(c)
    ensures i < 62 && CharAt(i) == c
  {
    if 'a' <= c <= 'z' then c as int - 'a' as int
    else if 'A' <= c <= 'Z' then 26 + (c as int - 'A' as int)
    else 52 + (c as int - '0' as int)
  }

  /**
   * The alphabet is the 62 ASCII letters and digits, each exactly once: its
   * characters are those of `CharAt`, and `IndexOf` finds each of them.
   */
  lemma CharSetIsAlphanumeric()
    ensures |CharSet| == 62
    ensures forall i :: 0 <= i < |CharSet| ==> CharSet[i] == CharAt(i) && IndexOf(CharSet[i]) == i
    ensures forall c :: IsAlphanumeric(c) ==> CharSet[IndexOf(c)] == c
  {
    assert forall i :: 0 <= i < 26 ==> CharSet[i] == CharAt(i);
    assert forall i :: 26 <= i < 52 ==> CharSet[i] == CharAt(i);
    assert forall i :: 52 <= i < 62 ==> CharSet[i] == CharAt(i);
  }

  /** The code the supplied random indices spell. */
  function CodeFrom(picks: seq<nat>): (code: string)
    requires forall i :: 0 <= i < |picks| ==> picks[i] < |CharSet|
  {
    seq(|picks|, i requires 0 <= i < |picks| => CharSet[picks[i]])
  }

  /** The indices a code was spelled from. */
  function PicksOf(code: string): (picks: seq<nat>)
    requires forall i :: 0 <= i < |code| ==> IsAlphanumeric(code[i])
  {
    seq(|code|, i requires 0 <= i < |code| => IndexOf(code[i]))
  }

  /**
   * A code has one character per random index, every one a letter or a
   * digit of the alphabet, and the indices can be read back from it.
   */
  lemma CodeFromProperties(picks: seq<nat>)
    requires forall i :: 0 <= i < |picks| ==> picks[i] < |CharSet|
    ensures |CodeFrom(picks)| == |picks|
    ensures forall i :: 0 <= i < |picks| ==> CodeFrom(picks)[i] in CharSet && IsAlphanumeric(CodeFrom(picks)[i])
    ensures PicksOf(CodeFrom(picks)) == picks
    ensures picks == [] ==> CodeFrom(picks) == ""
  {
    CharSetIsAlphanumeric();
    var code := CodeFrom(picks);
    forall i | 0 <= i < |picks| ensures code[i] in CharSet && IsAlphanumeric(code[i]) {
      assert code[i] == CharSet[picks[i]];
    }
  }

  /** Distinct random indices give distinct codes. */
  lemma CodeFromInjective(picks: seq<nat>, picks': seq<nat>)
    requires forall i :: 0 <= i < |picks| ==> picks[i] < |CharSet|
    requires forall i :: 0 <= i < |picks'| ==> picks'[i] < |CharSet|
    requires CodeFrom(picks) == CodeFrom(picks')
    ensures picks == picks'
  {
    CodeFromProperties(picks);
    CodeFromProperties(picks');
  }

  /** `GenerateVerificationCode(length)`: fills a buffer of `length` characters from the alphabet. */
  method GenerateVerificationCode(length: nat, picks: seq<nat>) returns (code: string)
    requires |picks| == length
    requires forall i :: 0 <= i < |picks| ==> picks[i] < |CharSet|
    ensures code == CodeFrom(picks)
  {
    var b := new char[length];
    for i := 0 to length
      invariant forall j :: 0 <= j < i ==> b[j] == CharSet[picks[j]]
    {
      b[i] := CharSet[picks[i]];
    }
    code := b[..];
  }

  /** The length of the codes that are mailed. */
  const CodeLength: nat := 6

  const Second: int := 1_000_000_000
  const Hour: int := 3600 * Second

  /**
   * The item of the `users` table for one address. `lastVerified` is
   * `None` for Go's zero time (never verified).
   */
  datatype Verification = Verification(email: string, code: string, firstBotID: int, secondBotID: int,
                                       lastVerified: Option<int>)

  /** `GetItem` on the `users` table, keyed by address: the item filed under `email`, if any. */
  function Lookup(users: map<string, Verification>, email: string): (found: Option<Verification>)
    ensures found.Some? <==> email in users
    ensures found.Some? ==> found.value == users[email]
  {
    if email in users then Some(users[email]) else None
  }

  /** What unmarshalling the lookup gives: a missing item is the zero record. */
  function Stored(found: Option<Verification>): (v: Verification)
    ensures found.Some? ==> v == found.value
    ensures found.None? ==> v.code == "" && v.lastVerified.None?
  {
    match found
    case Some(v) => v
    case None => Verification("", "", 0, 0, None)
  }

  /** The item `SendVerificationEmail` writes: a new code, never verified. */
  function Issued(email: string, code: string, firstBotID: int, secondBotID: int): Verification {
    Verification(email, code, firstBotID, secondBotID, None)
  }

  /** `time.Now().Format(time.RFC3339)` keeps whole seconds. */
  function TruncateToSecond(now: int): (t: int)
    ensures t <= now < t + Second
    ensures t % Second == 0
  {
    now - now % Second
  }

  /**
   * The decision of `VerifyCode`: when `code` equals the stored code the
   * item's `LastVerified` is set to now (to the second) and the answer is
   * yes; otherwise nothing is written and the answer is no. The result is
   * the written time, or `None` for no.
   */
  function VerifyCode(found: Option<Verification>, code: string, now: int): (written: Option<int>)
    ensures written.Some? <==> code == Stored(found).code
    ensures written.Some? ==> written.value == TruncateToSecond(now)
  {
    if code == Stored(found).code then Some(TruncateToSecond(now)) else None
  }

  /** The item after a verification that succeeded: only `LastVerified` changes. */
  function AfterVerify(found: Option<Verification>, email: string, written: int): (v: Verification)
    ensures v.lastVerified == Some(written)
    ensures found.Some? ==>
      (v.email == found.value.email && v.code == found.value.code &&
       v.firstBotID == found.value.firstBotID && v.secondBotID == found.value.secondBotID)
    ensures found.None? ==> v.email == email && v.code == "" && v.firstBotID == 0 && v.secondBotID == 0
  {
    match found
    case Some(v) => v.(lastVerified := Some(written))
    case None => Verification(email, "", 0, 0, Some(written))
  }

  /**
   * The freshness test with a window: verify again when the user never
   * verified or verified more than `window` ago.
   */
  predicate ShouldSend(found: Option<Verification>, now: int, window: int): (due: bool)
    ensures found.None? ==> due
    ensures found.Some? ==> (due <==> found.value.lastVerified.None? || now - found.value.lastVerified.value > window)
  {
    var v := Stored(found);
    v.lastVerified.None? || now - v.lastVerified.value > window
  }

  /** `ShouldSendVerificationEmail`: the test with a 24-hour window. */
  predicate ShouldSendVerificationEmail(found: Option<Verification>, now: int): (due: bool)
    ensures due <==> Stored(found).lastVerified.None? || now - Stored(found).lastVerified.value > 86_400_000_000_000
  {
    ShouldSend(found, now, 24 * Hour)
  }

  /**
   * The code just issued, and only that code, verifies; until then the
   * user is due a verification.
   */
  lemma IssuedCodeVerifies(email: string, code: string, other: string, firstBotID: int, secondBotID: int,
                           now: int, later: int)
    requires other != code
    ensures VerifyCode(Some(Issued(email, code, firstBotID, secondBotID)), code, now).Some?
    ensures VerifyCode(Some(Issued(email, code, firstBotID, secondBotID)), other, now).None?
    ensures ShouldSendVerificationEmail(Some(Issued(email, code, firstBotID, secondBotID)), later)
  {
  }

  /** Without a stored item only the empty code verifies, as the zero record's code is empty. */
  lemma MissingItemVerifiesEmptyCode(code: string, now: int)
    ensures VerifyCode(None, code, now).Some? <==> code == ""
  {
  }

  /**
   * A successful verification makes the user fresh for the window, less
   * the second lost to formatting, and due again once the window has passed.
   */
  lemma VerifiedIsFreshForWindow(found: Option<Verification>, email: string, code: string, now: int,
                                 later: int, window: int)
    requires VerifyCode(found, code, now).Some?
    ensures var item := AfterVerify(found, email, VerifyCode(found, code, now).value);
      && (later - now <= window - Second ==> !ShouldSend(Some(item), later, window))
      && (later - now > window ==> ShouldSend(Some(item), later, window))
  {
  }
}
