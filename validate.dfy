/** validate.go: the structural check of an access key id, secret and session token. */
module Validate {
  import opened Wrappers
  import opened Strings
  import opened Errors
  import opened Aws

  const MinAccessKeyLength := 16
  const MaxAccessKeyLength := 128
  /** Prefix of long-term access key ids. */
  const LongTermPrefix: Str := "AKIA"
  /** Prefix of temporary access key ids, which need a session token. */
  const TemporaryPrefix: Str := "ASIA"

  /**
   * ValidateCredentials: None (Go's nil) when nothing is wrong with the format, otherwise
   * the sentinel of the first check that fails, in the order the checks are written.
   */
  function ValidateCredentials(c: Credentials): Option<ValidationError> {
    if c.accessKeyID == "" then Some(AKIDRequired)
    else if |c.accessKeyID| < MinAccessKeyLength then Some(AKIDMinLen)
    else if |c.accessKeyID| > MaxAccessKeyLength then Some(AKIDMaxLen)
    else if !(HasPrefix(c.accessKeyID, LongTermPrefix) || HasPrefix(c.accessKeyID, TemporaryPrefix)) then Some(AKIDBadPrefix)
    else if !MatchesAccessKeyPattern(c.accessKeyID) then Some(AKIDInvalidChar)
    else if c.secretAccessKey == "" then Some(SAKRequired)
    else if HasPrefix(c.accessKeyID, TemporaryPrefix) && c.sessionToken == "" then Some(STRequired)
    else None
  }

  // An independent statement of the same rules: each check on its own, and their order.

  /** The condition under which check `e` rejects the credentials, regardless of the other checks. */
  predicate Violates(c: Credentials, e: ValidationError) {
    match e
    case AKIDRequired => c.accessKeyID == ""
    case AKIDMinLen => |c.accessKeyID| < MinAccessKeyLength
    case AKIDMaxLen => |c.accessKeyID| > MaxAccessKeyLength
    case AKIDBadPrefix => !HasPrefix(c.accessKeyID, LongTermPrefix) && !HasPrefix(c.accessKeyID, TemporaryPrefix)
    case AKIDInvalidChar => exists i :: 0 <= i < |c.accessKeyID| && !IsWordByte(c.accessKeyID[i])
    case SAKRequired => c.secretAccessKey == ""
    case STRequired => HasPrefix(c.accessKeyID, TemporaryPrefix) && c.sessionToken == ""
  }

  /** The position of each check in the chain. */
  function Rank(e: ValidationError): nat {
    match e
    case AKIDRequired => 0
    case AKIDMinLen => 1
    case AKIDMaxLen => 2
    case AKIDBadPrefix => 3
    case AKIDInvalidChar => 4
    case SAKRequired => 5
    case STRequired => 6
  }

  /** Credentials no check rejects. */
  predicate WellFormed(c: Credentials) {
    forall e :: !Violates(c, e)
  }

  /**
   * The validator accepts exactly the credentials that pass every check, and rejects the
   * others with the error of the first failing check.
   */
  lemma {:induction false} FirstFailingCheckWins(c: Credentials)
    ensures ValidateCredentials(c) == None <==> WellFormed(c)
    ensures ValidateCredentials(c).Some? ==>
      && Violates(c, ValidateCredentials(c).value)
      && forall e :: Rank(e) < Rank(ValidateCredentials(c).value) ==> !Violates(c, e)
  {
    var k := c.accessKeyID;
    if ValidateCredentials(c) == None {
      forall e ensures !Violates(c, e) {
        if e == AKIDInvalidChar {
          assert MatchesAccessKeyPattern(k);
        }
      }
    } else {
      assert !Violates(c, AKIDRequired) ==> 1 <= |k|;
      if ValidateCredentials(c).value == AKIDInvalidChar {
        var i :| 0 <= i < |k| && !IsWordByte(k[i]);
      }
      assert !WellFormed(c) by {
        assert Violates(c, ValidateCredentials(c).value);
      }
    }
  }

  /** An empty key id is reported first, whatever the secret and session token are. */
  lemma EmptyKeyRequired(c: Credentials)
    requires c.accessKeyID == ""
    ensures ValidateCredentials(c) == Some(AKIDRequired)
  {
  }

  /** A short key id is rejected even when it has the ASIA prefix and a session token. */
  lemma ShortKeyRejected(c: Credentials)
    requires 0 < |c.accessKeyID| < MinAccessKeyLength
    ensures ValidateCredentials(c) == Some(AKIDMinLen)
  {
  }

  /** A key id over 128 bytes is rejected before its prefix or characters are looked at. */
  lemma LongKeyRejected(c: Credentials)
    requires |c.accessKeyID| > MaxAccessKeyLength
    ensures ValidateCredentials(c) == Some(AKIDMaxLen)
  {
  }

  /** A key id of acceptable length with neither prefix is rejected for its prefix. */
  lemma BadPrefixRejected(c: Credentials)
    requires MinAccessKeyLength <= |c.accessKeyID| <= MaxAccessKeyLength
    requires !HasPrefix(c.accessKeyID, LongTermPrefix) && !HasPrefix(c.accessKeyID, TemporaryPrefix)
    ensures ValidateCredentials(c) == Some(AKIDBadPrefix)
  {
  }

  /** A key id with a good length and prefix but a byte outside [A-Za-z0-9_] is rejected. */
  lemma InvalidCharRejected(c: Credentials, i: nat)
    requires MinAccessKeyLength <= |c.accessKeyID| <= MaxAccessKeyLength
    requires HasPrefix(c.accessKeyID, LongTermPrefix) || HasPrefix(c.accessKeyID, TemporaryPrefix)
    requires i < |c.accessKeyID| && !IsWordByte(c.accessKeyID[i])
    ensures ValidateCredentials(c) == Some(AKIDInvalidChar)
  {
  }

  /** Predicate on the key id alone: it passes the first five checks. */
  predicate GoodKey(k: Str) {
    && MinAccessKeyLength <= |k| <= MaxAccessKeyLength
    && (HasPrefix(k, LongTermPrefix) || HasPrefix(k, TemporaryPrefix))
    && MatchesAccessKeyPattern(k)
  }

  /** With a good key id, a missing secret is reported, before the session-token rule. */
  lemma SecretRequired(c: Credentials)
    requires GoodKey(c.accessKeyID) && c.secretAccessKey == ""
    ensures ValidateCredentials(c) == Some(SAKRequired)
  {
  }

  /**
   * With a good key id and a secret: an ASIA key id without a session token is rejected,
   * and the key id's class alone decides whether the empty token is accepted.
   */
  lemma SessionTokenRule(c: Credentials)
    requires GoodKey(c.accessKeyID) && c.secretAccessKey != "" && c.sessionToken == ""
    ensures HasPrefix(c.accessKeyID, TemporaryPrefix) ==> ValidateCredentials(c) == Some(STRequired)
    ensures HasPrefix(c.accessKeyID, LongTermPrefix) ==> ValidateCredentials(c) == None
  {
  }

  // The table of the package's validation test, case by case.

  const TestSecret: Str := "ASDFASDFASDFASDFASDFASDFASDFASDFASDFASDF"
  const TestToken: Str := "FwoGZXIvYXdzEC0aDNTmPAer6krz7/fnGCLnAZbl8nF7f6nPc3Jg4CM3JEsPsuEf6Zlxl7x8kBKtf9OC+b6GBscsRoQK4c0u8yeP8LnGjnK9KRKZa7YQFNz+6TSkYjkI44bZ2iPjXa/UGmj0dUtl19u58BJPM1u77w3W8mC2Luz4yApWSmn17bggpHCB/oS8hiY+Y/Iry5GhnBaVGqh3AeclcRYYqpWcACzYqws6VwdHg3uWixGMQqSBPM9YCyiacnyOUP/0YJQuSqX5pCWKyP9saNAZnnrFDHf0hcbpmm1/BG2IQdpJ2gLMOjxXro0PJiJA2xOA0l1MQ0/LhoykznGL8Sj3+t+BBjIrd8x0f3jauroAHvbxcY/ol0TP3MFnZBLtMsS/cMn8IAyQ7P6p8DVAstiCfw=="

  function Creds(key: Str, secret: Str, token: Str): Credentials {
    Credentials(key, secret, token, "", false, ZeroTime)
  }

  lemma CaseNoErrorsASIA()
    ensures ValidateCredentials(Creds("ASIAASDFASDFASDF", TestSecret, TestToken)) == None
  {
  }

  lemma CaseNoErrorsAKIA()
    ensures ValidateCredentials(Creds("AKIAASDFASDFASDF", TestSecret, "")) == None
  {
  }

  lemma CaseShortKeyId()
    ensures ValidateCredentials(Creds("ASIAASDFASDFASD", TestSecret, TestToken)) == Some(AKIDMinLen)
  {
  }

  lemma CaseLongKeyId()
    ensures ValidateCredentials(Creds(TestToken, TestSecret, TestToken)) == Some(AKIDMaxLen)
  {
  }

  lemma CaseEmptyKeyId()
    ensures ValidateCredentials(Creds("", TestSecret, TestToken)) == Some(AKIDRequired)
  {
  }

  lemma CaseWrongPrefix()
    ensures ValidateCredentials(Creds("AFIAASDFASDFASDF", TestSecret, TestToken)) == Some(AKIDBadPrefix)
  {
    var k: Str := "AFIAASDFASDFASDF";
    assert k[1] == 'F' && k[1] != LongTermPrefix[1] && k[1] != TemporaryPrefix[1];
  }

  lemma CaseEmptySecret()
    ensures ValidateCredentials(Creds("ASIAASDFASDFASDF", "", TestToken)) == Some(SAKRequired)
  {
  }

  lemma CaseAsiaMissingToken()
    ensures ValidateCredentials(Creds("ASIAASDFASDFASDF", TestSecret, "")) == Some(STRequired)
  {
  }

  lemma CaseInvalidKeyId()
    ensures ValidateCredentials(Creds("ASIAASDFASDFASD=", TestSecret, TestToken)) == Some(AKIDInvalidChar)
  {
    var k: Str := "ASIAASDFASDFASD=";
    assert !IsWordByte(k[15]);
  }
}
