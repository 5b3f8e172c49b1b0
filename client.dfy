/**
 * client.go: the validated constructor, its own copy of the validator, the option list
 * of `login` and the `Login` that keeps the original credentials' Source.
 */
module Client {
  import opened Wrappers
  import opened Strings
  import opened Errors
  import opened Aws
  import opened Options
  import Validate

  /** ClientConfig: the credentials to log in with, the region and the ARN of a role to assume. */
  datatype ClientConfig = ClientConfig(credentials: Credentials, region: Str, arn: Str)

  /** ClientConfig{} */
  const ZeroClientConfig := ClientConfig(ZeroCredentials, "", "")

  /** client.go's ValidateCredentials, written out again as the file has it. */
  function ValidateCredentials(c: Credentials): (r: Option<ValidationError>)
    ensures r == Validate.ValidateCredentials(c)
  {
    if c.accessKeyID == "" then Some(AKIDRequired)
    else if |c.accessKeyID| < 16 then Some(AKIDMinLen)
    else if |c.accessKeyID| > 128 then Some(AKIDMaxLen)
    else if !(HasPrefix(c.accessKeyID, "AKIA") || HasPrefix(c.accessKeyID, "ASIA")) then Some(AKIDBadPrefix)
    else if !MatchesAccessKeyPattern(c.accessKeyID) then Some(AKIDInvalidChar)
    else if c.secretAccessKey == "" then Some(SAKRequired)
    else if HasPrefix(c.accessKeyID, "ASIA") && c.sessionToken == "" then Some(STRequired)
    else None
  }

  /** The (ClientConfig, error) pair New returns. */
  datatype NewResult = NewResult(config: ClientConfig, err: Option<ValidationError>)

  /**
   * New: the validation gate. Well-formed credentials are stored with the region and ARN
   * as given; anything else yields the validator's error and the zero ClientConfig.
   */
  function New(credentials: Credentials, region: Str, arn: Str): (r: NewResult)
    ensures r.err == None <==> Validate.WellFormed(credentials)
    ensures r.err == None ==> r.config == ClientConfig(credentials, region, arn)
    ensures r.err != None ==> r.config == ZeroClientConfig && r.err == Validate.ValidateCredentials(credentials)
  {
    Validate.FirstFailingCheckWins(credentials);
    var err := ValidateCredentials(credentials);
    if err.Some? then NewResult(ZeroClientConfig, err)
    else NewResult(ClientConfig(credentials, region, arn), None)
  }

  /** The options `login` passes to the SDK. */
  function LoadOptions(cc: ClientConfig, optFns: seq<LoadOption>): seq<LoadOption> {
    CollectedOptions(optFns, cc.region, cc.credentials)
  }

  /**
   * login: build the option list, dropping the caller's options, and load a configuration
   * with the config's own credentials.
   */
  method BaseLogin(sdk: Sdk, cc: ClientConfig, optFns: seq<LoadOption>) returns (r: ConfigResult)
    ensures r == sdk.loadDefaultConfig(LoadOptions(cc, optFns))
    ensures r == sdk.loadDefaultConfig(LoadOptionsFor(cc.region, cc.credentials))
  {
    var fns := BuildLoadOptions(optFns, cc.region, cc.credentials);
    r := sdk.loadDefaultConfig(fns);
  }

  /**
   * The credentials built from an AssumeRole answer: its key, secret and token, the
   * original Source, and an expiry that counts only when it is not the zero time.
   */
  function ExchangedCredentials(sts: StsCredentials, source: Str): Credentials {
    Credentials(
      ToString(sts.accessKeyId), ToString(sts.secretAccessKey), ToString(sts.sessionToken),
      source, ToTime(sts.expiration) != ZeroTime, ToTime(sts.expiration))
  }

  /**
   * ClientConfig.Login. The caller's `optFns` reach only `login`, which drops them.
   * The second load goes through `login`, not `Login`, so there is no second identity
   * check and no second exchange.
   */
  function Login(sdk: Sdk, cc: ClientConfig, sessionName: Str, optFns: seq<LoadOption>): Outcome<Call> {
    var options := LoadOptions(cc, optFns);
    var base := sdk.loadDefaultConfig(options);
    var loaded := [LoadDefaultConfig(options)];
    if base.err.Some? then Outcome(ZeroConfig, base.err, loaded)
    else if cc.arn == "" then Outcome(base.config, None, loaded)
    else
      var queried := loaded + [GetCallerIdentity(base.config)];
      match sdk.getCallerIdentity(base.config)
      case Failure(e) => Outcome(ZeroConfig, Some(Wrapped(IdentityContext, e)), queried)
      case Success(callerArn) =>
        if ToString(callerArn) == cc.arn then Outcome(base.config, None, queried)
        else
          var exchanged := queried + [AssumeRole(base.config, cc.arn, sessionName)];
          match sdk.assumeRole(base.config, cc.arn, sessionName)
          case Failure(e) => Outcome(ZeroConfig, Some(Wrapped(AssumeContext(cc.arn), e)), exchanged)
          case Success(sts) =>
            var ncc := New(ExchangedCredentials(sts, cc.credentials.source), cc.region, cc.arn);
            if ncc.err.Some? then Outcome(ZeroConfig, Some(Invalid(ncc.err.value)), exchanged)
            else
              var final := LoadOptions(ncc.config, optFns);
              var r := sdk.loadDefaultConfig(final);
              Outcome(r.config, r.err, exchanged + [LoadDefaultConfig(final)])
  }

  /** A failed first load ends the login with the zero config and the error unchanged. */
  lemma LoginBaseLoadFailure(sdk: Sdk, cc: ClientConfig, sessionName: Str, optFns: seq<LoadOption>)
    requires sdk.loadDefaultConfig(LoadOptions(cc, optFns)).err.Some?
    ensures Login(sdk, cc, sessionName, optFns)
      == Outcome(ZeroConfig, sdk.loadDefaultConfig(LoadOptions(cc, optFns)).err, [LoadDefaultConfig(LoadOptions(cc, optFns))])
  {
  }

  /** Without an ARN the base configuration is the answer, after a single load and nothing else. */
  lemma LoginWithoutArn(sdk: Sdk, cc: ClientConfig, sessionName: Str, optFns: seq<LoadOption>)
    requires cc.arn == ""
    ensures var out := Login(sdk, cc, sessionName, optFns);
      var base := sdk.loadDefaultConfig(LoadOptions(cc, optFns));
      && out.calls == [LoadDefaultConfig(LoadOptions(cc, optFns))]
      && out.err == base.err
      && out.config == (if base.err.None? then base.config else ZeroConfig)
  {
  }

  /** A failed identity query yields the zero config and the cause wrapped as "getting caller identity". */
  lemma LoginIdentityFailure(sdk: Sdk, cc: ClientConfig, sessionName: Str, optFns: seq<LoadOption>, e: Error)
    requires cc.arn != ""
    requires sdk.loadDefaultConfig(LoadOptions(cc, optFns)).err.None?
    requires sdk.getCallerIdentity(sdk.loadDefaultConfig(LoadOptions(cc, optFns)).config) == Failure(e)
    ensures var out := Login(sdk, cc, sessionName, optFns);
      && out.config == ZeroConfig
      && out.err == Some(Wrapped(IdentityContext, e))
      && Is(out.err.value, e)
      && Count(out.calls, IsExchange) == 0
  {
    ProtocolTraceCounts(Login(sdk, cc, sessionName, optFns).calls);
  }

  /** When the caller already is the target ARN, the base configuration is returned and no role is assumed. */
  lemma LoginAlreadyTarget(sdk: Sdk, cc: ClientConfig, sessionName: Str, optFns: seq<LoadOption>)
    requires cc.arn != ""
    requires sdk.loadDefaultConfig(LoadOptions(cc, optFns)).err.None?
    requires sdk.getCallerIdentity(sdk.loadDefaultConfig(LoadOptions(cc, optFns)).config) == Success(Some(cc.arn))
    ensures var out := Login(sdk, cc, sessionName, optFns);
      var base := sdk.loadDefaultConfig(LoadOptions(cc, optFns));
      && out.config == base.config
      && out.err == None
      && out.calls == [LoadDefaultConfig(LoadOptions(cc, optFns)), GetCallerIdentity(base.config)]
  {
  }

  /** A failed exchange yields the zero config and the cause wrapped as "assuming role <arn>". */
  lemma LoginExchangeFailure(sdk: Sdk, cc: ClientConfig, sessionName: Str, optFns: seq<LoadOption>, e: Error)
    requires cc.arn != ""
    requires sdk.loadDefaultConfig(LoadOptions(cc, optFns)).err.None?
    requires var base := sdk.loadDefaultConfig(LoadOptions(cc, optFns)).config;
      && sdk.getCallerIdentity(base).Success?
      && ToString(sdk.getCallerIdentity(base).value) != cc.arn
      && sdk.assumeRole(base, cc.arn, sessionName) == Failure(e)
    ensures var out := Login(sdk, cc, sessionName, optFns);
      && out.config == ZeroConfig
      && out.err == Some(Wrapped(AssumeContext(cc.arn), e))
      && Is(out.err.value, e)
      && out.calls[|out.calls| - 1] == AssumeRole(sdk.loadDefaultConfig(LoadOptions(cc, optFns)).config, cc.arn, sessionName)
  {
  }

  /**
   * After a successful exchange the new credentials go through New again. If they are
   * rejected the login ends with the zero config and the validation error; otherwise the
   * last call is one load with the new credentials, which carry the original Source, can
   * expire exactly when the expiry is not the zero time, and keep the region and ARN.
   */
  lemma LoginAfterExchange(sdk: Sdk, cc: ClientConfig, sessionName: Str, optFns: seq<LoadOption>, sts: StsCredentials)
    requires cc.arn != ""
    requires sdk.loadDefaultConfig(LoadOptions(cc, optFns)).err.None?
    requires var base := sdk.loadDefaultConfig(LoadOptions(cc, optFns)).config;
      && sdk.getCallerIdentity(base).Success?
      && ToString(sdk.getCallerIdentity(base).value) != cc.arn
      && sdk.assumeRole(base, cc.arn, sessionName) == Success(sts)
    ensures var out := Login(sdk, cc, sessionName, optFns);
      var creds := ExchangedCredentials(sts, cc.credentials.source);
      && creds.accessKeyID == ToString(sts.accessKeyId)
      && creds.source == cc.credentials.source
      && (creds.canExpire <==> ToTime(sts.expiration) != ZeroTime)
      && (!Validate.WellFormed(creds) ==>
            out.config == ZeroConfig && out.err == Some(Invalid(Validate.ValidateCredentials(creds).value))
            && |out.calls| == 3)
      && (Validate.WellFormed(creds) ==>
            var base := sdk.loadDefaultConfig(LoadOptions(cc, optFns)).config;
            var final := LoadOptionsFor(cc.region, creds);
            && ConfigResult(out.config, out.err) == sdk.loadDefaultConfig(final)
            && out.calls == [LoadDefaultConfig(LoadOptions(cc, optFns)), GetCallerIdentity(base),
                             AssumeRole(base, cc.arn, sessionName), LoadDefaultConfig(final)])
  {
    CallerOptionsDropped(optFns, cc.region, ExchangedCredentials(sts, cc.credentials.source));
  }

  /**
   * The shapes of trace Login produces: a load, then possibly the identity query, then
   * possibly the exchange, then possibly the final load, and nothing more.
   */
  predicate ProtocolTrace(t: seq<Call>) {
    && 1 <= |t| <= 4
    && t[0].LoadDefaultConfig?
    && (|t| > 1 ==> t[1].GetCallerIdentity?)
    && (|t| > 2 ==> t[2].AssumeRole?)
    && (|t| > 3 ==> t[3].LoadDefaultConfig?)
  }

  lemma {:induction false} ProtocolTraceCounts(t: seq<Call>)
    requires ProtocolTrace(t)
    ensures Count(t, IsLoad) == (if |t| == 4 then 2 else 1)
    ensures Count(t, IsIdentityQuery) == (if |t| >= 2 then 1 else 0)
    ensures Count(t, IsExchange) == (if |t| >= 3 then 1 else 0)
  {
    var init := t[..|t| - 1];
    assert t == init + [t[|t| - 1]];
    CountSnoc(init, t[|t| - 1], IsLoad);
    CountSnoc(init, t[|t| - 1], IsIdentityQuery);
    CountSnoc(init, t[|t| - 1], IsExchange);
    if |t| > 1 {
      ProtocolTraceCounts(init);
    } else {
      assert init == [];
    }
  }

  /**
   * Whatever the collaborators answer: the first call is the base load, there is at most
   * one identity query, at most one exchange and at most two loads, and every error paired
   * with a non-zero config is the final load's own answer after an exchange.
   */
  lemma LoginCallBudget(sdk: Sdk, cc: ClientConfig, sessionName: Str, optFns: seq<LoadOption>)
    ensures var out := Login(sdk, cc, sessionName, optFns);
      && ProtocolTrace(out.calls)
      && 1 <= |out.calls| <= 4
      && out.calls[0] == LoadDefaultConfig(LoadOptions(cc, optFns))
      && Count(out.calls, IsIdentityQuery) <= 1
      && Count(out.calls, IsExchange) <= 1
      && Count(out.calls, IsLoad) <= 2
      && (out.err.Some? && out.config != ZeroConfig ==>
            |out.calls| == 4 && out.calls[2].AssumeRole? && out.calls[3].LoadDefaultConfig?
            && ConfigResult(out.config, out.err) == sdk.loadDefaultConfig(out.calls[3].options))
  {
    ProtocolTraceCounts(Login(sdk, cc, sessionName, optFns).calls);
  }

  /** The options a caller passes make no difference: Go's copy into the nil slice drops them. */
  lemma LoginIgnoresCallerOptions(sdk: Sdk, cc: ClientConfig, sessionName: Str, a: seq<LoadOption>, b: seq<LoadOption>)
    ensures Login(sdk, cc, sessionName, a) == Login(sdk, cc, sessionName, b)
  {
    forall c: ClientConfig ensures LoadOptions(c, a) == LoadOptions(c, b) {
      CallerOptionsDropped(a, c.region, c.credentials);
      CallerOptionsDropped(b, c.region, c.credentials);
    }
  }
}
