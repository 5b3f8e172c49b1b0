/**
 * login.go: the `Login` that rebuilds its configuration through the option-based New,
 * carrying the map id, application identifier and refresh interval forward, and its
 * `loadConfig`. The ClientConfig type this file works on, that New and the
 * `ClientConfig.Credentials(source)` method are defined elsewhere in the package; the
 * model takes their behaviour as collaborator functions.
 */
module TaggedLogin {
  import opened Wrappers
  import opened Strings
  import opened Errors
  import opened Aws
  import opened Options

  /** The fields of login.go's ClientConfig that it reads, with the keys it is built from. */
  datatype TaggedConfig = TaggedConfig(
    accessKey: Str,
    secretKey: Str,
    sessionToken: Str,
    region: Str,
    arn: Str,
    mapId: Str,
    appIdentifier: Str,
    refresh: int)            // time.Duration, in nanoseconds

  /** The arguments of New(credentials, region, arn, WithMapID(..), WithAppIdentifier(..), WithRefreshInterval(..)). */
  datatype NewArgs = NewArgs(
    credentials: Credentials,
    region: Str,
    arn: Str,
    mapId: Str,
    appIdentifier: Str,
    refresh: int)

  /** The SDK together with the option-based New and ClientConfig.Credentials(source). */
  datatype Env = Env(
    sdk: Sdk,
    newConfig: NewArgs -> Result<TaggedConfig, Error>,
    credentialsOf: (TaggedConfig, Str) -> Credentials)

  /** One call this Login makes: into the SDK, or to New. */
  datatype Step = SdkCall(call: Call) | NewCall(args: NewArgs)

  predicate IsLoadStep(s: Step) { s.SdkCall? && s.call.LoadDefaultConfig? }
  predicate IsIdentityStep(s: Step) { s.SdkCall? && s.call.GetCallerIdentity? }
  predicate IsExchangeStep(s: Step) { s.SdkCall? && s.call.AssumeRole? }
  predicate IsNewStep(s: Step) { s.NewCall? }

  /** The Source given to rebuilt credentials and asked of the config when loading. */
  const PackageSource: Str := "awsclientconfig"

  /** The options loadConfig passes to the SDK. */
  function LoadOptions(env: Env, cc: TaggedConfig, optFns: seq<LoadOption>): seq<LoadOption> {
    CollectedOptions(optFns, cc.region, env.credentialsOf(cc, PackageSource))
  }

  /**
   * loadConfig: build the option list, dropping the caller's options, and load a
   * configuration with `cc.Credentials("awsclientconfig")`.
   */
  method LoadConfig(env: Env, cc: TaggedConfig, optFns: seq<LoadOption>) returns (r: ConfigResult)
    ensures r == env.sdk.loadDefaultConfig(LoadOptions(env, cc, optFns))
    ensures r == env.sdk.loadDefaultConfig(LoadOptionsFor(cc.region, env.credentialsOf(cc, PackageSource)))
  {
    var fns := BuildLoadOptions(optFns, cc.region, env.credentialsOf(cc, PackageSource));
    r := env.sdk.loadDefaultConfig(fns);
  }

  /**
   * What New is asked for after an exchange: the exchanged key, secret and token with
   * Source "awsclientconfig" and an expiry that counts only when it is not the zero time,
   * and the region, ARN, map id, application identifier and refresh interval of `cc`.
   */
  function RebuildArgs(cc: TaggedConfig, sts: StsCredentials): NewArgs {
    NewArgs(
      Credentials(
        ToString(sts.accessKeyId), ToString(sts.secretAccessKey), ToString(sts.sessionToken),
        PackageSource, ToTime(sts.expiration) != ZeroTime, ToTime(sts.expiration)),
      cc.region, cc.arn, cc.mapId, cc.appIdentifier, cc.refresh)
  }

  /** ClientConfig.Login of login.go. The final load goes through loadConfig, not Login. */
  function Login(env: Env, cc: TaggedConfig, sessionName: Str, optFns: seq<LoadOption>): Outcome<Step> {
    var options := LoadOptions(env, cc, optFns);
    var base := env.sdk.loadDefaultConfig(options);
    var loaded := [SdkCall(LoadDefaultConfig(options))];
    if base.err.Some? then Outcome(ZeroConfig, base.err, loaded)
    else if cc.arn == "" then Outcome(base.config, None, loaded)
    else
      var queried := loaded + [SdkCall(GetCallerIdentity(base.config))];
      match env.sdk.getCallerIdentity(base.config)
      case Failure(e) => Outcome(ZeroConfig, Some(Wrapped(IdentityContext, e)), queried)
      case Success(callerArn) =>
        if ToString(callerArn) == cc.arn then Outcome(base.config, None, queried)
        else
          var exchanged := queried + [SdkCall(AssumeRole(base.config, cc.arn, sessionName))];
          match env.sdk.assumeRole(base.config, cc.arn, sessionName)
          case Failure(e) => Outcome(ZeroConfig, Some(Wrapped(AssumeContext(cc.arn), e)), exchanged)
          case Success(sts) =>
            var args := RebuildArgs(cc, sts);
            var built := exchanged + [NewCall(args)];
            match env.newConfig(args)
            case Failure(e) => Outcome(ZeroConfig, Some(e), built)
            case Success(ncc) =>
              var final := LoadOptions(env, ncc, optFns);
              var r := env.sdk.loadDefaultConfig(final);
              Outcome(r.config, r.err, built + [SdkCall(LoadDefaultConfig(final))])
  }

  /** A failed first load ends the login with the zero config and the error unchanged. */
  lemma LoginBaseLoadFailure(env: Env, cc: TaggedConfig, sessionName: Str, optFns: seq<LoadOption>)
    requires env.sdk.loadDefaultConfig(LoadOptions(env, cc, optFns)).err.Some?
    ensures Login(env, cc, sessionName, optFns)
      == Outcome(ZeroConfig, env.sdk.loadDefaultConfig(LoadOptions(env, cc, optFns)).err,
                 [SdkCall(LoadDefaultConfig(LoadOptions(env, cc, optFns)))])
  {
  }

  /** Without an ARN the base configuration is the answer, after a single load and nothing else. */
  lemma LoginWithoutArn(env: Env, cc: TaggedConfig, sessionName: Str, optFns: seq<LoadOption>)
    requires cc.arn == ""
    ensures var out := Login(env, cc, sessionName, optFns);
      var base := env.sdk.loadDefaultConfig(LoadOptions(env, cc, optFns));
      && out.calls == [SdkCall(LoadDefaultConfig(LoadOptions(env, cc, optFns)))]
      && out.err == base.err
      && out.config == (if base.err.None? then base.config else ZeroConfig)
  {
  }

  /** A failed identity query yields the zero config and the cause wrapped as "getting caller identity". */
  lemma LoginIdentityFailure(env: Env, cc: TaggedConfig, sessionName: Str, optFns: seq<LoadOption>, e: Error)
    requires cc.arn != ""
    requires env.sdk.loadDefaultConfig(LoadOptions(env, cc, optFns)).err.None?
    requires env.sdk.getCallerIdentity(env.sdk.loadDefaultConfig(LoadOptions(env, cc, optFns)).config) == Failure(e)
    ensures var out := Login(env, cc, sessionName, optFns);
      && out.config == ZeroConfig
      && out.err == Some(Wrapped(IdentityContext, e))
      && Is(out.err.value, e)
      && |out.calls| == 2
  {
  }

  /** When the caller already is the target ARN, the base configuration is returned and no role is assumed. */
  lemma LoginAlreadyTarget(env: Env, cc: TaggedConfig, sessionName: Str, optFns: seq<LoadOption>)
    requires cc.arn != ""
    requires env.sdk.loadDefaultConfig(LoadOptions(env, cc, optFns)).err.None?
    requires env.sdk.getCallerIdentity(env.sdk.loadDefaultConfig(LoadOptions(env, cc, optFns)).config) == Success(Some(cc.arn))
    ensures var out := Login(env, cc, sessionName, optFns);
      var base := env.sdk.loadDefaultConfig(LoadOptions(env, cc, optFns));
      && out.config == base.config
      && out.err == None
      && out.calls == [SdkCall(LoadDefaultConfig(LoadOptions(env, cc, optFns))), SdkCall(GetCallerIdentity(base.config))]
  {
  }

  /** A failed exchange yields the zero config and the cause wrapped as "assuming role <arn>". */
  lemma LoginExchangeFailure(env: Env, cc: TaggedConfig, sessionName: Str, optFns: seq<LoadOption>, e: Error)
    requires cc.arn != ""
    requires env.sdk.loadDefaultConfig(LoadOptions(env, cc, optFns)).err.None?
    requires var base := env.sdk.loadDefaultConfig(LoadOptions(env, cc, optFns)).config;
      && env.sdk.getCallerIdentity(base).Success?
      && ToString(env.sdk.getCallerIdentity(base).value) != cc.arn
      && env.sdk.assumeRole(base, cc.arn, sessionName) == Failure(e)
    ensures var out := Login(env, cc, sessionName, optFns);
      && out.config == ZeroConfig
      && out.err == Some(Wrapped(AssumeContext(cc.arn), e))
      && Is(out.err.value, e)
      && |out.calls| == 3
  {
  }

  /**
   * After a successful exchange New is asked for the rebuilt config: the exchanged keys
   * with Source "awsclientconfig", CanExpire exactly when the expiry is not the zero time,
   * and everything else of `cc` carried forward. A New failure ends the login with the
   * zero config and New's error; otherwise the last step is one load of the new config.
   */
  lemma LoginAfterExchange(env: Env, cc: TaggedConfig, sessionName: Str, optFns: seq<LoadOption>, sts: StsCredentials)
    requires cc.arn != ""
    requires env.sdk.loadDefaultConfig(LoadOptions(env, cc, optFns)).err.None?
    requires var base := env.sdk.loadDefaultConfig(LoadOptions(env, cc, optFns)).config;
      && env.sdk.getCallerIdentity(base).Success?
      && ToString(env.sdk.getCallerIdentity(base).value) != cc.arn
      && env.sdk.assumeRole(base, cc.arn, sessionName) == Success(sts)
    ensures var out := Login(env, cc, sessionName, optFns);
      var base := env.sdk.loadDefaultConfig(LoadOptions(env, cc, optFns)).config;
      var args := RebuildArgs(cc, sts);
      && args.credentials.accessKeyID == ToString(sts.accessKeyId)
      && args.credentials.secretAccessKey == ToString(sts.secretAccessKey)
      && args.credentials.sessionToken == ToString(sts.sessionToken)
      && args.credentials.source == "awsclientconfig"
      && (args.credentials.canExpire <==> ToTime(sts.expiration) != ZeroTime)
      && args.region == cc.region && args.arn == cc.arn
      && args.mapId == cc.mapId && args.appIdentifier == cc.appIdentifier && args.refresh == cc.refresh
      && out.calls[3] == NewCall(args)
      && (env.newConfig(args).Failure? ==>
            out.config == ZeroConfig && out.err == Some(env.newConfig(args).error) && |out.calls| == 4)
      && (env.newConfig(args).Success? ==>
            var final := LoadOptions(env, env.newConfig(args).value, optFns);
            && ConfigResult(out.config, out.err) == env.sdk.loadDefaultConfig(final)
            && out.calls == [SdkCall(LoadDefaultConfig(LoadOptions(env, cc, optFns))), SdkCall(GetCallerIdentity(base)),
                             SdkCall(AssumeRole(base, cc.arn, sessionName)), NewCall(args),
                             SdkCall(LoadDefaultConfig(final))])
  {
  }

  /**
   * The shapes of trace this Login produces: a load, then possibly the identity query,
   * the exchange, the call to New and the final load, in that order.
   */
  predicate ProtocolTrace(t: seq<Step>) {
    && 1 <= |t| <= 5
    && IsLoadStep(t[0])
    && (|t| > 1 ==> IsIdentityStep(t[1]))
    && (|t| > 2 ==> IsExchangeStep(t[2]))
    && (|t| > 3 ==> IsNewStep(t[3]))
    && (|t| > 4 ==> IsLoadStep(t[4]))
  }

  lemma {:induction false} ProtocolTraceCounts(t: seq<Step>)
    requires ProtocolTrace(t)
    ensures Count(t, IsLoadStep) == (if |t| == 5 then 2 else 1)
    ensures Count(t, IsIdentityStep) == (if |t| >= 2 then 1 else 0)
    ensures Count(t, IsExchangeStep) == (if |t| >= 3 then 1 else 0)
    ensures Count(t, IsNewStep) == (if |t| >= 4 then 1 else 0)
  {
    var init := t[..|t| - 1];
    assert t == init + [t[|t| - 1]];
    CountSnoc(init, t[|t| - 1], IsLoadStep);
    CountSnoc(init, t[|t| - 1], IsIdentityStep);
    CountSnoc(init, t[|t| - 1], IsExchangeStep);
    CountSnoc(init, t[|t| - 1], IsNewStep);
    if |t| > 1 {
      ProtocolTraceCounts(init);
    } else {
      assert init == [];
    }
  }

  /**
   * Whatever the collaborators answer: at most one identity query, one exchange and one
   * New, at most two loads, and the identity query never follows the exchange; every
   * error paired with a non-zero config is the final load's own answer.
   */
  lemma LoginCallBudget(env: Env, cc: TaggedConfig, sessionName: Str, optFns: seq<LoadOption>)
    ensures var out := Login(env, cc, sessionName, optFns);
      && ProtocolTrace(out.calls)
      && 1 <= |out.calls| <= 5
      && out.calls[0] == SdkCall(LoadDefaultConfig(LoadOptions(env, cc, optFns)))
      && Count(out.calls, IsIdentityStep) <= 1
      && Count(out.calls, IsExchangeStep) <= 1
      && Count(out.calls, IsNewStep) <= 1
      && Count(out.calls, IsLoadStep) <= 2
      && (forall i :: 2 <= i < |out.calls| ==> !IsIdentityStep(out.calls[i]))
      && (out.err.Some? && out.config != ZeroConfig ==>
            |out.calls| == 5 && IsLoadStep(out.calls[4])
            && ConfigResult(out.config, out.err) == env.sdk.loadDefaultConfig(out.calls[4].call.options))
  {
    ProtocolTraceCounts(Login(env, cc, sessionName, optFns).calls);
  }

  /** The options a caller passes make no difference: Go's copy into the nil slice drops them. */
  lemma LoginIgnoresCallerOptions(env: Env, cc: TaggedConfig, sessionName: Str, a: seq<LoadOption>, b: seq<LoadOption>)
    ensures Login(env, cc, sessionName, a) == Login(env, cc, sessionName, b)
  {
    forall c: TaggedConfig ensures LoadOptions(env, c, a) == LoadOptions(env, c, b) {
      CallerOptionsDropped(a, c.region, env.credentialsOf(c, PackageSource));
      CallerOptionsDropped(b, c.region, env.credentialsOf(c, PackageSource));
    }
  }
}
