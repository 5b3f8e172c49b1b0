/**
 * The parts of the AWS SDK the package touches, as abstract values. Loading a
 * configuration, querying the caller identity and assuming a role are network
 * operations of the SDK; the model receives their outcomes as the functions of an
 * `Sdk` value, and records every call in a trace.
 */
module Aws {
  import opened Wrappers
  import opened Strings
  import opened Errors

  /** time.Time; `raw` stands for the whole struct, compared with `==` as Go's `!=` does. */
  datatype Time = Time(raw: int)

  /** time.Time{} */
  const ZeroTime := Time(0)

  /** aws.Credentials */
  datatype Credentials = Credentials(
    accessKeyID: Str,
    secretAccessKey: Str,
    sessionToken: Str,
    source: Str,
    canExpire: bool,
    expires: Time)

  /** aws.Credentials{} */
  const ZeroCredentials := Credentials("", "", "", "", false, ZeroTime)

  /** types.Credentials of an AssumeRole answer: every field is a pointer that may be nil. */
  datatype StsCredentials = StsCredentials(
    accessKeyId: Option<Str>,
    secretAccessKey: Option<Str>,
    sessionToken: Option<Str>,
    expiration: Option<Time>)

  /** aws.ToString: a nil pointer reads as "". */
  function ToString(p: Option<Str>): Str {
    match p
    case None => ""
    case Some(s) => s
  }

  /** aws.ToTime: a nil pointer reads as the zero time. */
  function ToTime(p: Option<Time>): Time {
    match p
    case None => ZeroTime
    case Some(t) => t
  }

  /** aws.Config: an opaque session handle; `ZeroConfig` is aws.Config{}. */
  datatype AwsConfig = ZeroConfig | Config(handle: nat)

  /** One `func(*config.LoadOptions) error` passed to config.LoadDefaultConfig. */
  datatype LoadOption =
    | WithDefaultRegion(region: Str)
    | WithRegion(region: Str)
    | WithStaticCredentials(value: Credentials)   // WithCredentialsProvider(StaticCredentialsProvider{Value: value})
    | CallerOption(id: nat)                        // any other option a caller supplies

  /** The (aws.Config, error) pair a load returns. */
  datatype ConfigResult = ConfigResult(config: AwsConfig, err: Option<Error>)

  /**
   * What the SDK answers: config.LoadDefaultConfig for a list of options,
   * GetCallerIdentity (the caller's ARN pointer) and AssumeRole (role ARN, session
   * name) on an STS client built from a config.
   */
  datatype Sdk = Sdk(
    loadDefaultConfig: seq<LoadOption> -> ConfigResult,
    getCallerIdentity: AwsConfig -> Result<Option<Str>, Error>,
    assumeRole: (AwsConfig, Str, Str) -> Result<StsCredentials, Error>)

  /**
   * What a login returns, the (aws.Config, error) pair, together with the calls it made
   * to its collaborators in order.
   */
  datatype Outcome<C> = Outcome(config: AwsConfig, err: Option<Error>, calls: seq<C>)

  /** One call made into the SDK. */
  datatype Call =
    | LoadDefaultConfig(options: seq<LoadOption>)
    | GetCallerIdentity(config: AwsConfig)
    | AssumeRole(config: AwsConfig, roleArn: Str, sessionName: Str)

  predicate IsLoad(c: Call) { c.LoadDefaultConfig? }
  predicate IsIdentityQuery(c: Call) { c.GetCallerIdentity? }
  predicate IsExchange(c: Call) { c.AssumeRole? }

  /** How many elements of `s` satisfy `p`. */
  function Count<T>(s: seq<T>, p: T -> bool): nat {
    if s == [] then 0 else (if p(s[0]) then 1 else 0) + Count(s[1..], p)
  }

  lemma {:induction false} CountConcat<T>(s: seq<T>, t: seq<T>, p: T -> bool)
    ensures Count(s + t, p) == Count(s, p) + Count(t, p)
  {
    if s == [] {
      assert s + t == t;
    } else {
      assert (s + t)[1..] == s[1..] + t;
      CountConcat(s[1..], t, p);
    }
  }

  /** Counting after appending one element. */
  lemma CountSnoc<T>(s: seq<T>, x: T, p: T -> bool)
    ensures Count(s + [x], p) == Count(s, p) + (if p(x) then 1 else 0)
  {
    CountConcat(s, [x], p);
    assert [x][1..] == [];
  }
}
