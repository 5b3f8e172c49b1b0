# awsclientconfig — a verified model of credential validation and role-exchange login

The Go package `awsclientconfig` turns an AWS access key id, secret access key and
session token into an `aws.Config` session. It first checks the credentials'
format without touching the network (`ValidateCredentials`, gated by the constructor
`New`). Its `Login` then loads a configuration and, when a role ARN is set and the
caller is someone else, exchanges the credentials once through STS `AssumeRole`
before loading the final configuration.

This project models that core in Dafny:

- `Validate` (validate.go): the seven ordered format checks and their sentinel errors.
  The lemma `FirstFailingCheckWins` states the contract: the validator returns nil
  exactly when no check fails, and otherwise the error of the first failing check.
  A lemma per check and a lemma per row of the package's table test come with it.
- `Client` (client.go): the file's own copy of the validator, proved equal to
  validate.go's. Also the validated constructor `New`, the option-list building of
  `login`, and the `Login` that keeps the original credentials' `Source`.
- `TaggedLogin` (login.go): the `Login` that rebuilds its configuration with
  `Source = "awsclientconfig"` and carries the map id, application identifier and
  refresh interval forward, and its `loadConfig`.
- `Options`: the `opts` accumulator as a class (`Add`, and Go's `copy` into its nil
  slice), and the option list both files build. The list is the default region, then
  a region override when a region is set, then the static credentials. Because
  `copy(o.fns, optFns)` copies into a nil slice, the caller's options are dropped.
  The model states this as the package's behaviour (`LoginIgnoresCallerOptions`).
- `Aws`, `Errors`, `Strings`, `Wrappers`: the SDK's values
  as abstract data, Go error wrapping with `%w` and `errors.Is`, and Go strings.

Modelling choices:

- A Go string is a Dafny `string` with one element per byte, so `|s|` is Go's `len(s)`.
  The pattern `^[\w]+$` becomes the byte predicate `MatchesAccessKeyPattern`: a
  non-empty string of ASCII letters, digits and `_`.
- The SDK calls (`config.LoadDefaultConfig`, `GetCallerIdentity`, `AssumeRole`) are
  the functions of an `Sdk` value. Their answers are inputs of the model. Every
  `Login` returns Go's `(aws.Config, error)` pair and also the list of collaborator calls
  it made, in order. That list states "no identity query", "at most one exchange" and
  "exactly one final load".
- The `Login` functions are pure functions over these answers. `login`/`loadConfig`
  build their option list imperatively through `Options.Opts` (the methods
  `Client.BaseLogin`, `TaggedLogin.LoadConfig` and `Options.BuildLoadOptions`), and
  each method is proved equal to the option-list function the `Login` functions use
  (`Options.CollectedOptions`: Go's copy of the caller's options into the nil slice,
  followed by the package's own options).

Two points of the code's behaviour that the model keeps:

- `Login` does not recurse after an exchange: the second load goes through the
  lower-case `login`/`loadConfig` (client.go:155, login.go:94).
- Only the identity-query and `AssumeRole` errors are wrapped. The first load's error
  and `New`'s error are returned unwrapped, and a failed final load returns the SDK's
  own pair.

In this snapshot the package declares `ValidateCredentials`, the seven sentinel errors, `opts`
and `ClientConfig.Login` twice: client.go against validate.go, errors.go and login.go.
Go would reject that. Each file's version is modelled on its own.

## Model

| member | source | states |
|---|---|---|
| Validate.FirstFailingCheckWins | validate.go:9-37 | the result is nil iff none of the seven checks fails (both directions); otherwise the error returned fails its check and every check before it in source order passes |
| Validate.EmptyKeyRequired | validate.go:14-16 | an empty key id gives ErrAKIDRequired whatever the secret and token are |
| Validate.ShortKeyRejected | validate.go:17-19 | a non-empty key id under 16 bytes gives ErrAKIDMinLen, even with the ASIA prefix and a token |
| Validate.LongKeyRejected | validate.go:20-22 | a key id over 128 bytes gives ErrAKIDMaxLen before prefix or characters are considered |
| Validate.BadPrefixRejected | validate.go:23-25 | a key id of 16..128 bytes starting with neither AKIA nor ASIA gives ErrAKIDBadPrefix |
| Validate.InvalidCharRejected | validate.go:26-28 | a key id of good length and prefix with a byte outside [A-Za-z0-9_] gives ErrAKIDInvalidChar |
| Validate.SecretRequired | validate.go:29-31 | with a good key id an empty secret gives ErrSAKRequired, whatever the token (checked before the token rule) |
| Validate.SessionTokenRule | validate.go:32-34 | with a good key id and a secret and no token: an ASIA key id gives ErrSTRequired, an AKIA key id passes |
| Validate.CaseNoErrorsASIA | validate_test.go:19-27 | the "no errors ASIA" row validates to nil |
| Validate.CaseNoErrorsAKIA | validate_test.go:28-36 | the "no errors AKIA" row (no token) validates to nil |
| Validate.CaseShortKeyId | validate_test.go:37-46 | the "short AKID" row gives ErrAKIDMinLen |
| Validate.CaseLongKeyId | validate_test.go:47-56 | the "long AKID" row gives ErrAKIDMaxLen |
| Validate.CaseEmptyKeyId | validate_test.go:57-66 | the "empty AKID" row gives ErrAKIDRequired |
| Validate.CaseWrongPrefix | validate_test.go:67-76 | the AFIA-prefixed row gives ErrAKIDBadPrefix |
| Validate.CaseEmptySecret | validate_test.go:77-86 | the "empty SAK" row gives ErrSAKRequired |
| Validate.CaseAsiaMissingToken | validate_test.go:87-96 | the "ASIA missing ST" row gives ErrSTRequired |
| Validate.CaseInvalidKeyId | validate_test.go:97-106 | the row whose key id ends in '=' gives ErrAKIDInvalidChar |
| Client.ValidateCredentials | client.go:53-77 | client.go's copy of the validator returns the same result as validate.go's on every input |
| Client.New | client.go:29-39 | no error iff the credentials are well formed; then the credentials, region and ARN are stored unchanged, otherwise the zero ClientConfig with the validator's error |
| Options.GoCopy | client.go:90 | Go's copy keeps the destination's length and overwrites only its first min(len(dst), len(src)) elements |
| Options.Opts.constructor | client.go:88 | `var o opts` starts with no options |
| Options.Opts.Add | client.go:83-85 | add appends exactly the given options to those already collected |
| Options.Opts.CopyFrom | client.go:90 | copy(o.fns, src) leaves o.fns as Go's copy does |
| Options.BuildLoadOptions | client.go:88-102 | the list built (also by login.go:98-112) is the default region, the region override iff the region is non-empty, then the credentials provider, and no caller option |
| Options.CallerOptionsDropped | client.go:88-90 | copying the caller's options into the nil slice of a fresh `opts` keeps none of them: the collected list is the package's own options alone (login.go:98-100 does the same) |
| Options.LoadOptionsShape | client.go:92-102 | the option list has 2 or 3 entries: default region first, WithRegion present iff the region is non-empty, static credentials last, no caller option |
| Client.BaseLogin | client.go:87-105 | login loads with exactly the option list of the config's region and credentials, whatever optFns are |
| Client.LoginBaseLoadFailure | client.go:108-111 | a failed first load returns the zero config and the load's error unchanged, after that one call |
| Client.LoginWithoutArn | client.go:108-116 | with an empty ARN the only call is the base load, and its config (or the zero config with its error) is returned |
| Client.LoginIdentityFailure | client.go:118-123 | an identity-query error returns the zero config and the error wrapped with "getting caller identity" (errors.Is still finds it), and no role is assumed |
| Client.LoginAlreadyTarget | client.go:125-128 | when the caller's ARN is the target the base config is returned with no error, after only the load and the identity query |
| Client.LoginExchangeFailure | client.go:130-139 | an AssumeRole error returns the zero config and the error wrapped with "assuming role <arn>"; AssumeRole was called with the target ARN and the session name |
| Client.LoginAfterExchange | client.go:141-155 | the new credentials keep the original Source and CanExpire iff the expiry is non-zero; rejected ones return the zero config and the validation error; accepted ones give the trace base load, identity query, AssumeRole, final load with the same region, and the final load's pair is returned |
| Client.ProtocolTraceCounts | client.go:107-156 | a trace of the shape load, identity query, exchange, load (or a prefix of it) has the corresponding numbers of each call |
| Client.LoginCallBudget | client.go:107-156 | every run's calls follow the protocol trace: the base load comes first, with at most one identity query, one AssumeRole and two loads, and an error next to a non-zero config is the final load's own answer |
| Client.LoginIgnoresCallerOptions | client.go:88-90 | Login hands optFns only to login, whose copy into a nil slice drops them: they change nothing in Login's result or calls |
| TaggedLogin.LoadConfig | login.go:97-115 | loadConfig loads with exactly the default region, the region override iff non-empty, and the provider of cc.Credentials("awsclientconfig"), whatever optFns are |
| TaggedLogin.LoginBaseLoadFailure | login.go:23-25 | a loadConfig failure returns the zero config and the error unchanged, after that one call |
| TaggedLogin.LoginWithoutArn | login.go:23-31 | with an empty ARN the only call is the base load and its config (or the zero config with its error) is returned |
| TaggedLogin.LoginIdentityFailure | login.go:40-45 | an identity-query error returns the zero config and the error wrapped with "getting caller identity" |
| TaggedLogin.LoginAlreadyTarget | login.go:48-50 | a matching caller ARN returns the base config after only the load and the identity query |
| TaggedLogin.LoginExchangeFailure | login.go:59-64 | an AssumeRole error returns the zero config and the error wrapped with "assuming role <arn>" |
| TaggedLogin.LoginAfterExchange | login.go:74-94 | New gets the exchanged key, secret and token with Source "awsclientconfig", CanExpire iff the expiry is non-zero, and the Region, ARN, MapId, AppIdentifier and Refresh of cc; a New failure returns the zero config and its error, success ends in one loadConfig of the new config |
| TaggedLogin.ProtocolTraceCounts | login.go:17-95 | a trace of the shape load, identity query, exchange, New, load (or a prefix of it) has the corresponding numbers of each call |
| TaggedLogin.LoginCallBudget | login.go:17-95 | every run's steps follow the protocol trace, with at most one identity query, one AssumeRole, one New and two loads, no identity query after the exchange, and an error next to a non-zero config is the final load's own answer |
| TaggedLogin.LoginIgnoresCallerOptions | login.go:98-100 | Login hands optFns only to loadConfig, whose copy into a nil slice drops them: they change nothing in Login's result or calls |
| Errors.WrappedKeepsCause | client.go:120-123 | wrapping with "%w" keeps the cause visible to errors.Is and puts the context and ": " at the head of the message |

## Left out

- CreateGetClientFunc (create_get_client_func.go): the refreshing client cache is goroutines, a ticker, a read/write lock, a WaitGroup and a Once; the model covers no concurrency. Its cancellation (the `break` leaves only the `select`) and its unlocked writes are not modelled either.
- The AWS SDK itself (config loading, the STS client, GetCallerIdentity, AssumeRole, the static credentials provider): network I/O and foreign code, represented only by the collaborator functions of `Aws.Sdk` and the `LoadOption` tokens.
- `context.Context`: cancellation and deadlines are not modelled; the collaborators' answers do not depend on it.
- The option-based New, login.go's ClientConfig struct and its `Credentials(source)` method are defined outside the files modelled here. `TaggedLogin.Env` takes their behaviour as functions, so whether that New validates, and its 5-minute default refresh interval, are not modelled; neither is any configuration-inheritance operation.
- DefaultRegion is a package variable a program may reassign; the model fixes it at "us-east-1".
- A nil `identity` or nil `aro.Credentials` answer would make Go panic; the model takes successful SDK answers to be non-nil, while every pointer field inside them (Arn, AccessKeyId, SecretAccessKey, SessionToken, Expiration) may be nil and reads as "" or the zero time.
- `time.Time` is an abstract value compared with `==`; its zero value is `Aws.ZeroTime`.
- The regexp engine: `AccessKeyPattern` (client.go:42) is replaced by the byte predicate `Strings.MatchesAccessKeyPattern`.
- The two sets of sentinel errors (errors.go:9-15 and client.go:44-50) are one datatype in the model; in Go they would be distinct values with the same texts.
- The count of elements that Go's `copy` returns is not modelled; the package ignores it.
