# nitro-skan-referrer attribution bridge, modelled in Dafny

`react-native-nitro-skan-referrer` gives a React Native app one four-operation
contract over two unrelated attribution mechanisms:

- on Android, the Play **Install Referrer** service: a bound-service
  connection whose setup callback reports a response code, after which the
  referrer details are read once;
- on iOS, **SKAdNetwork**: registration and conversion-value updates, each
  gated on the running OS version, with a completion callback on the newer
  entry points.

Each platform answers the other platform's operations with a fixed stub
failure. The TypeScript layer forwards the four operations and adds two success
guards and a query-string parser.

The model has one module per source file, plus two shared modules:

- `Results` (results.dfy): the result records of the Nitro interface.
  `ReferrerResult.data`, `ReferrerResult.errorMessage` and
  `SKANConversionResult.error` are `Option`s, because the native code passes
  null in them. `WellFormed` is the shape every referrer result has: data is
  present exactly on success, and `"ok"` is the error code of success only.
- `Decimal` (decimal.dfy): Kotlin's rendering of an `Int` in a string
  template, and a parser that inverts it.
- `AndroidReferrer` (android_referrer.dfy): the referrer connector.
  - `SetupFinishedResult` is the pure mapping from a response code (and the
    outcome of the details read) to a result.
  - `ReferrerConnection` is one pending `getInstallReferrer` call. It has two
    flags: `open` (the client connection) and `resumed` (the one-shot
    continuation). It also has a `cancelled` flag (the caller abandoned the call) and
    `delivered` (the values the caller has received). There is one method per
    service callback, plus `Cancel`.
  - Its invariant `Valid()` says four things. The connection is open exactly
    while the caller still waits. A continuation is never both resumed and
    cancelled. The caller receives at most one result. That result is
    well-formed.
  - The three SKAdNetwork stubs are constant functions.
- `IosDispatcher` (ios_dispatcher.dfy): the SKAdNetwork dispatcher. Each
  operation is a function of the OS version, the fine value (a `real`,
  truncated toward zero as `Int(Double)` does), the coarse value, the lock-window
  flag and the StoreKit completion. It returns a `Dispatch`: the result plus
  the list of StoreKit calls it made.
- `Facade` (facade.dfy): `src/index.tsx`. The native hybrid object is a
  `NativeModule` value whose fields are what its four methods resolve to.
  `parseReferrerParams` is a loop over the pairs the query-string parser
  yields.
- `Bridge` (bridge.dfy): properties that relate the TypeScript guards to what
  each platform produces.

Behaviours of the code that are easy to misread:

- The fine value is truncated, not rejected when fractional. Every double in
  the open interval (-1, 64) is accepted (`IosDispatcher.AcceptedFineValues`).
- The coarse value is not validated case-insensitively anywhere. TypeScript
  passes the string through unchanged. Swift and Kotlin are written against a
  `CoarseValue` type that no file in the source declares, and Swift switches
  on it exhaustively.
- `updatePostbackConversionValue` checks the fine-value range before the iOS
  16.1 gate.
- Failure results carry no data (null), never a zero-valued placeholder.

The Play Install Referrer response codes are the library's values:
`OK = 0`, `SERVICE_UNAVAILABLE = 1` and `FEATURE_NOT_SUPPORTED = 2`. That
library is not part of this model.

## Model

| member | source | states |
|---|---|---|
| `AndroidReferrer.ToInstallReferrerDetails` | android/src/main/java/com/margelo/nitro/nitroskanreferrer/NitroSkanReferrer.kt:40-48 | every field of the native details is copied unchanged; a null referrer string becomes "" |
| `AndroidReferrer.ExceptionResult` | android/src/main/java/com/margelo/nitro/nitroskanreferrer/NitroSkanReferrer.kt:58-66 | an exception gives a well-formed failure with code "exception" whose message is the exception's (possibly null) message |
| `AndroidReferrer.SetupFinishedResult` | android/src/main/java/com/margelo/nitro/nitroskanreferrer/NitroSkanReferrer.kt:35-107 | the result is well-formed. It succeeds iff the code is OK and the read returned, and then carries the copied details with a null message. Each error code holds iff its branch was taken: "exception" iff OK with a failed read (with its message); "featureNotSupported" and "serviceUnavailable" iff their codes (with their fixed messages); "unknown" iff any other code. |
| `AndroidReferrer.DisconnectedResult` | android/src/main/java/com/margelo/nitro/nitroskanreferrer/NitroSkanReferrer.kt:110-118 | the disconnect callback's result is a well-formed failure with code "serviceDisconnected" and message "Service disconnected" |
| `AndroidReferrer.SignalResult` | android/src/main/java/com/margelo/nitro/nitroskanreferrer/NitroSkanReferrer.kt:35-136 | every service callback yields a well-formed result; only a cancellation yields none; a setup callback yields the result its response code and read outcome map to, and a disconnect the disconnect result |
| `AndroidReferrer.UnknownCodeRecoverable` | android/src/main/java/com/margelo/nitro/nitroskanreferrer/NitroSkanReferrer.kt:96-106 | the message of an unknown code is "Unknown response code: " followed by the code, and parsing that suffix gives back exactly the code |
| `AndroidReferrer.ResponseCodeDeterminedByResult` | android/src/main/java/com/margelo/nitro/nitroskanreferrer/NitroSkanReferrer.kt:36-107 | two setup callbacks that yield equal results had equal response codes, so the result identifies the code |
| `AndroidReferrer.ReferrerConnection.constructor` | android/src/main/java/com/margelo/nitro/nitroskanreferrer/NitroSkanReferrer.kt:23-33 | opening leaves the connection open with nothing delivered; if `startConnection` throws, the exception result is delivered and the connection is ended |
| `AndroidReferrer.ReferrerConnection.SafeResume` | android/src/main/java/com/margelo/nitro/nitroskanreferrer/NitroSkanReferrer.kt:28-30 | a result is appended to what the caller received only while the continuation is active, and then it is no longer active |
| `AndroidReferrer.ReferrerConnection.EndConnection` | android/src/main/java/com/margelo/nitro/nitroskanreferrer/NitroSkanReferrer.kt:68 | the connection is closed |
| `AndroidReferrer.ReferrerConnection.OnInstallReferrerSetupFinished` | android/src/main/java/com/margelo/nitro/nitroskanreferrer/NitroSkanReferrer.kt:35-108 | a pending caller receives exactly the mapped result, a caller that already has one keeps it unchanged; the connection is closed on every branch and the invariant (at most one result, open iff pending) is kept |
| `AndroidReferrer.ReferrerConnection.OnInstallReferrerServiceDisconnected` | android/src/main/java/com/margelo/nitro/nitroskanreferrer/NitroSkanReferrer.kt:110-120 | a pending caller receives the disconnect result, otherwise nothing changes for the caller; the connection is closed and the invariant kept |
| `AndroidReferrer.ReferrerConnection.Cancel` | android/src/main/java/com/margelo/nitro/nitroskanreferrer/NitroSkanReferrer.kt:134-136 | cancelling a pending call ends the connection and delivers nothing; cancelling a completed call changes nothing; the invariant is kept |
| `AndroidReferrer.ReferrerConnection.Receive` | android/src/main/java/com/margelo/nitro/nitroskanreferrer/NitroSkanReferrer.kt:33-136 | any signal leaves the connection closed, and a pending caller receives exactly that signal's result (nothing for a cancellation) |
| `AndroidReferrer.FirstSignalWins` | android/src/main/java/com/margelo/nitro/nitroskanreferrer/NitroSkanReferrer.kt:28-30 | when the service signals twice (or signals after a cancellation), the caller observes only the first signal's result and the connection ends closed |
| `AndroidReferrer.StartFailureIsFinal` | android/src/main/java/com/margelo/nitro/nitroskanreferrer/NitroSkanReferrer.kt:122-136 | after `startConnection` throws, the caller observes the exception result only, whatever callback or cancellation follows, and the connection is closed |
| `AndroidReferrer.NitroSkanReferrer.GetInstallReferrer` | android/src/main/java/com/margelo/nitro/nitroskanreferrer/NitroSkanReferrer.kt:21-26 | each call builds a fresh connection, records it as the latest client and opens it |
| `AndroidReferrer.RegisterAppForAdNetworkAttribution` | android/src/main/java/com/margelo/nitro/nitroskanreferrer/NitroSkanReferrer.kt:145-152 | on Android, registration always fails with "SKAdNetwork is only available on iOS" |
| `AndroidReferrer.UpdateConversionValue` | android/src/main/java/com/margelo/nitro/nitroskanreferrer/NitroSkanReferrer.kt:154-161 | on Android, a conversion update fails with the same message whatever the value |
| `AndroidReferrer.UpdatePostbackConversionValue` | android/src/main/java/com/margelo/nitro/nitroskanreferrer/NitroSkanReferrer.kt:163-174 | on Android, a postback update fails with the same message whatever its arguments |
| `AndroidReferrer.IosOnlyMessageNamesIos` | android/src/main/java/com/margelo/nitro/nitroskanreferrer/NitroSkanReferrer.kt:149 | the Android stub message names the other platform, iOS |
| `Decimal.NatToString` | android/src/main/java/com/margelo/nitro/nitroskanreferrer/NitroSkanReferrer.kt:102 | the rendering of a natural number is non-empty, all digits, and starts with a non-zero digit when the number is positive |
| `Decimal.IntToString` | android/src/main/java/com/margelo/nitro/nitroskanreferrer/NitroSkanReferrer.kt:102 | the rendering of an integer is non-empty and starts with '-' iff the integer is negative |
| `Decimal.NatToStringRoundTrip` | android/src/main/java/com/margelo/nitro/nitroskanreferrer/NitroSkanReferrer.kt:102 | the digits of a natural number evaluate back to that number |
| `Decimal.IntToStringRoundTrip` | android/src/main/java/com/margelo/nitro/nitroskanreferrer/NitroSkanReferrer.kt:102 | parsing the rendering of any integer gives back that integer |
| `IosDispatcher.GetInstallReferrer` | ios/NitroSkanReferrer.swift:8-15 | on iOS, the referrer is a well-formed failure with no data, code "unavailable" and a message naming Android |
| `IosDispatcher.TruncateToInt` | ios/NitroSkanReferrer.swift:30 | `Int(fineValue)` drops the fraction toward zero: the result keeps the sign and lies within 1 of the input, on the side of zero |
| `IosDispatcher.AcceptedFineValues` | ios/NitroSkanReferrer.swift:30-37 | the truncated value is in [0, 63] exactly when the input is in the open interval (-1, 64) |
| `IosDispatcher.CompletionResult` | ios/NitroSkanReferrer.swift:42-54 | a completion error gives a failure carrying its description; no error gives success with a null error |
| `IosDispatcher.ToStoreKitCoarse` | ios/NitroSkanReferrer.swift:92-97 | high maps to high, medium to medium, low to low |
| `IosDispatcher.ToStoreKitCoarseInjective` | ios/NitroSkanReferrer.swift:92-97 | distinct coarse tiers map to distinct StoreKit values |
| `IosDispatcher.RegisterApp` | ios/NitroSkanReferrer.swift:18-27 | registration succeeds iff the OS is 11.3 or later, and then makes exactly one register call; otherwise it fails with "SKAdNetwork requires iOS 11.3+" and makes no call |
| `IosDispatcher.UpdateValue` | ios/NitroSkanReferrer.swift:29-68 | at most one StoreKit call is made. A call is made iff the truncated value is in [0, 63] and the OS is 14.0 or later. It is the postback update from 15.4 on and the direct update below that, and it carries the truncated value. Out of range gives the range message. An in-range value below 14.0 gives the version message. The result succeeds iff a call was made and (for the postback update) its completion reported no error. The direct update resolves to success with a null error, and every success carries a null error. |
| `IosDispatcher.UpdatePostbackValue` | ios/NitroSkanReferrer.swift:70-116 | at most one StoreKit call is made. A call is made iff the truncated fine value is in [0, 63] and the OS is 16.1 or later. It carries the same fine value, the mapped coarse value and the same lock-window flag, and its completion decides the result. Out of range gives the fine-range message. An in-range value below 16.1 gives the version message. Success implies a call and no completion error. |
| `IosDispatcher.NewerOsNeverDowngrades` | ios/NitroSkanReferrer.swift:39-67 | a newer OS dispatches every value an older one dispatches, and never falls back from the postback update to the direct one |
| `IosDispatcher.RangeCheckedBeforeVersion` | ios/NitroSkanReferrer.swift:76-90 | below 16.1, an out-of-range fine value still reports the fine-range message, with no StoreKit call |
| `Facade.GetInstallReferrer` | src/index.tsx:20-22 | resolves to exactly what the native module resolves to |
| `Facade.IsReferrerSuccess` | src/index.tsx:27-31 | holds iff the result succeeded and carries data |
| `Facade.ReferrerGuardAgreesWithFlag` | src/index.tsx:27-31 | on a well-formed result, the guard equals the success flag and implies data and code "ok" |
| `Facade.RegisterAppForAdNetworkAttribution` | src/index.tsx:59-61 | resolves to exactly what the native module resolves to |
| `Facade.UpdateConversionValue` | src/index.tsx:69-73 | passes the value unchanged and resolves to the native module's result |
| `Facade.UpdatePostbackConversionValue` | src/index.tsx:83-93 | passes the fine value, the coarse string and the lock-window flag unchanged and resolves to the native module's result |
| `Facade.LockWindowDefaultsToFalse` | src/index.tsx:86 | omitting the lock-window flag is the same as passing false |
| `Facade.IsSKANSuccess` | src/index.tsx:98-100 | the guard is the result's success flag |
| `Facade.LastValuePresent` | src/index.tsx:42-44 | a key has a last value iff some parsed pair has that key |
| `Facade.LastValueIsLastOccurrence` | src/index.tsx:42-44 | the value of a key is that of its last occurrence in parse order |
| `Facade.ParseReferrerParams` | src/index.tsx:36-49 | if the parser throws, the result is empty. Otherwise the result has every parsed key except `__proto__`, each with its last value. |
| `Facade.ParseReferrerParamsAllKeys` | src/index.tsx:41-44 | with own-property definition, the result has exactly the parsed keys, each with its last value |
| `Facade.ProtoParameterDropped` | src/index.tsx:42-44 | for the query "__proto__=x" the code as written returns an empty record, the corrected parser returns {"__proto__": "x"} |
| `Bridge.AndroidReferrerGuard` | android/src/main/java/com/margelo/nitro/nitroskanreferrer/NitroSkanReferrer.kt:37-57 | the facade's guard holds for an Android result iff the code was OK and the read returned; the referrer string then reaches the caller unchanged ("" for null) |
| `Bridge.DeliveredResultGuard` | android/src/main/java/com/margelo/nitro/nitroskanreferrer/NitroSkanReferrer.kt:35-120 | whatever callback delivers a result, that result passes the facade's guard iff it is the OK setup with a successful read |
| `Bridge.IosReferrerNeverSucceeds` | ios/NitroSkanReferrer.swift:8-15 | on iOS the referrer result never passes the facade's guard |
| `Bridge.AndroidConversionStubsNeverSucceed` | android/src/main/java/com/margelo/nitro/nitroskanreferrer/NitroSkanReferrer.kt:145-174 | on Android none of the three SKAdNetwork operations passes the facade's guard, whatever its arguments, and the message names iOS |
| `Bridge.ConversionSuccessMeansOneNativeCall` | ios/NitroSkanReferrer.swift:29-68 | on iOS, a conversion update that passes the guard made exactly one StoreKit call, of one of the two update kinds, for an in-range value |
| `Bridge.PostbackSuccessMeansOneNativeCall` | ios/NitroSkanReferrer.swift:70-116 | a postback update that passes the guard ran on iOS 16.1 or later, got no completion error, and made exactly one StoreKit call with the forwarded arguments |

## Left out

- Concurrency and the promise machinery are not modelled. This covers Kotlin
  coroutines, `suspendCancellableCoroutine`, Swift's
  `withCheckedContinuation` and Nitro's `Promise`. Each service callback and
  each cancellation is a method call on `ReferrerConnection`, one at a time.
  Callbacks that race with the registration of the cancellation handler are
  not modelled.
- The Play Install Referrer client and StoreKit's `SKAdNetwork` are foreign
  APIs. The outcome of `startConnection`, the details read and the StoreKit
  completion are inputs. StoreKit calls are recorded in `Dispatch.calls`, not
  performed.
- `#available` probes are replaced by an `OsVersion` parameter of major and
  minor. Patch levels are ignored, since every gate is at `x.y.0`.
- The referrer timestamps are exact integers. Kotlin's `Long.toDouble()`
  rounding above 2^53 is not modelled.
- `Int(Double)` traps on NaN, infinities and values outside `Int`. Those are
  not modelled, because `fineValue` is a `real`.
- A null `installVersion` would make the Kotlin record constructor throw
  inside the `try`. The model covers this through `ReadOutcome.Threw`, not as
  a separate field.
- Query-string decoding by `URLSearchParams` is not modelled. This includes
  percent-decoding and `+`. `parseReferrerParams` takes the parser's pairs,
  or `None` when the parser throws.
- The interface declares the coarse value as a string
  (src/NitroSkanReferrer.nitro.ts:51). Both native files take a `CoarseValue`
  that no file in the source declares (ios/NitroSkanReferrer.swift:72 and
  android/src/main/java/com/margelo/nitro/nitroskanreferrer/NitroSkanReferrer.kt:165).
  The model follows the native signatures, so how a string such as "LOW"
  would reach them is not modelled, and the facade's string is not connected
  to the native enum.
- The exact texts of exception messages (`e.message`) are inputs.

## Findings

| source | as written | input that shows it | evidently intended | confidence | as-written member | corrected member |
|---|---|---|---|---|---|---|
| src/index.tsx:41-44 | `result[key] = value` on an object literal `{}`. For the key `__proto__` this calls the inherited `__proto__` setter, which ignores string values, so no property is created. | installReferrer `"__proto__=x"`: the result is `{}` | every parsed key becomes a property of the result, last value winning | medium, not executed | `Facade.ProtoParameterDropped` | `Facade.ParseReferrerParamsAllKeys` |
