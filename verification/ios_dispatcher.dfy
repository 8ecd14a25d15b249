/** The iOS side of the bridge: the SKAdNetwork dispatcher and the stub for
    the install referrer.

    The running OS version and the native completion (the error description
    the StoreKit callback reports, or none) are parameters. Every operation
    returns its result together with the StoreKit calls it made, so that "no
    native call" and "exactly one mechanism" are statements about values. */
module IosDispatcher {
  import opened Results

  /** An iOS version `major.minor`. */
  datatype OsVersion = OsVersion(major: nat, minor: nat)

  /** `#available(iOS major.minor, *)`. */
  predicate Available(os: OsVersion, major: nat, minor: nat) {
    os.major > major || (os.major == major && os.minor >= minor)
  }

  /** StoreKit's `SKAdNetwork.CoarseConversionValue`. */
  datatype CoarseConversionValue = CoarseHigh | CoarseMedium | CoarseLow

  /** A call into StoreKit's `SKAdNetwork`. */
  datatype NativeCall =
    | RegisterAppForAdNetworkAttribution
    | UpdateConversionValue(conversionValue: int)
    | UpdatePostbackConversionValue(fineValue: int)
    | UpdatePostbackConversionValueCoarse(fineValue: int, coarseValue: CoarseConversionValue, lockWindow: bool)

  /** The result an operation resolves to and the StoreKit calls it made. */
  datatype Dispatch = Dispatch(result: SKANConversionResult, calls: seq<NativeCall>)

  const RegisterVersionMessage: string := "SKAdNetwork requires iOS 11.3+"
  const ConversionRangeMessage: string := "Conversion value must be between 0 and 63"
  const ConversionVersionMessage: string := "updateConversionValue requires iOS 14.0+"
  const FineRangeMessage: string := "Fine value must be between 0 and 63"
  const PostbackVersionMessage: string := "updatePostbackConversionValue requires iOS 16.1+"

  /** `Int(x)` for a finite double: truncation toward zero. */
  function TruncateToInt(x: real): (n: int)
    ensures x >= 0.0 ==> n >= 0 && n as real <= x < n as real + 1.0
    ensures x < 0.0 ==> n <= 0 && n as real - 1.0 < x <= n as real
  {
    if x >= 0.0 then x.Floor else -((-x).Floor)
  }

  /** The range SKAdNetwork accepts for a fine conversion value. */
  predicate InConversionRange(v: int) {
    0 <= v <= 63
  }

  /** Because of the truncation, the accepted doubles are the open interval
      (-1, 64), not only the integers 0 to 63. */
  lemma AcceptedFineValues(x: real)
    ensures InConversionRange(TruncateToInt(x)) <==> -1.0 < x < 64.0
  {
  }

  /** The install referrer does not exist on iOS. */
  function GetInstallReferrer(): (r: ReferrerResult)
    ensures WellFormed(r) && !r.success && r.data.None?
    ensures r.error == "unavailable"
    ensures r.errorMessage.Some? && IsInfix("Android", r.errorMessage.value)
  {
    var message := "Install Referrer is only available on Android";
    assert OccursAt("Android", message, 38);
    ReferrerFailure("unavailable", Some(message))
  }

  /** The mapping of a StoreKit completion to a result: an error gives a
      failure carrying its description, none gives success. */
  function CompletionResult(error: Option<string>): (r: SKANConversionResult)
    ensures r.success <==> error.None?
    ensures r.error == error
  {
    match error
    case Some(description) => ConversionFailure(description)
    case None => ConversionSuccess
  }

  /** StoreKit's coarse value for the bridge's coarse value. */
  function ToStoreKitCoarse(c: CoarseValue): (k: CoarseConversionValue)
    ensures c.High? <==> k.CoarseHigh?
    ensures c.Medium? <==> k.CoarseMedium?
    ensures c.Low? <==> k.CoarseLow?
  {
    match c
    case High => CoarseHigh
    case Medium => CoarseMedium
    case Low => CoarseLow
  }

  /** The coarse mapping loses nothing: distinct tiers stay distinct. */
  lemma ToStoreKitCoarseInjective(a: CoarseValue, b: CoarseValue)
    requires ToStoreKitCoarse(a) == ToStoreKitCoarse(b)
    ensures a == b
  {
  }

  /** Registration: one native call from iOS 11.3 on, otherwise a failure. */
  function RegisterApp(os: OsVersion): (d: Dispatch)
    ensures d.result.success <==> Available(os, 11, 3)
    ensures d.result.success ==> d.calls == [RegisterAppForAdNetworkAttribution] && d.result.error.None?
    ensures !d.result.success ==> d.calls == [] && d.result.error == Some(RegisterVersionMessage)
  {
    if Available(os, 11, 3) then Dispatch(ConversionSuccess, [RegisterAppForAdNetworkAttribution])
    else Dispatch(ConversionFailure(RegisterVersionMessage), [])
  }

  /** `updateConversionValue`: the range check, then the version ladder
      (postback update from 15.4, direct update from 14.0, else failure). */
  function UpdateValue(os: OsVersion, fineValue: real, completion: Option<string>): (d: Dispatch)
    ensures |d.calls| <= 1
    ensures d.calls != [] <==> InConversionRange(TruncateToInt(fineValue)) && Available(os, 14, 0)
    ensures d.calls != [] ==> d.calls[0] == (if Available(os, 15, 4)
                                            then UpdatePostbackConversionValue(TruncateToInt(fineValue))
                                            else UpdateConversionValue(TruncateToInt(fineValue)))
    ensures d.result.success <==> d.calls != [] && (d.calls[0].UpdatePostbackConversionValue? ==> completion.None?)
    ensures !InConversionRange(TruncateToInt(fineValue)) ==> d.result.error == Some(ConversionRangeMessage)
    ensures InConversionRange(TruncateToInt(fineValue)) && !Available(os, 14, 0) ==>
              d.result.error == Some(ConversionVersionMessage)
    ensures d.calls != [] && d.calls[0].UpdatePostbackConversionValue? ==> d.result == CompletionResult(completion)
    ensures d.calls != [] && d.calls[0].UpdateConversionValue? ==> d.result == ConversionSuccess
    ensures d.result.success ==> d.result.error.None?
  {
    var value := TruncateToInt(fineValue);
    if !InConversionRange(value) then
      Dispatch(ConversionFailure(ConversionRangeMessage), [])
    else if Available(os, 15, 4) then
      Dispatch(CompletionResult(completion), [UpdatePostbackConversionValue(value)])
    else if Available(os, 14, 0) then
      Dispatch(ConversionSuccess, [UpdateConversionValue(value)])
    else
      Dispatch(ConversionFailure(ConversionVersionMessage), [])
  }

  /** `updatePostbackConversionValue`: the range check first, then the 16.1
      gate, then one native call with the mapped coarse value. */
  function UpdatePostbackValue(os: OsVersion, fineValue: real, coarseValue: CoarseValue, lockWindow: bool,
                               completion: Option<string>): (d: Dispatch)
    ensures |d.calls| <= 1
    ensures d.calls != [] <==> InConversionRange(TruncateToInt(fineValue)) && Available(os, 16, 1)
    ensures d.calls != [] ==>
              d.calls[0] == UpdatePostbackConversionValueCoarse(TruncateToInt(fineValue), ToStoreKitCoarse(coarseValue), lockWindow)
    ensures d.calls != [] ==> d.result == CompletionResult(completion)
    ensures d.result.success <==> d.calls != [] && completion.None?
    ensures !InConversionRange(TruncateToInt(fineValue)) ==> d.result.error == Some(FineRangeMessage)
    ensures InConversionRange(TruncateToInt(fineValue)) && !Available(os, 16, 1) ==>
              d.result.error == Some(PostbackVersionMessage)
  {
    var fine := TruncateToInt(fineValue);
    if !InConversionRange(fine) then
      Dispatch(ConversionFailure(FineRangeMessage), [])
    else if !Available(os, 16, 1) then
      Dispatch(ConversionFailure(PostbackVersionMessage), [])
    else
      Dispatch(CompletionResult(completion), [UpdatePostbackConversionValueCoarse(fine, ToStoreKitCoarse(coarseValue), lockWindow)])
  }

  /** The version ladder is monotone: an OS at least as new never falls to an
      older mechanism, and once a value is dispatched on some OS it is
      dispatched on every newer one. */
  lemma NewerOsNeverDowngrades(older: OsVersion, newer: OsVersion, fineValue: real,
                                  completion: Option<string>)
    requires Available(newer, older.major, older.minor)
    ensures UpdateValue(older, fineValue, completion).calls != [] ==> UpdateValue(newer, fineValue, completion).calls != []
    ensures var a := UpdateValue(older, fineValue, completion).calls;
            var b := UpdateValue(newer, fineValue, completion).calls;
            a != [] && a[0].UpdatePostbackConversionValue? ==> b[0].UpdatePostbackConversionValue?
  {
  }

  /** The range check comes before the version check: an out-of-range fine
      value reports the range error even on an OS below 16.1. */
  lemma RangeCheckedBeforeVersion(os: OsVersion, fineValue: real, coarseValue: CoarseValue, lockWindow: bool,
                                  completion: Option<string>)
    requires !Available(os, 16, 1)
    requires !InConversionRange(TruncateToInt(fineValue))
    ensures UpdatePostbackValue(os, fineValue, coarseValue, lockWindow, completion)
            == Dispatch(ConversionFailure(FineRangeMessage), [])
  {
  }
}
