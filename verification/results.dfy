/** The result shapes shared by both native implementations and the
    TypeScript facade (the interfaces of src/NitroSkanReferrer.nitro.ts). */
module Results {

  /** A nullable value: Kotlin's `T?`, Swift's `T?`, TypeScript's `T | null`. */
  datatype Option<+T> = None | Some(value: T) {
    function GetOr(default: T): T {
      match this
      case Some(v) => v
      case None => default
    }
  }

  /** One snapshot of the Play Install Referrer details. Timestamps are epoch
      seconds; the bridge hands them to JavaScript as numbers. */
  datatype InstallReferrerDetails = InstallReferrerDetails(
    installReferrer: string,
    referrerClickTimestampSeconds: int,
    installBeginTimestampSeconds: int,
    referrerClickTimestampServerSeconds: int,
    installBeginTimestampServerSeconds: int,
    googlePlayInstantParam: bool,
    installVersion: string)

  /** Result of `getInstallReferrer`. `data` is declared non-optional in the
      TypeScript interface, but every failure path of both native sides passes
      null, so it is an Option here. */
  datatype ReferrerResult = ReferrerResult(
    success: bool,
    data: Option<InstallReferrerDetails>,
    error: string,
    errorMessage: Option<string>)

  /** Result of the three SKAdNetwork operations. */
  datatype SKANConversionResult = SKANConversionResult(success: bool, error: Option<string>)

  /** The coarse conversion tier as the native signatures take it (the
      interface itself passes a string). */
  datatype CoarseValue = High | Medium | Low

  /** The closed set of `ReferrerResult.error` codes; "unavailable" is the code
      of the stub on the platform without an install referrer. */
  const ReferrerErrorCodes: set<string> :=
    {"ok", "featureNotSupported", "serviceUnavailable", "unknown",
     "serviceDisconnected", "exception", "unavailable"}

  /** The shape every referrer result of the bridge has: data is present
      exactly on success, and "ok" is the error code of success only. */
  predicate WellFormed(r: ReferrerResult) {
    && (r.success <==> r.data.Some?)
    && (r.success <==> r.error == "ok")
    && r.error in ReferrerErrorCodes
  }

  function ReferrerFailure(error: string, message: Option<string>): ReferrerResult {
    ReferrerResult(false, None, error, message)
  }

  function ConversionFailure(message: string): SKANConversionResult {
    SKANConversionResult(false, Some(message))
  }

  const ConversionSuccess: SKANConversionResult := SKANConversionResult(true, None)

  /** `needle` occurs inside `hay` starting at index `i`. */
  predicate OccursAt(needle: string, hay: string, i: int) {
    0 <= i <= |hay| - |needle| && hay[i..i + |needle|] == needle
  }

  /** `needle` occurs somewhere inside `hay`. */
  ghost predicate IsInfix(needle: string, hay: string) {
    exists i :: OccursAt(needle, hay, i)
  }
}
