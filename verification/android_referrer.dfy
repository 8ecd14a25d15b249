/** The Android side of the bridge: the Play Install Referrer connector and the
    stubs for the three SKAdNetwork operations.

    One call of `getInstallReferrer` owns one referrer client (its connection)
    and one cancellable continuation (the caller's pending promise). The
    service's callbacks and the caller's cancellation are events delivered to
    that pair, modelled by the class `ReferrerConnection`. */
module AndroidReferrer {
  import opened Results
  import Decimal

  /** Response codes of `InstallReferrerClient.InstallReferrerResponse`. */
  const OK: int := 0
  const SERVICE_UNAVAILABLE: int := 1
  const FEATURE_NOT_SUPPORTED: int := 2

  const UnknownCodePrefix: string := "Unknown response code: "
  const IosOnlyMessage: string := "SKAdNetwork is only available on iOS"

  /** What `client.installReferrer` returns: the referrer string may be null. */
  datatype ReferrerDetails = ReferrerDetails(
    installReferrer: Option<string>,
    referrerClickTimestampSeconds: int,
    installBeginTimestampSeconds: int,
    referrerClickTimestampServerSeconds: int,
    installBeginTimestampServerSeconds: int,
    googlePlayInstantParam: bool,
    installVersion: string)

  /** The outcome of reading the details once the setup reported OK: either
      the details, or an exception with its (nullable) message. */
  datatype ReadOutcome = Returned(details: ReferrerDetails) | Threw(message: Option<string>)

  /** The outcome of `client.startConnection(listener)` itself. */
  datatype StartOutcome = Started | StartThrew(message: Option<string>)

  /** An event delivered to a pending request. */
  datatype Signal =
    | SetupFinished(responseCode: int, read: ReadOutcome)
    | ServiceDisconnected
    | Cancellation

  /** Field-by-field copy of the native details into the bridge's record. */
  function ToInstallReferrerDetails(d: ReferrerDetails): (r: InstallReferrerDetails)
    ensures d.installReferrer.Some? ==> r.installReferrer == d.installReferrer.value
    ensures d.installReferrer.None? ==> r.installReferrer == ""
    ensures r.referrerClickTimestampSeconds == d.referrerClickTimestampSeconds
    ensures r.installBeginTimestampSeconds == d.installBeginTimestampSeconds
    ensures r.referrerClickTimestampServerSeconds == d.referrerClickTimestampServerSeconds
    ensures r.installBeginTimestampServerSeconds == d.installBeginTimestampServerSeconds
    ensures r.googlePlayInstantParam == d.googlePlayInstantParam
    ensures r.installVersion == d.installVersion
  {
    InstallReferrerDetails(
      d.installReferrer.GetOr(""),
      d.referrerClickTimestampSeconds,
      d.installBeginTimestampSeconds,
      d.referrerClickTimestampServerSeconds,
      d.installBeginTimestampServerSeconds,
      d.googlePlayInstantParam,
      d.installVersion)
  }

  /** The result built from an exception, whether raised while reading the
      details or while opening the connection. */
  function ExceptionResult(message: Option<string>): (r: ReferrerResult)
    ensures WellFormed(r) && !r.success
    ensures r.error == "exception" && r.errorMessage == message
  {
    ReferrerFailure("exception", message)
  }

  /** The result the setup callback builds for a response code. The error code
      names the branch taken, so each branch can be read back from it. */
  function SetupFinishedResult(responseCode: int, read: ReadOutcome): (r: ReferrerResult)
    ensures WellFormed(r)
    ensures r.success <==> responseCode == OK && read.Returned?
    ensures r.success ==> r.data == Some(ToInstallReferrerDetails(read.details)) && r.errorMessage.None?
    ensures r.error == "exception" <==> responseCode == OK && read.Threw?
    ensures r.error == "exception" ==> r.errorMessage == read.message
    ensures r.error == "featureNotSupported" <==> responseCode == FEATURE_NOT_SUPPORTED
    ensures r.error == "featureNotSupported" ==> r.errorMessage == Some("Install Referrer API not supported")
    ensures r.error == "serviceUnavailable" <==> responseCode == SERVICE_UNAVAILABLE
    ensures r.error == "serviceUnavailable" ==> r.errorMessage == Some("Play Store service unavailable")
    ensures r.error == "unknown" <==> responseCode !in {OK, FEATURE_NOT_SUPPORTED, SERVICE_UNAVAILABLE}
    ensures r.error != "serviceDisconnected" && r.error != "unavailable"
  {
    if responseCode == OK then
      match read
      case Returned(d) => ReferrerResult(true, Some(ToInstallReferrerDetails(d)), "ok", None)
      case Threw(m) => ExceptionResult(m)
    else if responseCode == FEATURE_NOT_SUPPORTED then
      ReferrerFailure("featureNotSupported", Some("Install Referrer API not supported"))
    else if responseCode == SERVICE_UNAVAILABLE then
      ReferrerFailure("serviceUnavailable", Some("Play Store service unavailable"))
    else
      ReferrerFailure("unknown", Some(UnknownCodePrefix + Decimal.IntToString(responseCode)))
  }

  /** The result of the disconnect callback. */
  function DisconnectedResult(): (r: ReferrerResult)
    ensures WellFormed(r) && !r.success
    ensures r.error == "serviceDisconnected" && r.errorMessage == Some("Service disconnected")
  {
    ReferrerFailure("serviceDisconnected", Some("Service disconnected"))
  }

  /** The result a signal would deliver to a still-pending caller; a
      cancellation delivers nothing. */
  function SignalResult(s: Signal): (r: Option<ReferrerResult>)
    ensures r.None? <==> s.Cancellation?
    ensures r.Some? ==> WellFormed(r.value)
    ensures s.SetupFinished? ==> r == Some(SetupFinishedResult(s.responseCode, s.read))
    ensures s.ServiceDisconnected? ==> r == Some(DisconnectedResult())
  {
    match s
    case SetupFinished(code, read) => Some(SetupFinishedResult(code, read))
    case ServiceDisconnected => Some(DisconnectedResult())
    case Cancellation => None
  }

  /** The message of an unknown response code carries the code itself: it can
      be parsed back out of the message. */
  lemma UnknownCodeRecoverable(responseCode: int, read: ReadOutcome)
    requires responseCode !in {OK, FEATURE_NOT_SUPPORTED, SERVICE_UNAVAILABLE}
    ensures var r := SetupFinishedResult(responseCode, read);
      && r.errorMessage.Some?
      && |UnknownCodePrefix| <= |r.errorMessage.value|
      && r.errorMessage.value[..|UnknownCodePrefix|] == UnknownCodePrefix
      && Decimal.ParseInt(r.errorMessage.value[|UnknownCodePrefix|..]) == Some(responseCode)
  {
    var m := UnknownCodePrefix + Decimal.IntToString(responseCode);
    assert m[|UnknownCodePrefix|..] == Decimal.IntToString(responseCode);
    Decimal.IntToStringRoundTrip(responseCode);
  }

  /** The response code is determined by the result it produces: two setup
      callbacks that yield the same result reported the same code. */
  lemma ResponseCodeDeterminedByResult(c1: int, read1: ReadOutcome, c2: int, read2: ReadOutcome)
    requires SetupFinishedResult(c1, read1) == SetupFinishedResult(c2, read2)
    ensures c1 == c2
  {
    var r := SetupFinishedResult(c1, read1);
    if r.error == "unknown" {
      UnknownCodeRecoverable(c1, read1);
      UnknownCodeRecoverable(c2, read2);
    }
  }

  /** One pending `getInstallReferrer` call: its client connection and the
      caller's cancellable continuation. */
  class ReferrerConnection {
    /** The client connection has been opened and not yet ended. */
    var open: bool
    /** The continuation has been resumed with a result. */
    var resumed: bool
    /** The caller cancelled the continuation while it was still pending. */
    var cancelled: bool
    /** Every value the caller's continuation has received, in order. */
    var delivered: seq<ReferrerResult>

    /** `continuation.isActive`: neither resumed nor cancelled. */
    predicate IsActive()
      reads this
    {
      !resumed && !cancelled
    }

    /** The connection is open exactly while the caller still waits, and the
        caller has received at most one, well-formed, result. */
    ghost predicate Valid()
      reads this
    {
      && open == IsActive()
      && !(resumed && cancelled)
      && |delivered| == (if resumed then 1 else 0)
      && (resumed ==> WellFormed(delivered[0]))
    }

    /** Opens the connection; an exception from `startConnection` is delivered
        as an "exception" result and the connection is ended at once. */
    constructor (start: StartOutcome)
      ensures Valid() && !cancelled
      ensures start.Started? ==> open && delivered == []
      ensures start.StartThrew? ==> !open && delivered == [ExceptionResult(start.message)]
    {
      open := true;
      resumed := false;
      cancelled := false;
      delivered := [];
      new;
      if start.StartThrew? {
        SafeResume(ExceptionResult(start.message));
        EndConnection();
      }
    }

    /** Resumes the continuation only while it is still active. */
    method SafeResume(result: ReferrerResult)
      modifies this`resumed, this`delivered
      ensures delivered == if old(IsActive()) then old(delivered) + [result] else old(delivered)
      ensures resumed == (old(resumed) || old(IsActive()))
    {
      if IsActive() {
        delivered := delivered + [result];
        resumed := true;
      }
    }

    method EndConnection()
      modifies this`open
      ensures !open
    {
      open := false;
    }

    /** `onInstallReferrerSetupFinished`: resume with the mapped result (if
        still pending), then end the connection on every branch. */
    method OnInstallReferrerSetupFinished(responseCode: int, read: ReadOutcome)
      requires Valid()
      modifies this
      ensures Valid() && !open && cancelled == old(cancelled)
      ensures delivered == if old(IsActive()) then [SetupFinishedResult(responseCode, read)] else old(delivered)
    {
      SafeResume(SetupFinishedResult(responseCode, read));
      EndConnection();
    }

    /** `onInstallReferrerServiceDisconnected`: resume with the disconnect
        result (if still pending), then end the connection. */
    method OnInstallReferrerServiceDisconnected()
      requires Valid()
      modifies this
      ensures Valid() && !open && cancelled == old(cancelled)
      ensures delivered == if old(IsActive()) then [DisconnectedResult()] else old(delivered)
    {
      SafeResume(DisconnectedResult());
      EndConnection();
    }

    /** The caller abandons the call: a pending continuation becomes cancelled
        and its cancellation handler ends the connection; a continuation that
        already completed is not affected. */
    method Cancel()
      requires Valid()
      modifies this
      ensures Valid() && !open && delivered == old(delivered) && resumed == old(resumed)
      ensures cancelled == (old(cancelled) || old(IsActive()))
    {
      if IsActive() {
        cancelled := true;
        EndConnection();
      }
    }

    /** Delivers one signal to the matching callback. */
    method Receive(s: Signal)
      requires Valid()
      modifies this
      ensures Valid() && !open
      ensures delivered == if old(IsActive()) && SignalResult(s).Some? then [SignalResult(s).value] else old(delivered)
    {
      match s
      case SetupFinished(code, read) => OnInstallReferrerSetupFinished(code, read);
      case ServiceDisconnected => OnInstallReferrerServiceDisconnected();
      case Cancellation => Cancel();
    }
  }

  /** A fresh request that receives two signals: the caller observes the
      result of the first signal only (nothing if it was a cancellation), and
      the connection ends up closed. */
  method FirstSignalWins(first: Signal, second: Signal) returns (observed: seq<ReferrerResult>, open: bool)
    ensures observed == if SignalResult(first).Some? then [SignalResult(first).value] else []
    ensures !open
  {
    var connection := new ReferrerConnection(Started);
    connection.Receive(first);
    connection.Receive(second);
    observed, open := connection.delivered, connection.open;
  }

  /** A request whose `startConnection` threw: the caller observes the
      exception result, and no later callback or cancellation changes that. */
  method StartFailureIsFinal(message: Option<string>, later: Signal) returns (observed: seq<ReferrerResult>, open: bool)
    ensures observed == [ExceptionResult(message)]
    ensures !open
  {
    var connection := new ReferrerConnection(StartThrew(message));
    connection.Receive(later);
    observed, open := connection.delivered, connection.open;
  }

  /** The Android hybrid object. It remembers the latest referrer client. */
  class NitroSkanReferrer {
    var referrerClient: ReferrerConnection?

    constructor ()
      ensures referrerClient == null
    {
      referrerClient := null;
    }

    /** Builds a new client, records it, and opens its connection. */
    method GetInstallReferrer(start: StartOutcome) returns (connection: ReferrerConnection)
      modifies this
      ensures fresh(connection) && referrerClient == connection
      ensures connection.Valid() && !connection.cancelled
      ensures start.Started? ==> connection.open && connection.delivered == []
      ensures start.StartThrew? ==> !connection.open && connection.delivered == [ExceptionResult(start.message)]
    {
      connection := new ReferrerConnection(start);
      referrerClient := connection;
    }
  }

  /** Stub: SKAdNetwork registration does not exist on Android. */
  function RegisterAppForAdNetworkAttribution(): (r: SKANConversionResult)
    ensures !r.success && r.error == Some(IosOnlyMessage)
  {
    ConversionFailure(IosOnlyMessage)
  }

  /** Stub: the same failure whatever the value. */
  function UpdateConversionValue(fineValue: real): (r: SKANConversionResult)
    ensures !r.success && r.error == Some(IosOnlyMessage)
  {
    ConversionFailure(IosOnlyMessage)
  }

  /** Stub: the same failure whatever the arguments. */
  function UpdatePostbackConversionValue(fineValue: real, coarseValue: CoarseValue, lockWindow: bool): (r: SKANConversionResult)
    ensures !r.success && r.error == Some(IosOnlyMessage)
  {
    ConversionFailure(IosOnlyMessage)
  }

  /** The stub message names the platform where the operation exists. */
  lemma IosOnlyMessageNamesIos()
    ensures IsInfix("iOS", IosOnlyMessage)
  {
    assert OccursAt("iOS", IosOnlyMessage, 33);
  }
}
