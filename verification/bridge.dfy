/** Properties of the bridge as a whole: what the facade's success guards say
    about the results each platform produces, and the stubs each platform
    returns for the operations that belong to the other one. */
module Bridge {
  import opened Results
  import AndroidReferrer
  import IosDispatcher
  import Facade

  /** On Android, the facade's referrer guard holds exactly for an OK setup
      whose details could be read, and the referrer string reaches the caller
      unchanged (a null string as ""). */
  lemma AndroidReferrerGuard(responseCode: int, read: AndroidReferrer.ReadOutcome)
    ensures var r := AndroidReferrer.SetupFinishedResult(responseCode, read);
      && (Facade.IsReferrerSuccess(r) <==> responseCode == AndroidReferrer.OK && read.Returned?)
      && (Facade.IsReferrerSuccess(r) ==> r.data.value.installReferrer == read.details.installReferrer.GetOr(""))
  {
  }

  /** Whatever signal reaches a pending Android request, the result it
      delivers passes the guard only when it is the OK setup with details. */
  lemma DeliveredResultGuard(s: AndroidReferrer.Signal)
    requires AndroidReferrer.SignalResult(s).Some?
    ensures Facade.IsReferrerSuccess(AndroidReferrer.SignalResult(s).value)
            <==> s.SetupFinished? && s.responseCode == AndroidReferrer.OK && s.read.Returned?
  {
  }

  /** On iOS the referrer never passes the guard. */
  lemma IosReferrerNeverSucceeds()
    ensures !Facade.IsReferrerSuccess(IosDispatcher.GetInstallReferrer())
  {
  }

  /** On Android the three SKAdNetwork operations never succeed, whatever
      their arguments, and their message names iOS. */
  lemma AndroidConversionStubsNeverSucceed(fineValue: real, coarseValue: CoarseValue, lockWindow: bool)
    ensures !Facade.IsSKANSuccess(AndroidReferrer.RegisterAppForAdNetworkAttribution())
    ensures !Facade.IsSKANSuccess(AndroidReferrer.UpdateConversionValue(fineValue))
    ensures !Facade.IsSKANSuccess(AndroidReferrer.UpdatePostbackConversionValue(fineValue, coarseValue, lockWindow))
    ensures IsInfix("iOS", AndroidReferrer.UpdatePostbackConversionValue(fineValue, coarseValue, lockWindow).error.value)
  {
    AndroidReferrer.IosOnlyMessageNamesIos();
  }

  /** On iOS a conversion update that the facade reports as successful made
      exactly one StoreKit call, carrying the truncated in-range value. */
  lemma ConversionSuccessMeansOneNativeCall(os: IosDispatcher.OsVersion, fineValue: real, completion: Option<string>)
    requires Facade.IsSKANSuccess(IosDispatcher.UpdateValue(os, fineValue, completion).result)
    ensures var d := IosDispatcher.UpdateValue(os, fineValue, completion);
      && |d.calls| == 1
      && IosDispatcher.InConversionRange(IosDispatcher.TruncateToInt(fineValue))
      && (d.calls[0].UpdatePostbackConversionValue? || d.calls[0].UpdateConversionValue?)
  {
  }

  /** A postback update the facade reports as successful ran on iOS 16.1 or
      later, made one StoreKit call, and StoreKit reported no error. */
  lemma PostbackSuccessMeansOneNativeCall(os: IosDispatcher.OsVersion, fineValue: real, coarseValue: CoarseValue,
                                          lockWindow: bool, completion: Option<string>)
    requires Facade.IsSKANSuccess(IosDispatcher.UpdatePostbackValue(os, fineValue, coarseValue, lockWindow, completion).result)
    ensures IosDispatcher.Available(os, 16, 1) && completion.None?
    ensures IosDispatcher.UpdatePostbackValue(os, fineValue, coarseValue, lockWindow, completion).calls
            == [IosDispatcher.UpdatePostbackConversionValueCoarse(IosDispatcher.TruncateToInt(fineValue),
                                                                  IosDispatcher.ToStoreKitCoarse(coarseValue), lockWindow)]
  {
  }
}
