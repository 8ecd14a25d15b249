/** The TypeScript facade (src/index.tsx): four pass-through operations over
    the native hybrid object, two success guards, and the parser that turns an
    install-referrer query string into a record. */
module Facade {
  import opened Results

  /** The native hybrid object as JavaScript sees it: the value each of its
      four methods resolves to. */
  datatype NativeModule = NativeModule(
    getInstallReferrer: ReferrerResult,
    registerAppForAdNetworkAttribution: SKANConversionResult,
    updateConversionValue: real -> SKANConversionResult,
    updatePostbackConversionValue: (real, string, bool) -> SKANConversionResult)

  function GetInstallReferrer(native: NativeModule): (r: ReferrerResult)
    ensures r == native.getInstallReferrer
  {
    native.getInstallReferrer
  }

  /** The type guard: a result whose data may be used. */
  function IsReferrerSuccess(result: ReferrerResult): (b: bool)
    ensures b <==> result.success && result.data.Some?
  {
    result.success && result.data.Some?
  }

  /** On a well-formed result the guard agrees with the success flag and,
      when it holds, the data is present. */
  lemma ReferrerGuardAgreesWithFlag(result: ReferrerResult)
    requires WellFormed(result)
    ensures IsReferrerSuccess(result) == result.success
    ensures IsReferrerSuccess(result) ==> result.data.Some? && result.error == "ok"
  {
  }

  function RegisterAppForAdNetworkAttribution(native: NativeModule): (r: SKANConversionResult)
    ensures r == native.registerAppForAdNetworkAttribution
  {
    native.registerAppForAdNetworkAttribution
  }

  function UpdateConversionValue(native: NativeModule, fineValue: real): (r: SKANConversionResult)
    ensures r == native.updateConversionValue(fineValue)
  {
    native.updateConversionValue(fineValue)
  }

  /** Forwards its three arguments unchanged; `lockWindow` defaults to false. */
  function UpdatePostbackConversionValue(native: NativeModule, fineValue: real, coarseValue: string,
                                         lockWindow: bool := false): (r: SKANConversionResult)
    ensures r == native.updatePostbackConversionValue(fineValue, coarseValue, lockWindow)
  {
    native.updatePostbackConversionValue(fineValue, coarseValue, lockWindow)
  }

  /** Omitting `lockWindow` is the same as passing false. */
  lemma LockWindowDefaultsToFalse(native: NativeModule, fineValue: real, coarseValue: string)
    ensures UpdatePostbackConversionValue(native, fineValue, coarseValue)
            == native.updatePostbackConversionValue(fineValue, coarseValue, false)
  {
  }

  function IsSKANSuccess(result: SKANConversionResult): (b: bool)
    ensures b == result.success
  {
    result.success
  }

  /** The value a sequence of (key, value) pairs gives a key when later pairs
      overwrite earlier ones: the value of its last occurrence. */
  function LastValue(pairs: seq<(string, string)>, key: string): Option<string> {
    if pairs == [] then None
    else if pairs[|pairs| - 1].0 == key then Some(pairs[|pairs| - 1].1)
    else LastValue(pairs[..|pairs| - 1], key)
  }

  lemma {:induction false} LastValuePresent(pairs: seq<(string, string)>, key: string)
    ensures LastValue(pairs, key).Some? <==> exists i :: 0 <= i < |pairs| && pairs[i].0 == key
  {
    if pairs != [] {
      var init := pairs[..|pairs| - 1];
      LastValuePresent(init, key);
      if pairs[|pairs| - 1].0 != key {
        forall i | 0 <= i < |pairs| && pairs[i].0 == key
          ensures 0 <= i < |init| && init[i].0 == key
        {
        }
      }
    }
  }

  /** The pair at `i` wins when no later pair has the same key. */
  lemma {:induction false} LastValueIsLastOccurrence(pairs: seq<(string, string)>, i: int)
    requires 0 <= i < |pairs|
    requires forall j :: i < j < |pairs| ==> pairs[j].0 != pairs[i].0
    ensures LastValue(pairs, pairs[i].0) == Some(pairs[i].1)
  {
    if i < |pairs| - 1 {
      LastValueIsLastOccurrence(pairs[..|pairs| - 1], i);
    }
  }

  const ProtoKey: string := "__proto__"

  /** `record[key] = value` on a plain object literal. Assigning a string to
      `__proto__` goes to the inherited `__proto__` setter, which ignores
      values that are not objects, so no own property is created. */
  function AssignOnPlainObject(record: map<string, string>, key: string, value: string): map<string, string> {
    if key == ProtoKey then record else record[key := value]
  }

  /** `parseReferrerParams` as written: every parsed pair is assigned in
      order, so the last value of a key wins, except that a `__proto__` key
      is lost. `parsed` is what the query-string parser yields, None when it
      throws; then the result is empty. */
  method ParseReferrerParams(parsed: Option<seq<(string, string)>>) returns (result: map<string, string>)
    ensures parsed.None? ==> result == map[]
    ensures parsed.Some? ==> forall k :: k in result <==> k != ProtoKey && LastValue(parsed.value, k).Some?
    ensures parsed.Some? ==> forall k :: k in result ==> Some(result[k]) == LastValue(parsed.value, k)
  {
    result := map[];
    if parsed.Some? {
      var pairs := parsed.value;
      var i := 0;
      while i < |pairs|
        invariant 0 <= i <= |pairs|
        invariant forall k :: k in result <==> k != ProtoKey && LastValue(pairs[..i], k).Some?
        invariant forall k :: k in result ==> Some(result[k]) == LastValue(pairs[..i], k)
      {
        var (key, value) := pairs[i];
        result := AssignOnPlainObject(result, key, value);
        assert pairs[..i + 1][..i] == pairs[..i];
        i := i + 1;
      }
      assert pairs[..|pairs|] == pairs;
    }
  }

  /** `parseReferrerParams` with every key kept (defining own properties, as
      `Object.fromEntries` does): the result holds exactly the parsed keys,
      each with its last value. */
  method ParseReferrerParamsAllKeys(parsed: Option<seq<(string, string)>>) returns (result: map<string, string>)
    ensures parsed.None? ==> result == map[]
    ensures parsed.Some? ==> forall k :: k in result <==> LastValue(parsed.value, k).Some?
    ensures parsed.Some? ==> forall k :: k in result ==> Some(result[k]) == LastValue(parsed.value, k)
  {
    result := map[];
    if parsed.Some? {
      var pairs := parsed.value;
      var i := 0;
      while i < |pairs|
        invariant 0 <= i <= |pairs|
        invariant forall k :: k in result <==> LastValue(pairs[..i], k).Some?
        invariant forall k :: k in result ==> Some(result[k]) == LastValue(pairs[..i], k)
      {
        var (key, value) := pairs[i];
        result := result[key := value];
        assert pairs[..i + 1][..i] == pairs[..i];
        i := i + 1;
      }
      assert pairs[..|pairs|] == pairs;
    }
  }

  /** The query string "__proto__=x": the code as written returns an empty
      record, the corrected parser keeps the parameter. */
  method ProtoParameterDropped() returns (asWritten: map<string, string>, corrected: map<string, string>)
    ensures asWritten == map[]
    ensures corrected == map[ProtoKey := "x"]
  {
    var pairs := [(ProtoKey, "x")];
    forall k ensures LastValue(pairs, k) == if k == ProtoKey then Some("x") else None {
      assert pairs[..0] == [];
    }
    asWritten := ParseReferrerParams(Some(pairs));
    corrected := ParseReferrerParamsAllKeys(Some(pairs));
    assert corrected.Keys == {ProtoKey};
  }
}
