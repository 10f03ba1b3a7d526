/**
 * phone data/EnabledPackagesDataStore.kt: the set of packages whose
 * notifications may be shown, kept as the key names of a boolean
 * preferences map.
 */
module EnabledPackagesDataStore {

  /** The preferences after `setPackageEnabled(packageId, enabled)`. */
  function AfterSetPackageEnabled(prefs: map<string, bool>, packageId: string, enabled: bool): map<string, bool> {
    if enabled then prefs[packageId := true] else prefs - {packageId}
  }

  /** The preferences after `enableAll(names)`: every name set to true, in order. */
  function AfterEnableAll(prefs: map<string, bool>, names: seq<string>): map<string, bool>
    decreases |names|
  {
    if names == [] then prefs
    else AfterEnableAll(prefs[names[0] := true], names[1..])
  }

  /**
   * `setPackageEnabled` decides membership of `packageId` and leaves every
   * other entry as it was; doing it twice is the same as doing it once.
   */
  lemma SetPackageEnabledLaws(prefs: map<string, bool>, packageId: string, enabled: bool)
    ensures var after := AfterSetPackageEnabled(prefs, packageId, enabled);
      && (packageId in after.Keys <==> enabled)
      && (forall other :: other != packageId ==> (other in after <==> other in prefs))
      && (forall other :: other != packageId && other in prefs ==> after[other] == prefs[other])
      && AfterSetPackageEnabled(after, packageId, enabled) == after
  {
  }

  /** `enableAll(names)` adds exactly the names to the enabled set, each marked true. */
  lemma {:induction false} EnableAllIsUnion(prefs: map<string, bool>, names: seq<string>)
    ensures AfterEnableAll(prefs, names).Keys == prefs.Keys + set name | name in names
    ensures forall name :: name in names ==> AfterEnableAll(prefs, names)[name]
    ensures forall key :: key in prefs && key !in names ==> AfterEnableAll(prefs, names)[key] == prefs[key]
    decreases |names|
  {
    if names != [] {
      EnableAllIsUnion(prefs[names[0] := true], names[1..]);
      assert forall name :: name in names <==> name == names[0] || name in names[1..];
    }
  }

  class EnabledPackagesDataStore {
    /** The boolean preferences, one key per enabled package. */
    var prefs: map<string, bool>

    constructor ()
      ensures prefs == map[]
    {
      prefs := map[];
    }

    /** `enabledPackages`: the key names of the preferences, whatever their values. */
    function EnabledPackages(): (packages: set<string>)
      reads this
      ensures forall p :: p in packages <==> p in prefs
    {
      prefs.Keys
    }

    /** `setPackageEnabled`: set the package's key to true, or remove it. */
    method SetPackageEnabled(packageId: string, enabled: bool)
      modifies this
      ensures prefs == AfterSetPackageEnabled(old(prefs), packageId, enabled)
      ensures EnabledPackages() == if enabled then old(EnabledPackages()) + {packageId} else old(EnabledPackages()) - {packageId}
    {
      if enabled {
        prefs := prefs[packageId := true];
      } else {
        prefs := prefs - {packageId};
      }
    }

    /** `enableAll`: set every name's key to true; the enabled set grows by the names. */
    method EnableAll(packageNamesToEnable: seq<string>)
      modifies this
      ensures prefs == AfterEnableAll(old(prefs), packageNamesToEnable)
      ensures EnabledPackages() == old(EnabledPackages()) + set name | name in packageNamesToEnable
    {
      var i := 0;
      while i < |packageNamesToEnable|
        invariant 0 <= i <= |packageNamesToEnable|
        invariant AfterEnableAll(prefs, packageNamesToEnable[i..]) == AfterEnableAll(old(prefs), packageNamesToEnable)
      {
        assert packageNamesToEnable[i..][1..] == packageNamesToEnable[i + 1..];
        prefs := prefs[packageNamesToEnable[i] := true];
        i := i + 1;
      }
      assert packageNamesToEnable[i..] == [];
      EnableAllIsUnion(old(prefs), packageNamesToEnable);
    }

    /** `disableAll`: clear the preferences; nothing is enabled afterwards. */
    method DisableAll()
      modifies this
      ensures prefs == map[] && EnabledPackages() == {}
    {
      prefs := map[];
    }
  }
}
