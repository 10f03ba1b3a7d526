/** wear CurrentNotificationUriDataStore.kt: the one preference holding the current item's URI. */
module CurrentNotificationUriDataStore {
  import opened Wrappers
  import opened Platform

  const URI_KEY := "URI_KEY"

  /** The preferences after `setUri(uri)`. */
  function AfterSetUri(prefs: map<string, string>, uri: Option<Uri>): map<string, string> {
    if uri.None? then prefs - {URI_KEY} else prefs[URI_KEY := uri.value.text]
  }

  /** `it[uriKey]?.toUri()`: the stored string parsed back, or null without the key. */
  function UriIn(prefs: map<string, string>): (uri: Option<Uri>)
    ensures uri.None? <==> URI_KEY !in prefs
  {
    if URI_KEY in prefs then Some(Uri(prefs[URI_KEY])) else None
  }

  /**
   * `getUri` returns what `setUri` stored, null included; only URI_KEY is
   * touched; and of two writes the later one decides.
   */
  lemma SetUriLaws(prefs: map<string, string>, first: Option<Uri>, uri: Option<Uri>)
    ensures UriIn(AfterSetUri(prefs, uri)) == uri
    ensures forall key :: key != URI_KEY ==>
      (key in AfterSetUri(prefs, uri) <==> key in prefs) &&
      (key in prefs ==> AfterSetUri(prefs, uri)[key] == prefs[key])
    ensures AfterSetUri(AfterSetUri(prefs, first), uri) == AfterSetUri(prefs, uri)
  {
  }

  class CurrentNotificationUriDataStore {
    var prefs: map<string, string>

    constructor ()
      ensures prefs == map[]
    {
      prefs := map[];
    }

    /** `getUri`. */
    function GetUri(): Option<Uri>
      reads this
    {
      UriIn(prefs)
    }

    /** `setUri`: remove the key for null, otherwise store the URI's string form. */
    method SetUri(uri: Option<Uri>)
      modifies this
      ensures prefs == AfterSetUri(old(prefs), uri)
      ensures GetUri() == uri
    {
      if uri.None? {
        prefs := prefs - {URI_KEY};
      } else {
        prefs := prefs[URI_KEY := uri.value.text];
      }
    }
  }
}
