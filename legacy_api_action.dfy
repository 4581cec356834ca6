/** The action base of the earlier API generation: the helpers its actions share and the
    request handling around them. Its certificate check reads the peer certificates from
    the request context, so a request with no SSL information at all is refused as one
    with no certificates. */
module LegacyApiAction {
  import opened Common
  import opened Settings
  import opened Responses
  import opened ApiAction
  import opened ConfigUpdate
  import opened Privileges

  /** The message of the exception the JSON loader's failure is converted into; its exact
      text comes from the parser and is not part of this model. */
  const PARSE_FAILURE := "failed to parse content"

  /** What `toSettings` makes of a request body: the loaded settings, or the message of the
      exception it throws. */
  datatype Loaded = Loaded(settings: map<string, string>) | Refused(message: string)

  /** `toSettings`: a missing or empty body throws "ref invalid", a body the loader rejects
      throws the converted parser exception, and anything else is loaded. */
  function ToSettings(ref: Body): (r: Loaded)
    ensures ref.Absent? <==> r == Refused("ref invalid")
    ensures ref.Unparseable? <==> r == Refused(PARSE_FAILURE)
    ensures r.Loaded? <==> ref.Document?
    ensures ref.Document? ==> r == Loaded(ref.settings)
  {
    match ref
    case Absent => Refused("ref invalid")
    case Unparseable => Refused(PARSE_FAILURE)
    case Document(settings, _) => Loaded(settings)
  }

  /** `removeKeysStartingWith` of this generation: deletes in place every entry under the
      prefix and tells whether anything was deleted; an empty map or prefix is left alone. */
  method RemoveKeysStartingWith(b: Builder, startWith: string) returns (modified: bool)
    modifies b
    ensures startWith == [] ==> !modified && b.settings == old(b.settings)
    ensures startWith != [] ==> modified == (WithPrefix(old(b.settings), startWith) != map[])
    ensures startWith != [] ==> b.settings == WithoutPrefix(old(b.settings), startWith)
  {
    if b.settings == map[] || startWith == [] {
      return false;
    }
    modified := false;
    ghost var original := b.settings;
    ghost var removed: map<string, string> := map[];
    var keys := b.settings.Keys;
    while keys != {}
      invariant keys <= original.Keys
      invariant removed == WithPrefix(original - keys, startWith)
      invariant b.settings == original - removed.Keys
      invariant modified == (removed != map[])
      decreases |keys|
    {
      var k :| k in keys;
      RemoveStep(original, keys, k, startWith, removed, b.settings);
      if startWith <= k {
        ghost var value := b.settings[k];
        b.Remove(k);
        removed := removed[k := value];
        modified := true;
      }
      keys := keys - {k};
    }
    assert original - keys == original;
    RemoveAllUnder(original, startWith);
  }

  /** The certificate checks of `handleRequest`: no certificate, or a principal that is not
      an admin, is a 403 with a plain-text reason. */
  function CertificateGate(cert: CertStatus): (r: Option<RestResponse>)
    ensures r.None? <==> cert == Admin
    ensures r.Some? ==> r.value.status == FORBIDDEN && r.value.content.Text?
    ensures cert.NoSslInfo? || cert.NoCerts? ==> r == Some(RestResponse(FORBIDDEN, Text("No certificates")))
  {
    match cert
    case NoSslInfo => Some(RestResponse(FORBIDDEN, Text("No certificates")))
    case NoCerts => Some(RestResponse(FORBIDDEN, Text("No certificates")))
    case NotAdmin(_) => Some(RestResponse(FORBIDDEN, Text("SG admin permissions required")))
    case Admin => None
  }
}
