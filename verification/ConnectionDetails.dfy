/** The connection secret of a Cloud SQL instance: getConnectionDetails of
    pkg/controller/database/cloudsql.go. */
module ConnectionDetails {
  import opened Pointers

  datatype IpAddress = IpAddress(address: string, kind: string)

  const PRIVATE := "PRIVATE"
  const PRIMARY := "PRIMARY"

  const USERNAME_KEY := "username"
  const ENDPOINT_KEY := "endpoint"
  const CONNECTION_KEY := "connectionName"
  const PRIVATE_KEY := "privateIP"
  const PUBLIC_KEY := "publicIP"

  const CERTIFICATE_KEYS: set<string> := {
    "serverCACertificateCert", "serverCACertificateCertSerialNumber", "serverCACertificateCommonName",
    "serverCACertificateCreateTime", "serverCACertificateExpirationTime", "serverCACertificateInstance",
    "serverCACertificateSha1Fingerprint"}

  predicate HasKind(ips: seq<IpAddress>, kind: string) {
    exists i :: 0 <= i < |ips| && ips[i].kind == kind
  }

  /** The address of the last entry of a kind, if there is one. */
  function LastOf(ips: seq<IpAddress>, kind: string): Option<string> {
    if ips == [] then None
    else if ips[|ips| - 1].kind == kind then Some(ips[|ips| - 1].address)
    else LastOf(ips[..|ips| - 1], kind)
  }

  /** The address of the first entry of a kind, if there is one. */
  function FirstOf(ips: seq<IpAddress>, kind: string): Option<string> {
    if ips == [] then None
    else if ips[0].kind == kind then Some(ips[0].address)
    else FirstOf(ips[1..], kind)
  }

  /** What the endpoint entry holds after the addresses: an address is published over an
      absent or empty one if it is primary, and over anything if it is private. */
  function Endpoint(ips: seq<IpAddress>): Option<string> {
    if ips == [] then None
    else
      var before := Endpoint(ips[..|ips| - 1]);
      var ip := ips[|ips| - 1];
      if ip.kind == PRIVATE then Some(ip.address)
      else if ip.kind == PRIMARY && StringValue(before) == "" then Some(ip.address)
      else before
  }

  lemma {:induction false} FirstOfPrefix(ips: seq<IpAddress>, kind: string)
    requires ips != []
    ensures var front := ips[..|ips| - 1];
            FirstOf(ips, kind) ==
            if FirstOf(front, kind).Some? then FirstOf(front, kind)
            else if ips[|ips| - 1].kind == kind then Some(ips[|ips| - 1].address) else None
    decreases |ips|
  {
    if |ips| > 1 {
      FirstOfPrefix(ips[1..], kind);
      assert ips[1..][..|ips| - 2] == ips[..|ips| - 1][1..];
    }
  }

  /** However the addresses interleave, the endpoint is the last private one if there is a
      private one, and otherwise the first primary one. */
  lemma {:induction false} EndpointPrefersPrivate(ips: seq<IpAddress>)
    requires forall i :: 0 <= i < |ips| ==> ips[i].address != ""
    ensures Endpoint(ips) == if LastOf(ips, PRIVATE).Some? then LastOf(ips, PRIVATE) else FirstOf(ips, PRIMARY)
    ensures Endpoint(ips).Some? ==> Endpoint(ips).value != ""
    decreases |ips|
  {
    if ips != [] {
      EndpointPrefersPrivate(ips[..|ips| - 1]);
      FirstOfPrefix(ips, PRIMARY);
    }
  }

  lemma HasKindOfLast(ips: seq<IpAddress>, kind: string)
    requires ips != []
    ensures HasKind(ips, kind) <==> HasKind(ips[..|ips| - 1], kind) || ips[|ips| - 1].kind == kind
  {
    var front := ips[..|ips| - 1];
    if HasKind(front, kind) {
      var i :| 0 <= i < |front| && front[i].kind == kind;
      assert ips[i].kind == kind;
    }
    if HasKind(ips, kind) && ips[|ips| - 1].kind != kind {
      var i :| 0 <= i < |ips| && ips[i].kind == kind;
      assert front[i].kind == kind;
    }
  }

  /** On every list, empty addresses included: the endpoint reads as the first address
      that is not empty from the last private one on, and is absent only if no address is
      private or primary. */
  lemma {:induction false} EndpointInGeneral(ips: seq<IpAddress>)
    ensures StringValue(Endpoint(ips)) == FirstNonEmpty(AfterLastPrivate(ips))
    ensures Endpoint(ips).Some? <==> HasKind(ips, PRIVATE) || HasKind(ips, PRIMARY)
    decreases |ips|
  {
    if ips != [] {
      var front, ip := ips[..|ips| - 1], ips[|ips| - 1];
      EndpointInGeneral(front);
      HasKindOfLast(ips, PRIVATE);
      HasKindOfLast(ips, PRIMARY);
      if ip.kind != PRIVATE {
        FirstNonEmptyAppends(AfterLastPrivate(front), ip);
      }
    }
  }

  /** The last private address and what follows it; everything if none is private. */
  function AfterLastPrivate(ips: seq<IpAddress>): seq<IpAddress> {
    if ips == [] then []
    else if ips[|ips| - 1].kind == PRIVATE then [ips[|ips| - 1]]
    else AfterLastPrivate(ips[..|ips| - 1]) + [ips[|ips| - 1]]
  }

  /** The first address that is not empty, of a private or primary entry. */
  function FirstNonEmpty(ips: seq<IpAddress>): string {
    if ips == [] then ""
    else if (ips[0].kind == PRIVATE || ips[0].kind == PRIMARY) && ips[0].address != "" then ips[0].address
    else FirstNonEmpty(ips[1..])
  }

  lemma {:induction false} FirstNonEmptyAppends(ips: seq<IpAddress>, ip: IpAddress)
    ensures FirstNonEmpty(ips + [ip]) == if FirstNonEmpty(ips) != "" then FirstNonEmpty(ips) else FirstNonEmpty([ip])
    decreases |ips|
  {
    if ips == [] {
      assert ips + [ip] == [ip];
    } else {
      assert (ips + [ip])[1..] == ips[1..] + [ip];
      FirstNonEmptyAppends(ips[1..], ip);
    }
  }

  // ---- the secret ----

  /** sqladmin.SslCert, as far as it is published. */
  datatype Certificate = Certificate(
    cert: string, serialNumber: string, commonName: string, createTime: string, expirationTime: string,
    instance: string, sha1Fingerprint: string)

  function ServerCACertificate(c: Option<Certificate>): (entries: map<string, string>)
    ensures entries.Keys == if c.Some? then CERTIFICATE_KEYS else {}
    ensures c.Some? ==>
            && entries["serverCACertificateCert"] == c.value.cert
            && entries["serverCACertificateCertSerialNumber"] == c.value.serialNumber
            && entries["serverCACertificateCommonName"] == c.value.commonName
            && entries["serverCACertificateCreateTime"] == c.value.createTime
            && entries["serverCACertificateExpirationTime"] == c.value.expirationTime
            && entries["serverCACertificateInstance"] == c.value.instance
            && entries["serverCACertificateSha1Fingerprint"] == c.value.sha1Fingerprint
  {
    match c
    case None => map[]
    case Some(v) => map[
      "serverCACertificateCert" := v.cert,
      "serverCACertificateCertSerialNumber" := v.serialNumber,
      "serverCACertificateCommonName" := v.commonName,
      "serverCACertificateCreateTime" := v.createTime,
      "serverCACertificateExpirationTime" := v.expirationTime,
      "serverCACertificateInstance" := v.instance,
      "serverCACertificateSha1Fingerprint" := v.sha1Fingerprint]
  }

  function Entry(m: map<string, string>, k: string): Option<string> {
    if k in m then Some(m[k]) else None
  }

  const ADDRESS_KEYS: set<string> := {ENDPOINT_KEY, PRIVATE_KEY, PUBLIC_KEY}

  lemma KeysAreDistinct()
    ensures ENDPOINT_KEY != PRIVATE_KEY && ENDPOINT_KEY != PUBLIC_KEY && PRIVATE_KEY != PUBLIC_KEY
    ensures USERNAME_KEY != CONNECTION_KEY && USERNAME_KEY !in ADDRESS_KEYS && CONNECTION_KEY !in ADDRESS_KEYS
    ensures forall k :: k in CERTIFICATE_KEYS ==> k !in ADDRESS_KEYS && k != USERNAME_KEY && k != CONNECTION_KEY
  {
    assert USERNAME_KEY[0] == 'u' && ENDPOINT_KEY[0] == 'e' && CONNECTION_KEY[0] == 'c';
    assert PRIVATE_KEY[1] == 'r' && PUBLIC_KEY[1] == 'u' && PRIVATE_KEY[0] == 'p' && PUBLIC_KEY[0] == 'p';
    forall k | k in CERTIFICATE_KEYS
      ensures |k| > 0 && k[0] == 's'
    {
    }
  }

  /** One pass of the loop over the addresses. */
  method PublishAddress(was: map<string, string>, ip: IpAddress) returns (m: map<string, string>)
    ensures Entry(m, PRIVATE_KEY) == if ip.kind == PRIVATE then Some(ip.address) else Entry(was, PRIVATE_KEY)
    ensures Entry(m, PUBLIC_KEY) == if ip.kind == PRIMARY then Some(ip.address) else Entry(was, PUBLIC_KEY)
    ensures Entry(m, ENDPOINT_KEY) ==
            if ip.kind == PRIVATE || (ip.kind == PRIMARY && StringValue(Entry(was, ENDPOINT_KEY)) == "")
            then Some(ip.address)
            else Entry(was, ENDPOINT_KEY)
    ensures forall k :: k !in ADDRESS_KEYS ==> Entry(m, k) == Entry(was, k)
  {
    KeysAreDistinct();
    m := was;
    if ip.kind == PRIVATE {
      m := m[PRIVATE_KEY := ip.address];
      m := m[ENDPOINT_KEY := ip.address];
    }
    if ip.kind == PRIMARY {
      m := m[PUBLIC_KEY := ip.address];
      if ENDPOINT_KEY !in m || |m[ENDPOINT_KEY]| == 0 {
        m := m[ENDPOINT_KEY := ip.address];
      }
    }
  }

  /** The loop over the addresses, from a secret that has none of their keys. */
  method PublishAddresses(was: map<string, string>, ips: seq<IpAddress>) returns (m: map<string, string>)
    requires was.Keys !! ADDRESS_KEYS
    ensures Entry(m, ENDPOINT_KEY) == Endpoint(ips)
    ensures Entry(m, PRIVATE_KEY) == LastOf(ips, PRIVATE) && Entry(m, PUBLIC_KEY) == LastOf(ips, PRIMARY)
    ensures forall k :: k !in ADDRESS_KEYS ==> Entry(m, k) == Entry(was, k)
  {
    m := was;
    for i := 0 to |ips|
      invariant Entry(m, ENDPOINT_KEY) == Endpoint(ips[..i])
      invariant Entry(m, PRIVATE_KEY) == LastOf(ips[..i], PRIVATE) && Entry(m, PUBLIC_KEY) == LastOf(ips[..i], PRIMARY)
      invariant forall k :: k !in ADDRESS_KEYS ==> Entry(m, k) == Entry(was, k)
    {
      assert ips[..i + 1][..i] == ips[..i];
      m := PublishAddress(m, ips[i]);
    }
    assert ips[..|ips|] == ips;
  }

  lemma MergeOneMore(was: map<string, string>, certificate: map<string, string>, left: set<string>, k: string)
    requires k in left && k in certificate
    ensures (was + (certificate - left))[k := certificate[k]] == was + (certificate - (left - {k}))
  {
  }

  /** The loop over the certificate entries, in any order. */
  method MergeCertificate(was: map<string, string>, certificate: map<string, string>) returns (m: map<string, string>)
    ensures m == was + certificate
  {
    m := was;
    var left := certificate.Keys;
    assert was + (certificate - left) == was && certificate - {} == certificate;
    while left != {}
      invariant left <= certificate.Keys
      invariant m == was + (certificate - left)
      decreases |left|
    {
      var k :| k in left;
      MergeOneMore(was, certificate, left, k);
      m := m[k := certificate[k]];
      left := left - {k};
    }
  }

  /** The whole secret. The addresses decide the endpoint, and neither the user and the
      connection name nor the certificate entries disturb it. */
  method GetConnectionDetails(user: string, connectionName: string, ips: seq<IpAddress>, ca: Option<Certificate>)
    returns (m: map<string, string>)
    ensures Entry(m, ENDPOINT_KEY) == Endpoint(ips)
    ensures Entry(m, PRIVATE_KEY) == LastOf(ips, PRIVATE) && Entry(m, PUBLIC_KEY) == LastOf(ips, PRIMARY)
    ensures Entry(m, USERNAME_KEY) == Some(user) && Entry(m, CONNECTION_KEY) == Some(connectionName)
    ensures forall k :: k in ServerCACertificate(ca) ==> Entry(m, k) == Some(ServerCACertificate(ca)[k])
  {
    KeysAreDistinct();
    var base := map[USERNAME_KEY := user, CONNECTION_KEY := connectionName];
    var published := PublishAddresses(base, ips);
    assert Entry(base, USERNAME_KEY) == Some(user) && Entry(base, CONNECTION_KEY) == Some(connectionName);
    m := MergeCertificate(published, ServerCACertificate(ca));
    assert forall k :: k !in CERTIFICATE_KEYS ==> Entry(m, k) == Entry(published, k);
  }
}
