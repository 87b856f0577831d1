/**
 * The connection target of a client: the streaming endpoint's URL built from
 * a namespace (the platform environment) and an opaque service id
 * (src/index.ts:195-201).
 */
module StreamUrl {
  import opened Wrappers

  /** The endpoint without a scheme (`streamUrl`). */
  const Endpoint: string := "push.planetside2.com/streaming"

  /** The endpoint over secure websockets (`streamUrlWss`). */
  const EndpointWss: string := "wss://push.planetside2.com/streaming"

  /** The secure endpoint is the plain one under the `wss://` scheme. */
  lemma EndpointWssIsSecureEndpoint()
    ensures EndpointWss == "wss://" + Endpoint
  {
  }

  /** The query text between the endpoint and the namespace. */
  const EnvironmentQuery: string := "?environment="

  /** The query text between the namespace and the service id. */
  const ServiceIdQuery: string := "&service-id=s:"

  /**
   * `streamUrlComplete`: the namespace and the service id are spliced into
   * the query without any encoding.
   */
  function StreamUrlComplete(namespace: string, serviceId: string): (url: string)
    ensures EndpointWss <= url
    ensures |url| == |EndpointWss + EnvironmentQuery| + |namespace| + |ServiceIdQuery| + |serviceId|
    ensures url[|url| - |serviceId| - 2..] == "s:" + serviceId
    ensures (EndpointWss + EnvironmentQuery + namespace) <= url
  {
    EndpointWss + EnvironmentQuery + namespace + ServiceIdQuery + serviceId
  }

  /** The index of the first `&` in `s`, or `|s|` when `s` has none. */
  function FirstAmpersand(s: string): (i: nat)
    ensures i <= |s|
    ensures forall k :: 0 <= k < i ==> s[k] != '&'
    ensures i < |s| ==> s[i] == '&'
  {
    if s == [] then 0
    else if s[0] == '&' then 0
    else 1 + FirstAmpersand(s[1..])
  }

  /**
   * Reads `head + namespace + sep + serviceId` back into its namespace and
   * service id: the namespace runs up to the first `&` after `head`, and the
   * service id is everything after `sep`.
   */
  function ParseWith(head: string, sep: string, url: string): Option<(string, string)>
  {
    if !(head <= url) then None
    else
      var rest := url[|head|..];
      var i := FirstAmpersand(rest);
      var tail := rest[i..];
      if sep <= tail then Some((rest[..i], tail[|sep|..])) else None
  }

  /**
   * Reads a connection URL back into its namespace and service id: the
   * namespace runs up to the first `&` after `?environment=`, and the service
   * id is everything after `&service-id=s:`.
   */
  function ParseStreamUrl(url: string): Option<(string, string)>
  {
    ParseWith(EndpointWss + EnvironmentQuery, ServiceIdQuery, url)
  }

  lemma ParseWithInverts(head: string, sep: string, namespace: string, serviceId: string)
    requires '&' !in namespace
    requires sep != [] && sep[0] == '&'
    ensures ParseWith(head, sep, head + namespace + sep + serviceId) == Some((namespace, serviceId))
  {
    var url := head + namespace + sep + serviceId;
    var rest := url[|head|..];
    assert rest == namespace + (sep + serviceId);
    FirstAmpersandOfJoin(namespace, sep + serviceId);
    var tail := rest[|namespace|..];
    assert tail == sep + serviceId;
    assert rest[..|namespace|] == namespace;
  }

  lemma ParseWithSound(head: string, sep: string, url: string, namespace: string, serviceId: string)
    requires ParseWith(head, sep, url) == Some((namespace, serviceId))
    ensures '&' !in namespace
    ensures url == head + namespace + sep + serviceId
  {
    var rest := url[|head|..];
    var i := FirstAmpersand(rest);
    var tail := rest[i..];
    assert forall k :: 0 <= k < i ==> namespace[k] == rest[k];
    assert tail == sep + serviceId;
    assert rest == namespace + tail;
    assert url == head + rest;
  }

  /** For a namespace without `&`, the URL gives back both of its inputs. */
  lemma ParseInvertsComplete(namespace: string, serviceId: string)
    requires '&' !in namespace
    ensures ParseStreamUrl(StreamUrlComplete(namespace, serviceId)) == Some((namespace, serviceId))
  {
    ParseWithInverts(EndpointWss + EnvironmentQuery, ServiceIdQuery, namespace, serviceId);
  }

  /** The first `&` of `a + b` is the first of `b` when `a` has none and `b` starts with one. */
  lemma FirstAmpersandOfJoin(a: string, b: string)
    requires '&' !in a
    requires b != [] && b[0] == '&'
    ensures FirstAmpersand(a + b) == |a|
  {
    assert (a + b)[|a|] == '&';
    assert forall k :: 0 <= k < |a| ==> (a + b)[k] == a[k];
  }

  /** Whatever the parser accepts is exactly one connection URL. */
  lemma ParseSound(url: string, namespace: string, serviceId: string)
    requires ParseStreamUrl(url) == Some((namespace, serviceId))
    ensures '&' !in namespace
    ensures url == StreamUrlComplete(namespace, serviceId)
  {
    ParseWithSound(EndpointWss + EnvironmentQuery, ServiceIdQuery, url, namespace, serviceId);
  }

  /** The URL determines the pair it was built from, for `&`-free namespaces. */
  lemma CompleteInjective(ns1: string, id1: string, ns2: string, id2: string)
    requires '&' !in ns1 && '&' !in ns2
    requires StreamUrlComplete(ns1, id1) == StreamUrlComplete(ns2, id2)
    ensures ns1 == ns2 && id1 == id2
  {
    ParseInvertsComplete(ns1, id1);
    ParseInvertsComplete(ns2, id2);
  }

  /** Under one namespace, distinct service ids give distinct URLs, whatever the namespace holds. */
  lemma DistinctServiceIds(namespace: string, id1: string, id2: string)
    requires id1 != id2
    ensures StreamUrlComplete(namespace, id1) != StreamUrlComplete(namespace, id2)
  {
    var prefix := EndpointWss + EnvironmentQuery + namespace + ServiceIdQuery;
    assert StreamUrlComplete(namespace, id1)[|prefix|..] == id1;
    assert StreamUrlComplete(namespace, id2)[|prefix|..] == id2;
  }
}
