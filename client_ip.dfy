/** `getClientIP` of lib/utils/getClientIP.js: the guest identity of a
    request, taken from the first proxy header that is present and
    non-empty.  Headers are a map keyed by lower-case header name. */
module ClientIp {
  import opened Wrappers
  import opened Text
  import opened HttpHeaders

  const ForwardedFor: string := "x-forwarded-for"
  const RealIp: string := "x-real-ip"
  const CfConnectingIp: string := "cf-connecting-ip"
  const Unknown: string := "unknown"

  /** `getClientIP(request)`. */
  function GetClientIp(headers: map<string, string>): (ip: string)
    ensures Truthy(Header(headers, ForwardedFor)) ==> ip == Trim(BeforeFirst(headers[ForwardedFor], ','))
    ensures !Truthy(Header(headers, ForwardedFor)) && Truthy(Header(headers, RealIp)) ==> ip == headers[RealIp]
    ensures (!Truthy(Header(headers, ForwardedFor)) && !Truthy(Header(headers, RealIp))
             && Truthy(Header(headers, CfConnectingIp))) ==> ip == headers[CfConnectingIp]
    ensures (!Truthy(Header(headers, ForwardedFor)) && !Truthy(Header(headers, RealIp))
             && !Truthy(Header(headers, CfConnectingIp))) ==> ip == Unknown
  {
    var forwarded := Header(headers, ForwardedFor);
    var realIp := Header(headers, RealIp);
    var cf := Header(headers, CfConnectingIp);
    if Truthy(forwarded) then Trim(BeforeFirst(forwarded.value, ','))
    else if Truthy(realIp) then realIp.value
    else if Truthy(cf) then cf.value
    else Unknown
  }

  /** The first hop of a forwarded chain is the client: for
      "client, proxy1, ..." the result is the trimmed client field, which
      holds no comma and starts and ends with a non-space. */
  lemma {:induction false} ForwardedChainGivesFirstHop(headers: map<string, string>, client: string, rest: string)
    requires ForwardedFor in headers && headers[ForwardedFor] == client + "," + rest
    requires ',' !in client
    ensures GetClientIp(headers) == Trim(client)
    ensures ',' !in GetClientIp(headers)
  {
    BeforeFirstOfPrefix(client, rest);
  }

  lemma {:induction false} BeforeFirstOfPrefix(client: string, rest: string)
    requires ',' !in client
    ensures BeforeFirst(client + "," + rest, ',') == client
  {
    if client != [] {
      assert (client + "," + rest)[1..] == client[1..] + "," + rest;
      BeforeFirstOfPrefix(client[1..], rest);
    }
  }

  /** An empty header counts as absent: it never wins over a later header. */
  lemma EmptyHeaderIsSkipped(headers: map<string, string>)
    requires ForwardedFor in headers && headers[ForwardedFor] == ""
    ensures GetClientIp(headers) == GetClientIp(headers - {ForwardedFor})
  {
  }
}
