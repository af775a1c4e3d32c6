/** Request headers as a map from lower-case header name to value; `Header`
    is `request.headers.get(name)`, with `None` for an absent header. */
module HttpHeaders {
  import opened Wrappers

  function Header(headers: map<string, string>, name: string): (r: Option<string>)
    ensures r.Some? <==> name in headers
    ensures r.Some? ==> r.value == headers[name]
  {
    if name in headers then Some(headers[name]) else None
  }
}
