/** `getAuthHeaders` of lib/utils/getAuthHeaders.js: up to `retries` session
    reads, pausing `interval` ms between attempts, stopping at the first
    session with an access token.  `tokens[i]` is the access token the
    i-th read yields (`None` for no session); reads past the end yield none.
    The pauses taken are returned, in order, instead of happening. */
module AuthHeaders {
  import opened Wrappers
  import opened Text

  const Authorization: string := "Authorization"
  const ContentType: string := "Content-Type"
  const Json: string := "application/json"
  const BearerPrefix: string := "Bearer "
  /** The defaults of `getAuthHeaders(retries = 3, interval = 500)`, which
      every caller relies on. */
  const DefaultRetries: int := 3
  const DefaultInterval: int := 500

  function TokenAt(tokens: seq<Option<string>>, i: nat): Option<string> {
    if i < |tokens| then tokens[i] else None
  }

  function BearerHeaders(token: string): map<string, string> {
    map[Authorization := BearerPrefix + token, ContentType := Json]
  }

  function GuestHeaders(): map<string, string> {
    map[ContentType := Json]
  }

  /** The first attempt below `retries`, at or after `from`, that yields a token. */
  function FirstSession(tokens: seq<Option<string>>, retries: int, from: nat): (r: Option<nat>)
    ensures r.Some? ==> from <= r.value < retries && Truthy(TokenAt(tokens, r.value))
                        && forall j :: from <= j < r.value ==> !Truthy(TokenAt(tokens, j))
    ensures r.None? ==> forall j :: from <= j < retries ==> !Truthy(TokenAt(tokens, j))
    decreases retries - from
  {
    if from >= retries then None
    else if Truthy(TokenAt(tokens, from)) then Some(from)
    else FirstSession(tokens, retries, from + 1)
  }

  /** `getAuthHeaders(retries, interval)`: the headers, the number of session
      reads made and the pauses taken. */
  method GetAuthHeaders(tokens: seq<Option<string>>, retries: int, interval: int)
    returns (headers: map<string, string>, fetches: nat, pauses: seq<int>)
    ensures FirstSession(tokens, retries, 0).Some? ==>
              var k := FirstSession(tokens, retries, 0).value;
              headers == BearerHeaders(TokenAt(tokens, k).value) && fetches == k + 1 && |pauses| == k
    ensures FirstSession(tokens, retries, 0).None? ==>
              headers == GuestHeaders()
              && fetches == (if retries > 0 then retries else 0)
              && |pauses| == (if retries > 0 then retries - 1 else 0)
    ensures fetches <= (if retries > 0 then retries else 0)
    ensures forall p :: p in pauses ==> p == interval
  {
    fetches, pauses := 0, [];
    var i := 0;
    while i < retries
      invariant 0 <= i && (retries > 0 ==> i <= retries) && (retries <= 0 ==> i == 0)
      invariant fetches == i && |pauses| == (if i == 0 then 0 else if i < retries then i else i - 1)
      invariant forall p :: p in pauses ==> p == interval
      invariant forall j :: 0 <= j < i ==> !Truthy(TokenAt(tokens, j))
      decreases retries - i
    {
      var session := TokenAt(tokens, i);
      fetches := fetches + 1;
      if Truthy(session) {
        return BearerHeaders(session.value), fetches, pauses;
      }
      if i < retries - 1 {
        pauses := pauses + [interval];
      }
      i := i + 1;
    }
    headers := GuestHeaders();
  }

  /** `getAuthHeaders()` with its defaults: at most three session reads, one
      pause of 500 ms fewer than the reads, and guest headers only after three
      reads without a token. */
  method GetDefaultAuthHeaders(tokens: seq<Option<string>>)
    returns (headers: map<string, string>, fetches: nat, pauses: seq<int>)
    ensures 1 <= fetches <= DefaultRetries && |pauses| == fetches - 1
    ensures forall p :: p in pauses ==> p == DefaultInterval
    ensures (forall j :: 0 <= j < DefaultRetries ==> !Truthy(TokenAt(tokens, j))) ==>
              headers == GuestHeaders() && fetches == DefaultRetries
    ensures (exists j :: 0 <= j < DefaultRetries && Truthy(TokenAt(tokens, j))) ==>
              Authorization in headers && fetches - 1 == FirstSession(tokens, DefaultRetries, 0).value
  {
    headers, fetches, pauses := GetAuthHeaders(tokens, DefaultRetries, DefaultInterval);
  }
}
