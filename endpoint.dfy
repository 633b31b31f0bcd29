/**
 * Where the widget sends chat messages: the endpoint chosen once when the
 * script loads, and the URL each request is posted to.
 */
module Endpoint {
  import opened Wrappers

  /** The hard-coded backend used when the script tag names none. */
  const DefaultEndpoint: string := "https://" + "curly-adventure-q7447rx9g94jc94qr.github.dev/chat"

  predicate StartsWith(s: string, prefix: string) {
    |prefix| <= |s| && s[..|prefix|] == prefix
  }

  /**
   * `getApiEndpoint()`: the script tag's `data-api-url` attribute, which is
   * `None` when the attribute is missing (`getAttribute` gives `null`).
   * A missing or empty attribute is falsy and selects the default.
   */
  function ApiEndpoint(dataApiUrl: Option<string>): (r: string)
    ensures dataApiUrl.Some? && dataApiUrl.value != "" ==> r == dataApiUrl.value
    ensures dataApiUrl.None? || dataApiUrl.value == "" ==> r == DefaultEndpoint
    ensures r != ""
  {
    if dataApiUrl.Some? && dataApiUrl.value != "" then dataApiUrl.value else DefaultEndpoint
  }

  /**
   * The URL a message is posted to: an endpoint beginning with "http" is
   * used as it is; anything else is appended to the page origin by plain
   * string concatenation.
   */
  function RequestUrl(endpoint: string, origin: string): (r: string)
    ensures StartsWith(endpoint, "http") ==> r == endpoint
    ensures !StartsWith(endpoint, "http") ==> r == origin + endpoint
  {
    if StartsWith(endpoint, "http") then endpoint else origin + endpoint
  }

  /** A prefix of `a` is a prefix of `a + b`. */
  lemma StartsWithConcat(a: string, b: string, prefix: string)
    requires StartsWith(a, prefix)
    ensures StartsWith(a + b, prefix)
  {
    assert (a + b)[..|prefix|] == a[..|prefix|];
  }

  /**
   * On a page whose origin starts with "http" the request URL starts with
   * "http", and resolving it a second time changes nothing.
   */
  lemma RequestUrlStartsWithHttp(endpoint: string, origin: string)
    requires StartsWith(origin, "http")
    ensures StartsWith(RequestUrl(endpoint, origin), "http")
    ensures RequestUrl(RequestUrl(endpoint, origin), origin) == RequestUrl(endpoint, origin)
  {
    if !StartsWith(endpoint, "http") {
      StartsWithConcat(origin, endpoint, "http");
    }
  }

  /** Without a `data-api-url` attribute every request goes to the default backend, whatever the page origin. */
  lemma DefaultRequestUrl(dataApiUrl: Option<string>, origin: string)
    requires dataApiUrl.None? || dataApiUrl.value == ""
    ensures RequestUrl(ApiEndpoint(dataApiUrl), origin) == DefaultEndpoint
  {
    assert StartsWith("https://", "http");
    StartsWithConcat("https://", "curly-adventure-q7447rx9g94jc94qr.github.dev/chat", "http");
  }
}
