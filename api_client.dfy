/** The client's request interceptor, which attaches the stored token to every API call. */
module ApiClient {
  import opened Base
  import opened Text
  import opened Auth

  const AuthorizationHeader: string := "Authorization"

  /** The header value `Bearer ${token}`. */
  function BearerHeader(token: string): string {
    BearerScheme + " " + token
  }

  /** The outgoing request's configuration; the interceptor mutates its headers in place. */
  class RequestConfig {
    var headers: map<string, string>

    constructor (headers: map<string, string>)
      ensures this.headers == headers
    {
      this.headers := headers;
    }
  }

  /** Lines 7-17: with a truthy stored token, set the Authorization header; otherwise leave
      the headers alone. The same config object is handed on. */
  method Intercept(config: RequestConfig, token: Option<string>) returns (r: RequestConfig)
    modifies config
    ensures r == config
    ensures Truthy(token) ==> config.headers == old(config.headers)[AuthorizationHeader := BearerHeader(token.value)]
    ensures !Truthy(token) ==> config.headers == old(config.headers)
  {
    if Truthy(token) {
      config.headers := config.headers[AuthorizationHeader := BearerHeader(token.value)];
    }
    return config;
  }

  /** The header the client builds carries its token through `protect` unchanged, for every
      non-empty token without a space. */
  lemma BearerRoundTrip(token: string)
    requires token != "" && ' ' !in token
    ensures HeaderToken(Some(BearerHeader(token))) == Some(token)
  {
    var h := BearerHeader(token);
    assert h == BearerScheme + [' '] + token;
    assert StartsWith(h, BearerScheme);
    SplitFirstField(BearerScheme, ' ', token);
    SplitNoSeparator(token, ' ');
    assert Split(h, ' ') == [BearerScheme, token];
  }

  /** A token with a space in it does not survive: `protect` sees only its first word. */
  lemma SpacedTokenTruncated(first: string, rest: string)
    requires ' ' !in first
    ensures HeaderToken(Some(BearerHeader(first + " " + rest))) == Some(first)
  {
    var h := BearerHeader(first + " " + rest);
    assert h == BearerScheme + [' '] + (first + [' '] + rest);
    assert StartsWith(h, BearerScheme);
    SplitFirstField(BearerScheme, ' ', first + [' '] + rest);
    SplitFirstField(first, ' ', rest);
  }
}
