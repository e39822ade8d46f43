/** The HTTP exchange as the REST strategies see it; the transport itself is not modelled. */
module Http {
  import opened Common
  import opened Errors

  /** What an awaited axios call resolves to: a string, or some other value. */
  datatype Response = Text(text: string) | Body(fields: map<string, string>)

  /** The awaited request: resolved with a response, or rejected with a reason. */
  datatype Reply = Replied(response: Response) | Rejects(reason: Reason)

  /** `{ url, method }` of one endpoint. */
  datatype UrlConfig = UrlConfig(url: string, verb: string)

  /** A `getToken(response, url)` callback supplied by the configuration. */
  type Getter = (Response, string) -> string

  /** `extractToken`: a string response is the token; otherwise the getter's result, or `''` without one. */
  function ExtractToken(getToken: Option<Getter>, response: Response, url: string): string {
    if response.Text? then response.text
    else if getToken.Some? then getToken.value(response, url)
    else ""
  }

  /** A string response wins over any getter; without a getter any other response gives `''`. */
  lemma ExtractTokenPolicy(getToken: Option<Getter>, response: Response, url: string)
    ensures response.Text? ==> ExtractToken(getToken, response, url) == response.text
    ensures !response.Text? && getToken.None? ==> ExtractToken(getToken, response, url) == ""
    ensures !response.Text? && getToken.Some? ==> ExtractToken(getToken, response, url) == getToken.value(response, url)
  {
  }
}
