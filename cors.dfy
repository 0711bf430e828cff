/**
 * The origin callback handed to the CORS middleware: which request
 * origins may call the server.
 */
module Cors {
  import opened Optional

  const LocalFrontEnd := "http://localhost:3001"
  const DeployedFrontEnd := "https://rabbitgang.vercel.app"

  /** The list the callback looks an origin up in. */
  const AllowedOrigins: seq<string> := [LocalFrontEnd, DeployedFrontEnd]

  const CorsErrorMessage := "Not allowed by CORS"

  /** What the callback reports: `callback(null, true)` or `callback(new Error(...))`. */
  datatype Verdict = Allowed | Denied(error: string)

  /**
   * JavaScript's `!origin` for the Origin header: true when the header is
   * absent and also when it is present but empty.
   */
  predicate Falsy(origin: Option<string>) {
    origin.None? || origin.value == ""
  }

  function OriginCallback(origin: Option<string>): (v: Verdict)
    ensures v.Allowed? <==>
      origin == None || origin == Some("") ||
      origin == Some("http://localhost:3001") || origin == Some("https://rabbitgang.vercel.app")
    ensures v.Denied? ==> v.error == "Not allowed by CORS"
  {
    if Falsy(origin) then Allowed
    else if origin.value in AllowedOrigins then Allowed
    else Denied(CorsErrorMessage)
  }

  /**
   * Matching is exact: a listed origin extended by anything (a trailing
   * slash, a path, a port) is refused.
   */
  lemma ExtendedOriginRefused(o: string, extra: string)
    requires o in AllowedOrigins
    requires extra != ""
    ensures OriginCallback(Some(o + extra)).Denied?
  {
    // a listed origin would have to equal a longer string sharing o's first
    // five characters; the two listed origins differ in the fifth ("http:"
    // against "https")
    var e := o + extra;
    assert |e| > |o|;
    assert e[4] == o[4];
    assert LocalFrontEnd[4] != DeployedFrontEnd[4];
  }

  /** Matching is exact: a listed origin with its scheme swapped is refused. */
  lemma SchemeSwapRefused(host: string)
    ensures "http://" + host in AllowedOrigins ==> OriginCallback(Some("https://" + host)).Denied?
    ensures "https://" + host in AllowedOrigins ==> OriginCallback(Some("http://" + host)).Denied?
  {
    // the two listed origins are not one character apart in length
    var plain, secure := "http://" + host, "https://" + host;
    assert |secure| == |plain| + 1;
  }
}
