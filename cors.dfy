/** The origin gate the `cors` middleware is configured with: a fixed
    allow-list, and a callback that lets a request through or fails it. */
module Cors {
  import opened Json

  const AllowedOrigins: seq<string> := [
    "https://psgpt.web.app",
    "https://psgpt.firebaseapp.com",
    "http://localhost:5173",
    "http://localhost:4173"
  ]

  /** The cross-origin methods and request headers the middleware permits.
      They configure the `cors` library's preflight answers, which are not
      modelled; they are kept so that the whole configuration is stated. */
  const AllowedMethods: seq<string> := ["GET", "POST", "OPTIONS"]
  const AllowedHeaders: seq<string> := ["Content-Type", "Authorization"]

  const Rejection := "Not allowed by CORS"

  /** What the origin callback decides: `callback(null, true)` or
      `callback(new Error(message))`. */
  datatype Decision = Allow | Reject(message: string)

  /** `Array.prototype.includes` on a list of strings: a linear scan with
      exact (case-sensitive) comparison. */
  function Includes(list: seq<string>, x: string): (r: bool)
    ensures r <==> x in list
  {
    if list == [] then false else list[0] == x || Includes(list[1..], x)
  }

  /** The origin callback. A missing or empty `Origin` header is falsy and
      always passes; a present one passes only when it is on the list. */
  function OriginDecision(origin: Option<string>): (d: Decision)
    ensures d == Allow <==> origin.None? || origin.value == "" || origin.value in AllowedOrigins
    ensures d.Reject? ==> d.message == Rejection
  {
    if origin.None? || origin.value == "" then Allow
    else if Includes(AllowedOrigins, origin.value) then Allow
    else Reject(Rejection)
  }

  /** Every listed origin passes, and so do requests without an origin;
      any other non-empty origin, including a listed one written with
      different letter case or a trailing slash, is rejected. */
  lemma OriginGate(o: string)
    ensures OriginDecision(None) == Allow
    ensures o in AllowedOrigins ==> OriginDecision(Some(o)) == Allow
    ensures o != "" && o !in AllowedOrigins ==> OriginDecision(Some(o)) == Reject(Rejection)
    ensures OriginDecision(Some("https://PSGPT.web.app")).Reject?
    ensures OriginDecision(Some("https://psgpt.web.app/")).Reject?
  {
  }
}
