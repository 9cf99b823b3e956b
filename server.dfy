/** The CORS origin check the backend installs; the rest of the server setup is I/O. */
module Server {
  import opened Wrappers

  const AllowedOrigins: seq<string> := ["http://localhost:5173", "https://align-together-2.vercel.app"]

  datatype CorsDecision = Allow | Reject(message: string)

  /**
   * A request without an origin (absent or empty) is allowed, as is one whose
   * origin is exactly an allow-listed string; anything else is rejected with
   * "Not allowed by CORS".
   */
  function CorsOrigin(origin: Option<string>): (d: CorsDecision)
    ensures d == Allow <==> !Truthy(origin) || origin.value in AllowedOrigins
    ensures d != Allow ==> d == Reject("Not allowed by CORS")
  {
    if !Truthy(origin) || origin.value in AllowedOrigins then Allow
    else Reject("Not allowed by CORS")
  }

  /**
   * Matching is exact: an allowed origin with a trailing slash, and any
   * non-empty proper prefix of one, are rejected.
   */
  lemma NearMissesRejected(o: string, k: nat)
    requires o in AllowedOrigins && 0 < k < |o|
    ensures CorsOrigin(Some(o + "/")).Reject?
    ensures CorsOrigin(Some(o[..k])).Reject?
  {
    var local, deployed := AllowedOrigins[0], AllowedOrigins[1];
    assert |local| == 21 && |deployed| == 35;
    if o == deployed && k == 21 {
      assert o[..k][4] != local[4];
    }
  }

  /** Case is significant: the upper-case spelling of an allowed origin is rejected. */
  lemma CaseMatters()
    ensures CorsOrigin(Some("HTTP://localhost:5173")).Reject?
  {
    assert "HTTP://localhost:5173"[0] != AllowedOrigins[0][0];
    assert "HTTP://localhost:5173"[0] != AllowedOrigins[1][0];
  }
}
