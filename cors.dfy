/** The origin check the server's CORS middleware runs on every request. */
module Cors {
  import opened JsValues

  const SiteOrigin: string := "https://virtwin-energy.se"
  const WwwOrigin: string := "https://www.virtwin-energy.se"
  const AllowedOrigins: seq<string> := [SiteOrigin, WwwOrigin]
  const DenialPrefix: string := "Not allowed by CORS. Origin: "

  /** What the origin callback reports: allow, or an error for the origin. */
  datatype Decision = Allow | Deny(message: string)

  /** The `origin` callback: a request without an origin (a falsy one) is
      allowed, and so is one whose origin is exactly an allowed origin; any
      other origin is refused with an error naming it. */
  function CheckOrigin(origin: Value): (d: Decision)
    ensures d.Allow? <==> !Truthy(origin) || origin.s == SiteOrigin || origin.s == WwwOrigin
    ensures d.Deny? ==> |d.message| >= |origin.s| && d.message[|d.message| - |origin.s|..] == origin.s
  {
    if !Truthy(origin) then Allow
    else if origin.s in AllowedOrigins then Allow
    else
      var message := DenialPrefix + origin.s;
      assert message[|DenialPrefix|..] == origin.s;
      Deny(message)
  }

  /** Requests without an origin header, such as those from curl or a mobile
      app, are allowed. */
  lemma NoOriginAllowed()
    ensures CheckOrigin(Undefined) == Allow
    ensures CheckOrigin(Str("")) == Allow
  {
  }

  /** Matching is exact: an allowed origin followed by anything more, a
      trailing slash or a further host label for instance, is refused. */
  lemma {:induction false} ExtendedOriginDenied(allowed: string, suffix: string)
    requires allowed in AllowedOrigins && suffix != ""
    ensures CheckOrigin(Str(allowed + suffix)).Deny?
  {
    var o := allowed + suffix;
    assert |SiteOrigin| == 25 && |WwwOrigin| == 29;
    if allowed == SiteOrigin && |o| == |WwwOrigin| {
      assert o[8] == SiteOrigin[8] == 'v';
      assert WwwOrigin[8] == 'w';
    }
  }

  /** Variants of the site's origin are refused, and the error names them. */
  lemma VariantsDenied()
    ensures CheckOrigin(Str("http://virtwin-energy.se")) == Deny("Not allowed by CORS. Origin: http://virtwin-energy.se")
    ensures CheckOrigin(Str("https://virtwin-energy.se/")).Deny?
    ensures CheckOrigin(Str("https://shop.virtwin-energy.se")).Deny?
  {
    ExtendedOriginDenied(SiteOrigin, "/");
  }
}
