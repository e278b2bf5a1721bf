/** Signed, time-limited report links (src/lib/signed-urls.ts). The HMAC-SHA256 digest is the
    uninterpreted parameter `hmac(secret, payload)`; the clock is the parameter `now`, in
    milliseconds since the epoch. */
module SignedUrls {
  import opened Common

  const MsPerHour := 60 * 60 * 1000
  const DefaultHours := 24
  const FallbackSecret := "fallback-secret-key-for-development"
  const FallbackBaseUrl := "http://localhost:3000"

  /** `SIGNED_URL_SECRET || fallback`. */
  function SecretKey(env: Option<string>): (key: string)
    ensures key == FallbackSecret || (env.Some? && key == env.value)
    ensures env.Some? && env.value != "" ==> key == env.value
  {
    if env.Some? && env.value != "" then env.value else FallbackSecret
  }

  /** The expiry instant: `now` plus the requested hours (24 when none are given). */
  function ExpiresAt(now: int, hours: Option<int>): int {
    var h := if hours.Some? then hours.value else DefaultHours;
    now + h * MsPerHour
  }

  /** The text the signature is computed over. */
  function SignedPayload(reportId: string, expires: string): string {
    reportId + ":" + expires
  }

  /** `generateSignedUrl`: the report path with the decimal expiry and the signature as query parameters. */
  function GenerateSignedUrl(reportId: string, hours: Option<int>, now: int, secret: string,
                             hmac: (string, string) -> string): (url: string)
  {
    var expires := IntToString(ExpiresAt(now, hours));
    "/view-report/" + reportId + "?expires=" + expires + "&signature=" + hmac(secret, SignedPayload(reportId, expires))
  }

  /** `generateFullSignedUrl`: the domain (`baseUrl`, else the environment's base URL, else
      localhost) followed by the signed path. */
  function GenerateFullSignedUrl(reportId: string, hours: Option<int>, baseUrl: Option<string>,
                                 envBaseUrl: Option<string>, now: int, secret: string,
                                 hmac: (string, string) -> string): (url: string)
    ensures var path := GenerateSignedUrl(reportId, hours, now, secret, hmac);
      && (baseUrl.Some? && baseUrl.value != "" ==> url == baseUrl.value + path)
      && ((baseUrl.None? || baseUrl.value == "") && envBaseUrl.Some? && envBaseUrl.value != "" ==> url == envBaseUrl.value + path)
      && ((baseUrl.None? || baseUrl.value == "") && (envBaseUrl.None? || envBaseUrl.value == "") ==> url == FallbackBaseUrl + path)
  {
    var domain :=
      if baseUrl.Some? && baseUrl.value != "" then baseUrl.value
      else if envBaseUrl.Some? && envBaseUrl.value != "" then envBaseUrl.value
      else FallbackBaseUrl;
    domain + GenerateSignedUrl(reportId, hours, now, secret, hmac)
  }

  /** `ParsedSignedUrl`; `expires` is None when `parseInt` gives NaN. */
  datatype ParsedSignedUrl = ParsedSignedUrl(reportId: string, expires: Option<int>, signature: string,
                                             isValid: bool, isExpired: bool)

  /** `verifySignedUrl`: an expired link is reported invalid without looking at the signature;
      otherwise the signature is recomputed over the raw `expires` text and compared. */
  function VerifySignedUrl(reportId: string, expires: string, signature: string, now: int, secret: string,
                           hmac: (string, string) -> string): (r: ParsedSignedUrl)
    ensures r.reportId == reportId && r.signature == signature && r.expires == ParseInt(expires)
    ensures r.isExpired <==> ParseInt(expires).Some? && ParseInt(expires).value < now
    ensures r.isValid <==> !r.isExpired && signature == hmac(secret, SignedPayload(reportId, expires))
    ensures !(r.isValid && r.isExpired)
  {
    var parsed := ParseInt(expires);
    var result := ParsedSignedUrl(reportId, parsed, signature, false, false);
    if parsed.Some? && parsed.value < now then
      result.(isExpired := true)
    else
      result.(isValid := signature == hmac(secret, SignedPayload(reportId, expires)))
  }

  /** `parseSignedUrlParams`: no result unless both query parameters are present and non-empty. */
  function ParseSignedUrlParams(reportId: string, expires: Option<string>, signature: Option<string>,
                                now: int, secret: string, hmac: (string, string) -> string): (r: Option<ParsedSignedUrl>)
    ensures r.None? <==> expires.None? || expires.value == "" || signature.None? || signature.value == ""
    ensures r.Some? ==> r.value == VerifySignedUrl(reportId, expires.value, signature.value, now, secret, hmac)
  {
    if expires.None? || expires.value == "" || signature.None? || signature.value == "" then None
    else Some(VerifySignedUrl(reportId, expires.value, signature.value, now, secret, hmac))
  }

  /** `Math.ceil(a / b)` for a positive divisor. */
  function CeilDiv(a: int, b: int): (q: int)
    requires b > 0
    ensures (q - 1) * b < a <= q * b
  {
    -((-a) / b)
  }

  /** Remaining whole hours, rounded up. */
  function HoursLeft(expirationTime: int, now: int): int {
    CeilDiv(expirationTime - now, MsPerHour)
  }

  /** `formatExpiration`. */
  function FormatExpiration(expirationTime: int, now: int): (text: string) {
    var hours := HoursLeft(expirationTime, now);
    if hours < 1 then "Expires soon"
    else if hours < 24 then "Expires in " + IntToString(hours) + " hour" + (if hours == 1 then "" else "s")
    else
      var days := CeilDiv(hours, 24);
      "Expires in " + IntToString(days) + " day" + (if days == 1 then "" else "s")
  }

  /** A link is "Expires soon" exactly when it has no time left; it is counted in hours
      while at most 23 hours remain, and in days after that. */
  lemma FormatExpirationCases(expirationTime: int, now: int)
    ensures var left := expirationTime - now;
      var text := FormatExpiration(expirationTime, now);
      && (text == "Expires soon" <==> left <= 0)
      && (0 < left <= 23 * MsPerHour ==> text == "Expires in " + IntToString(HoursLeft(expirationTime, now)) + " hour" + (if left <= MsPerHour then "" else "s"))
      && (left > 23 * MsPerHour ==> text == "Expires in " + IntToString(CeilDiv(HoursLeft(expirationTime, now), 24)) + " day" + (if left <= 24 * MsPerHour then "" else "s"))
  {
    var left := expirationTime - now;
    var hours := HoursLeft(expirationTime, now);
    assert hours < 1 <==> left <= 0;
    assert hours < 24 <==> left <= 23 * MsPerHour;
    assert hours == 1 <==> 0 < left <= MsPerHour;
    if hours >= 24 {
      assert CeilDiv(hours, 24) == 1 <==> hours == 24;
      assert hours == 24 <==> left <= 24 * MsPerHour;
    }
  }

  /** A link produced at time `t` verifies as valid and unexpired at any time up to its expiry. */
  lemma {:induction false} GenerateThenVerify(reportId: string, hours: Option<int>, t: int, now: int, secret: string,
                                              hmac: (string, string) -> string)
    requires now <= ExpiresAt(t, hours)
    ensures var expires := IntToString(ExpiresAt(t, hours));
      var signature := hmac(secret, SignedPayload(reportId, expires));
      var r := VerifySignedUrl(reportId, expires, signature, now, secret, hmac);
      r.isValid && !r.isExpired && r.expires == Some(ExpiresAt(t, hours))
  {
    ParseIntOfIntToString(ExpiresAt(t, hours));
  }

  /** After its expiry instant a generated link is reported expired and not valid. */
  lemma {:induction false} GeneratedLinkExpires(reportId: string, hours: Option<int>, t: int, now: int, secret: string,
                                                hmac: (string, string) -> string)
    requires now > ExpiresAt(t, hours)
    ensures var expires := IntToString(ExpiresAt(t, hours));
      var r := VerifySignedUrl(reportId, expires, hmac(secret, SignedPayload(reportId, expires)), now, secret, hmac);
      r.isExpired && !r.isValid
  {
    ParseIntOfIntToString(ExpiresAt(t, hours));
  }
}
