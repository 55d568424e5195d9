/** Timestamps (the `chrono` crate's `DateTime<Utc>`), reduced to instants on a line. */
module Time {
  type Timestamp = int
}

/** The part of the `url` crate the program uses: a parsed URL, its serialisation and `set_scheme`. */
module Urls {
  import opened Wrappers

  /** A parsed URL: its scheme and everything after the scheme's colon. */
  datatype Url = Url(scheme: string, rest: string)

  /** `Url::as_str` / `to_string`. */
  function Serialize(u: Url): string
  {
    u.scheme + ":" + u.rest
  }

  /** The schemes the URL standard treats specially. */
  predicate IsSpecial(scheme: string)
  {
    scheme in ["ftp", "file", "http", "https", "ws", "wss"]
  }

  /** `Url::set_scheme`: refuses to move a URL between a special and a non-special scheme;
      otherwise only the scheme changes. */
  function SetScheme(u: Url, scheme: string): (r: Option<Url>)
    ensures r.Some? <==> (IsSpecial(u.scheme) <==> IsSpecial(scheme))
    ensures r.Some? ==> r.value.scheme == scheme && r.value.rest == u.rest
  {
    if IsSpecial(u.scheme) == IsSpecial(scheme) then Some(u.(scheme := scheme)) else None
  }
}
