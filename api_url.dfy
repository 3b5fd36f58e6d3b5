/** Endpoint derivation of the dashboard client: the HTTP base address of the
    monitoring server and the WebSocket address derived from it. The value kept
    in the browser's storage under "server_url" is an input. */
module ApiUrl {
  import opened Common

  /** The server address used when none is stored: localhost:8000 over plain HTTP. */
  const DefaultHost: string := "localhost:8000"
  const DefaultApiUrl: string := "http://" + DefaultHost

  /** The base address: the stored server_url unless it is missing or empty
      (JavaScript's `||` treats "" like null), else the default. */
  function GetApiUrl(stored: Option<string>): (url: string)
    ensures stored.Some? && stored.value != "" ==> url == stored.value
    ensures stored.None? || stored.value == "" ==> url == DefaultApiUrl
    ensures url != ""
  {
    if stored.Some? && stored.value != "" then stored.value else DefaultApiUrl
  }

  /** The stream scheme: "wss" exactly when the address starts with "https". */
  function StreamScheme(apiUrl: string): (scheme: string)
    ensures scheme == "wss" <==> "https" <= apiUrl
    ensures scheme == "ws" <==> !("https" <= apiUrl)
  {
    if "https" <= apiUrl then "wss" else "ws"
  }

  /** Removes one leading "http://" or "https://" (the anchored pattern
      ^https?:\/\/); an address with neither prefix is kept as it is. */
  function StripHttpScheme(apiUrl: string): (host: string)
    ensures "http://" <= apiUrl ==> host == apiUrl[7..]
    ensures "https://" <= apiUrl ==> host == apiUrl[8..]
    ensures !("http://" <= apiUrl) && !("https://" <= apiUrl) ==> host == apiUrl
    ensures |host| <= |apiUrl| && host == apiUrl[|apiUrl| - |host|..]
  {
    if "https://" <= apiUrl then
      assert apiUrl[4] == 's' != "http://"[4];
      apiUrl[8..]
    else if "http://" <= apiUrl then apiUrl[7..]
    else apiUrl
  }

  /** The stream address for a base address: scheme, "://", host. */
  function WsUrlFor(apiUrl: string): (ws: string)
    ensures "ws://" <= ws || "wss://" <= ws
  {
    var scheme, host := StreamScheme(apiUrl), StripHttpScheme(apiUrl);
    var ws := scheme + "://" + host;
    assert ws[..|scheme| + 3] == scheme + "://";
    ws
  }

  /** getWsUrl() for what the browser has stored. */
  function GetWsUrl(stored: Option<string>): (ws: string)
    ensures "ws://" <= ws || "wss://" <= ws
    ensures stored.None? || stored.value == "" ==> ws == "ws://" + DefaultHost
    ensures stored.Some? && ("http://" <= stored.value || "https://" <= stored.value) ==>
      HttpUrlFor(ws) == stored.value
  {
    var apiUrl := GetApiUrl(stored);
    WsUrlOfHttp(DefaultHost);
    if "http://" <= apiUrl || "https://" <= apiUrl then
      HttpUrlForWsUrl(apiUrl);
      WsUrlFor(apiUrl)
    else
      WsUrlFor(apiUrl)
  }

  /** The base address a stream address was derived from, when that base
      address carried an http:// or https:// prefix. */
  function HttpUrlFor(ws: string): string
  {
    if "wss://" <= ws then "https://" + ws[6..]
    else if "ws://" <= ws then "http://" + ws[5..]
    else ws
  }

  /** A plain-HTTP server "http://h" is reached at "ws://h". */
  lemma WsUrlOfHttp(h: string)
    ensures WsUrlFor("http://" + h) == "ws://" + h
  {
    var url := "http://" + h;
    assert url[..7] == "http://";
    assert !("https://" <= url) by { assert url[4] == ':'; }
    assert !("https" <= url) by { assert url[4] == ':'; }
    assert url[7..] == h;
  }

  /** A TLS server "https://h" is reached at "wss://h". */
  lemma WsUrlOfHttps(h: string)
    ensures WsUrlFor("https://" + h) == "wss://" + h
  {
    var url := "https://" + h;
    assert url[..8] == "https://";
    assert url[..5] == "https";
    assert url[8..] == h;
  }

  /** An address with no http(s):// prefix keeps its text; only the scheme
      in front changes with whether it starts with "https". */
  lemma WsUrlOfBareAddress(url: string)
    requires !("http://" <= url) && !("https://" <= url)
    ensures WsUrlFor(url) == (if "https" <= url then "wss://" else "ws://") + url
  {
  }

  /** Deriving the stream address loses nothing: for an http(s) base address,
      the base address can be read back from the stream address. */
  lemma HttpUrlForWsUrl(apiUrl: string)
    requires "http://" <= apiUrl || "https://" <= apiUrl
    ensures HttpUrlFor(WsUrlFor(apiUrl)) == apiUrl
  {
    if "https://" <= apiUrl {
      var h := apiUrl[8..];
      assert apiUrl == "https://" + h;
      WsUrlOfHttps(h);
      var ws := "wss://" + h;
      assert ws[..6] == "wss://" && ws[6..] == h;
    } else {
      var h := apiUrl[7..];
      assert apiUrl == "http://" + h;
      WsUrlOfHttp(h);
      var ws := "ws://" + h;
      assert ws[..5] == "ws://" && ws[5..] == h;
      assert !("wss://" <= ws) by { assert ws[2] == ':'; }
    }
  }

  /** With nothing (or an empty string) stored the client streams from
      ws://localhost:8000. */
  lemma DefaultWsUrl()
    ensures GetWsUrl(None) == "ws://" + DefaultHost
    ensures GetWsUrl(Some("")) == "ws://" + DefaultHost
  {
    WsUrlOfHttp(DefaultHost);
  }
}
