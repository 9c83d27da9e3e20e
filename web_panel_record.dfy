/** `WebPanelRecord` of fgo/director/web_panel_record.py: a web panel of
    an aircraft, served by the agent's FlightGear HTTP server, and the link
    the director shows for it. */
module WebPanelRecord {
  import opened Wrappers
  import opened PyValues

  /** The panel's display name and file name; both default to None. */
  datatype WebPanelRecord = WebPanelRecord(name: Option<string>, fileName: Option<string>)

  /** `WebPanelRecord()` */
  const Default: WebPanelRecord := WebPanelRecord(None, None)

  /** The port of FlightGear's HTTP server that serves the panels. */
  const PanelPort: string := "8080"

  /** The directory the panels are served from. */
  const PanelPath: string := "/aircraft-dir/WebPanel/"

  /** `generate_url`: the panel on the agent at `hostAddress`; a file name
      of None is rendered as `None`. */
  function GenerateUrl(r: WebPanelRecord, hostAddress: string): string {
    "http://" + hostAddress + ":" + PanelPort + PanelPath + OptStr(r.fileName)
  }

  /** `generate_link_tag`: an anchor to the panel's URL labelled with its
      name. */
  function GenerateLinkTag(r: WebPanelRecord, hostAddress: string): string {
    "<a href=\"" + GenerateUrl(r, hostAddress) + "\">" + OptStr(r.name) + "</a>"
  }

  // ---------------------------------------------------------------------
  // Reading URLs and tags back

  /** `s` split at the first `c`: what precedes it and what follows it;
      None when `s` has no `c`. */
  function SplitAt(s: string, c: char): (r: Option<(string, string)>)
    ensures r.Some? ==> r.value.0 + [c] + r.value.1 == s && c !in r.value.0
    ensures r.None? ==> c !in s
  {
    if s == [] then None
    else if s[0] == c then Some(([], s[1..]))
    else
      match SplitAt(s[1..], c)
      case None => None
      case Some((before, after)) => Some(([s[0]] + before, after))
  }

  /** Splitting at the first `c` finds the text before it when that text
      has no `c`. */
  lemma {:induction false} SplitAtFirst(a: string, c: char, b: string)
    requires c !in a
    ensures SplitAt(a + [c] + b, c) == Some((a, b))
  {
    if a == [] {
      assert a + [c] + b == [c] + b;
    } else {
      assert (a + [c] + b)[1..] == a[1..] + [c] + b;
      SplitAtFirst(a[1..], c, b);
      assert [a[0]] + a[1..] == a;
    }
  }

  /** An `http://host:port/path` URL split into host, port and path. */
  function ParseUrl(url: string): Option<(string, string, string)> {
    var scheme := "http://";
    if |url| < |scheme| || url[..|scheme|] != scheme then None
    else
      match SplitAt(url[|scheme|..], ':')
      case None => None
      case Some((host, rest)) =>
        match SplitAt(rest, '/')
        case None => None
        case Some((port, path)) => Some((host, port, "/" + path))
  }

  /** The `href` attribute of an anchor tag that starts with it. */
  function Href(tag: string): Option<string> {
    var open := "<a href=\"";
    if |tag| < |open| || tag[..|open|] != open then None
    else
      match SplitAt(tag[|open|..], '"')
      case None => None
      case Some((href, _)) => Some(href)
  }

  /** The URL is the scheme, then the host address, a colon and the rest. */
  lemma UrlShape(r: WebPanelRecord, hostAddress: string)
    ensures var url := GenerateUrl(r, hostAddress);
      |url| >= 7 && url[..7] == "http://" &&
      url[7..] == hostAddress + [':'] + (PanelPort + PanelPath + OptStr(r.fileName))
  {
    var url := GenerateUrl(r, hostAddress);
    var tail := PanelPort + PanelPath + OptStr(r.fileName);
    assert url == "http://" + (hostAddress + [':'] + tail);
  }

  /** After the port, the first `/` starts the panel's path. */
  lemma PortThenPath(file: string)
    ensures SplitAt(PanelPort + PanelPath + file, '/') == Some((PanelPort, PanelPath[1..] + file))
  {
    assert PanelPort + PanelPath + file == PanelPort + ['/'] + (PanelPath[1..] + file);
    SplitAtFirst(PanelPort, '/', PanelPath[1..] + file);
  }

  /** The URL names the host it was made for (an address with no `:`),
      port 8080 whatever the host, and the panel's file under the WebPanel
      directory. */
  lemma UrlReadsBack(r: WebPanelRecord, hostAddress: string)
    requires ':' !in hostAddress
    ensures ParseUrl(GenerateUrl(r, hostAddress)) == Some((hostAddress, PanelPort, PanelPath + OptStr(r.fileName)))
  {
    var file := OptStr(r.fileName);
    UrlShape(r, hostAddress);
    SplitAtFirst(hostAddress, ':', PanelPort + PanelPath + file);
    PortThenPath(file);
    assert "/" + (PanelPath[1..] + file) == PanelPath + file;
  }

  /** The link's `href` is the URL generated for the same host, as long as
      the URL has no double quote in it. */
  lemma LinkTargetsUrl(r: WebPanelRecord, hostAddress: string)
    requires '"' !in GenerateUrl(r, hostAddress)
    ensures Href(GenerateLinkTag(r, hostAddress)) == Some(GenerateUrl(r, hostAddress))
  {
    var url := GenerateUrl(r, hostAddress);
    var rest := ">" + OptStr(r.name) + "</a>";
    var tag := GenerateLinkTag(r, hostAddress);
    assert tag == "<a href=\"" + (url + ['"'] + rest);
    assert tag[..9] == "<a href=\"";
    assert tag[9..] == url + ['"'] + rest;
    SplitAtFirst(url, '"', rest);
  }
}
