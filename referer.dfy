/** How a hop names itself to the generation service in `HTTP-Referer`:
    a host from an ordered candidate list, a protocol from the forwarding
    header or the request origin, joined as `protocol://host`.
    MuttrHop/index.js and TranscribeAudio/index.js carry the same code. */
module Referer {
  import opened Wrappers
  import opened Text
  import opened Http

  /** The parts of a parsed WHATWG URL the derivation reads. */
  datatype Url = Url(protocol: string, host: string)

  /** `new URL(value)`: None where the constructor throws. */
  type UrlParser = string -> Option<Url>

  /** MUTTR_HOSTNAME and WEBSITE_HOSTNAME ("" when unset) and `os.hostname()`. */
  datatype Site = Site(muttrHostname: string, websiteHostname: string, machineHostname: string)

  /** `safeParseUrl(req.headers.origin)`. */
  function OriginUrl(headers: Headers, parseUrl: UrlParser): (r: Option<Url>)
    ensures HeaderOr(headers, "origin", "") == "" ==> r.None?
  {
    var origin := HeaderOr(headers, "origin", "");
    if origin == "" then None else parseUrl(origin)
  }

  /** The position of the first string that is not empty; |ts| when
      every one is. */
  function FirstNonEmptyAt(ts: seq<string>): (i: nat)
    ensures i <= |ts|
    ensures forall m :: 0 <= m < i ==> ts[m] == ""
    ensures i < |ts| ==> ts[i] != ""
  {
    if ts == [] || ts[0] != "" then 0
    else
      var i := FirstNonEmptyAt(ts[1..]);
      assert forall m :: 1 <= m < i + 1 ==> ts[m] == ts[1..][m - 1];
      i + 1
  }

  /** The first candidate that is not blank, trimmed. */
  function FirstNonBlank(cands: seq<string>): (r: Option<string>)
    ensures r.None? <==> forall k :: 0 <= k < |cands| ==> Trim(cands[k]) == ""
    ensures r.Some? ==> exists k :: 0 <= k < |cands| && r.value == Trim(cands[k]) && r.value != ""
                                  && forall m :: 0 <= m < k ==> Trim(cands[m]) == ""
  {
    var ts := TrimAll(cands);
    var i := FirstNonEmptyAt(ts);
    if i < |ts| then Some(ts[i]) else None
  }

  /** The host candidates in priority order; an absent one is "". */
  function HostCandidates(site: Site, headers: Headers, originUrl: Option<Url>): (c: seq<string>)
    ensures |c| == 5
  {
    [ site.muttrHostname,
      site.websiteHostname,
      HeaderOr(headers, "x-appservice-hostname", ""),
      HeaderOr(headers, "host", ""),
      match originUrl case Some(u) => u.host case None => "" ]
  }

  /** `deriveSelfHostname()` / `deriveHostname()`. */
  function Hostname(site: Site, headers: Headers, originUrl: Option<Url>): (r: string)
    ensures var c := HostCandidates(site, headers, originUrl);
      (forall k :: 0 <= k < |c| ==> Trim(c[k]) == "") ==> r == site.machineHostname
    ensures var c := HostCandidates(site, headers, originUrl);
      (exists k :: 0 <= k < |c| && Trim(c[k]) != "") ==>
        exists k :: 0 <= k < |c| && r == Trim(c[k]) && r != "" && forall m :: 0 <= m < k ==> Trim(c[m]) == ""
  {
    FirstNonBlank(HostCandidates(site, headers, originUrl)).GetOr(site.machineHostname)
  }

  /** `s.replace(/:$/, "")`. */
  function StripColon(s: string): (r: string)
    ensures |s| > 0 && s[|s| - 1] == ':' ==> r == s[..|s| - 1]
    ensures !(|s| > 0 && s[|s| - 1] == ':') ==> r == s
  {
    if |s| > 0 && s[|s| - 1] == ':' then s[..|s| - 1] else s
  }

  /** The first comma-separated entry of `x-forwarded-proto`, trimmed; "" when absent. */
  function ForwardedProto(headers: Headers): (r: string)
    ensures HeaderOr(headers, "x-forwarded-proto", "") != "" ==>
      r == Trim(Split(headers["x-forwarded-proto"], ',')[0])
    ensures HeaderOr(headers, "x-forwarded-proto", "") == "" ==> r == ""
  {
    var v := HeaderOr(headers, "x-forwarded-proto", "");
    if v == "" then "" else Trim(Split(v, ',')[0])
  }

  /** The origin's scheme without its colon; "" when there is none. */
  function OriginProtocol(originUrl: Option<Url>): string
  {
    match originUrl
    case Some(u) => if u.protocol != "" then StripColon(u.protocol) else ""
    case None => ""
  }

  /** `deriveSelfProtocol()` / `deriveProtocol()`: the forwarded protocol,
      else the origin's, else "https", with one trailing colon dropped. */
  function Protocol(headers: Headers, originUrl: Option<Url>): (r: string)
    ensures ForwardedProto(headers) != "" ==> r == StripColon(ForwardedProto(headers))
    ensures ForwardedProto(headers) == "" && OriginProtocol(originUrl) != "" ==> r == StripColon(OriginProtocol(originUrl))
    ensures ForwardedProto(headers) == "" && OriginProtocol(originUrl) == "" ==> r == "https"
  {
    var fp := ForwardedProto(headers);
    var op := OriginProtocol(originUrl);
    StripColon(if fp != "" then fp else if op != "" then op else "https")
  }

  /** A host that already carries a scheme is used as it is; otherwise the
      protocol is put in front. */
  function RefererValue(host: string, protocol: string): (r: string)
    ensures Contains(host, "://") ==> r == host
    ensures !Contains(host, "://") ==> r == protocol + "://" + host
  {
    if Contains(host, "://") then host else protocol + "://" + host
  }

  /** The `HTTP-Referer` value a hop sends to the generation service. */
  function Referer(site: Site, headers: Headers, parseUrl: UrlParser): (r: string)
    ensures var host := Hostname(site, headers, OriginUrl(headers, parseUrl));
      r == RefererValue(host, Protocol(headers, OriginUrl(headers, parseUrl)))
  {
    var originUrl := OriginUrl(headers, parseUrl);
    RefererValue(Hostname(site, headers, originUrl), Protocol(headers, originUrl))
  }

  /** With nothing configured and no usable header, the referer is
      `https://` followed by the machine name (when that has no scheme). */
  lemma RefererFallback(site: Site, headers: Headers, parseUrl: UrlParser)
    requires Trim(site.muttrHostname) == "" && Trim(site.websiteHostname) == ""
    requires HeaderOr(headers, "x-appservice-hostname", "") == "" && HeaderOr(headers, "host", "") == ""
    requires HeaderOr(headers, "origin", "") == "" && HeaderOr(headers, "x-forwarded-proto", "") == ""
    requires !Contains(site.machineHostname, "://")
    ensures Referer(site, headers, parseUrl) == "https://" + site.machineHostname
  {
    var c := HostCandidates(site, headers, None);
    assert forall k :: 0 <= k < |c| ==> Trim(c[k]) == "" by {
      assert Trim("") == "";
    }
  }
}
