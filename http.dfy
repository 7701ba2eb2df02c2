/** What the hops see of HTTP: header maps, responses, and the outcome of an
    outbound `fetch`. Header names are compared case-insensitively on the
    wire, so the model keeps them in lower case. */
module Http {
  import opened Wrappers

  type Headers = map<string, string>

  /** `headers.get(name)`, or `req.headers[name]`. */
  function Header(h: Headers, name: string): (r: Option<string>)
    ensures r.Some? <==> name in h
    ensures r.Some? ==> r.value == h[name]
  {
    if name in h then Some(h[name]) else None
  }

  /** `headers.get(name) || dflt`: an absent or empty header gives `dflt`. */
  function HeaderOr(h: Headers, name: string, dflt: string): (r: string)
    ensures name in h && h[name] != "" ==> r == h[name]
    ensures !(name in h && h[name] != "") ==> r == dflt
  {
    if name in h && h[name] != "" then h[name] else dflt
  }

  /** A response; `body` is None for the `null` body of a preflight answer. */
  datatype Response = Response(status: nat, headers: Headers, body: Option<string>)

  /** What an outbound `fetch` gives back: it rejects (network failure), or it
      resolves with a status, response headers and the text of the body. */
  datatype Outcome =
    | TransportError(error: string)
    | Resp(status: nat, headers: Headers, body: string)

  /** `response.ok`. */
  predicate IsOk(status: nat)
  {
    200 <= status <= 299
  }
}
