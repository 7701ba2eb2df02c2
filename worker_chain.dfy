/** A whole journey through a chain of Cloudflare hops (src/worker.mjs):
    the client posts to hop 0, each hop forwards to the next, the last one
    calls the generation service and starts the return leg, and every hop on
    the way back relays toward hop 0, which answers with the summary. Each
    invocation is `Worker.Decide`; the response of a relayed call is what
    the relaying invocation returns.

    The journey is proved in two layers. The first states what one
    invocation does with the call it receives (`OnwardVisit`, `TurnVisit`,
    `ReturnVisit`). The second follows a journey of any hop function that
    behaves that way (`RelaysOnward`, `TurnsBack`, `RelaysBack`), with the
    log entries it writes left abstract. */
module WorkerChain {
  import opened Wrappers
  import opened Text
  import opened Json
  import opened Http
  import opened Worker

  /** The response the platform sends in place of an invocation that throws
      (its error page); the model leaves its contents open. */
  datatype ErrorPage = ErrorPage(status: nat, headers: Headers, body: string)

  /** What the platform adds to a request when it arrives: the time the hop
      reads, the `cf` properties, the `cf-connecting-ip` header, and the
      error page it answers with if this invocation throws. */
  datatype Stamp = Stamp(now: string, cf: Cf, ip: string, crash: ErrorPage)

  /** One invocation: configuration, request and clock to its decision. */
  type Hop = (Env, Request, string) -> Decision

  /** The log entry a hop writes, from its name, direction and stamp. */
  type EntryFn = (string, string, Stamp) -> string

  /** The worker's `fetch`, given what its generation call returns. */
  function Invocation(parse: Parser, gen: Outcome): Hop
  {
    (env: Env, req: Request, now: string) => Decide(env, req, now, parse, gen)
  }

  /** Hop i forwards to hop i + 1 and returns to hop i - 1; the first has no
      previous hop and the last no next one. */
  predicate Linked(stops: seq<Env>)
  {
    |stops| >= 1
    && forall i :: 0 <= i < |stops| ==>
         (stops[i].nextHop != "" <==> i < |stops| - 1) && (stops[i].prevHop != "" <==> i > 0)
  }

  /** A call as the receiving hop sees it: a POST to the hop endpoint. */
  function Arrival(call: HopCall, st: Stamp): Request
  {
    Request("POST", "/api/hop", call.headers["cf-connecting-ip" := st.ip], call.body, st.cf)
  }

  /** What the relaying hop's `fetch` resolves with when the called
      invocation replies `r`. An invocation that throws is answered with the
      platform's error page `crash`. (A relayed call is a POST, so the page
      is never served to one.) */
  function AsOutcome(r: Reply, crash: ErrorPage): (o: Outcome)
    ensures r.Replied? && r.response.body.Some? ==>
      o == Resp(r.response.status, r.response.headers, r.response.body.value)
    ensures r.Failed? ==> o == Resp(crash.status, crash.headers, crash.body)
  {
    match r
    case Replied(resp) => Resp(resp.status, resp.headers, resp.body.GetOr(""))
    case Failed => Resp(crash.status, crash.headers, crash.body)
    case Page => Resp(200, map[], "")
  }

  /** A call to a URL that is not the neighbour the direction names. */
  const Unroutable := TransportError("no hop at this URL")

  /** Visit `i` of the outward leg, the visit index being `i`. */
  function Out(stops: seq<Env>, i: nat, call: HopCall, stamp: nat -> Stamp, hop: Hop): Reply
    requires Linked(stops) && i < |stops|
    decreases 1, |stops| - i, 1
  {
    OutAfter(stops, i, hop(stops[i], Arrival(call, stamp(i)), stamp(i).now), stamp, hop)
  }

  /** The reply of outward visit `i` once it has decided: a relay goes to
      the neighbour its direction names. */
  function OutAfter(stops: seq<Env>, i: nat, d: Decision, stamp: nat -> Stamp, hop: Hop): Reply
    requires Linked(stops) && i < |stops|
    decreases 1, |stops| - i, 0
  {
    var relay :=
      if !d.action.Relay? then Unroutable
      else
        var dir := HeaderOr(d.action.call.headers, "x-muttr-direction", "");
        if dir == "forward" && i + 1 < |stops| then AsOutcome(Out(stops, i + 1, d.action.call, stamp, hop), stamp(i + 1).crash)
        else if dir == "return" && i > 0 then AsOutcome(Back(stops, 2 * |stops| - 1 - i, d.action.call, stamp, hop), stamp(2 * |stops| - 1 - i).crash)
        else Unroutable;
    Finish(d, relay)
  }

  /** Visit `k` of the return leg, made by hop `2n - 2 - k`. */
  function Back(stops: seq<Env>, k: nat, call: HopCall, stamp: nat -> Stamp, hop: Hop): Reply
    requires Linked(stops) && |stops| <= k < 2 * |stops| - 1
    decreases 0, 2 * |stops| - 1 - k, 1
  {
    BackAfter(stops, k, hop(stops[2 * |stops| - 2 - k], Arrival(call, stamp(k)), stamp(k).now), stamp, hop)
  }

  /** The reply of return visit `k` once it has decided; a return call goes
      to the previous hop, whose return visit is the next one. */
  function BackAfter(stops: seq<Env>, k: nat, d: Decision, stamp: nat -> Stamp, hop: Hop): Reply
    requires Linked(stops) && |stops| <= k < 2 * |stops| - 1
    decreases 0, 2 * |stops| - 1 - k, 0
  {
    var relay :=
      if !d.action.Relay? then Unroutable
      else
        var dir := HeaderOr(d.action.call.headers, "x-muttr-direction", "");
        if dir == "return" && k + 1 < 2 * |stops| - 1 then AsOutcome(Back(stops, k + 1, d.action.call, stamp, hop), stamp(k + 1).crash)
        else Unroutable;
    Finish(d, relay)
  }

  /** The whole journey of the client's call through worker hops. */
  function Journey(stops: seq<Env>, client: HopCall, stamp: nat -> Stamp, parse: Parser, gen: Outcome): Reply
    requires Linked(stops)
  {
    Out(stops, 0, client, stamp, Invocation(parse, gen))
  }

  // ---- One invocation, in terms of the call it receives

  /** The direction a relayed call names outright. */
  predicate Directed(call: HopCall, direction: string)
  {
    HeaderOr(call.headers, "x-muttr-direction", "") == direction
  }

  /** The direction a call names; an absent one means "forward". */
  predicate Heading(call: HopCall, direction: string)
  {
    HeaderOr(call.headers, "x-muttr-direction", "forward") == direction
  }

  /** The chain a hop holds after it arrives with `call`. */
  function ArrivedChain(env: Env, call: HopCall, direction: string): string
  {
    AppendChain(HeaderOr(call.headers, "x-hop-chain", ""), HopName(env), direction)
  }

  /** The log a hop holds after it arrives with `call`, writing `entry`. */
  function ArrivedLog(env: Env, call: HopCall, direction: string, st: Stamp, entry: EntryFn): string
  {
    AppendLog(HeaderOr(call.headers, "x-hop-log", ""), entry(HopName(env), direction, st))
  }

  /** The log entry of a visit stamped `st`. */
  function VisitEntry(name: string, direction: string, st: Stamp): string
  {
    MakeLogEntry(name, direction, st.now, Request("POST", "/api/hop", map["cf-connecting-ip" := st.ip], "", st.cf))
  }

  /** The entries the worker writes. */
  function WorkerEntry(): EntryFn
  {
    (name: string, direction: string, st: Stamp) => VisitEntry(name, direction, st)
  }

  /** The platform's header reads the hop's own headers through. */
  lemma ArrivalKeeps(call: HopCall, st: Stamp, name: string, dflt: string)
    requires name != "cf-connecting-ip"
    ensures HeaderOr(Arrival(call, st).headers, name, dflt) == HeaderOr(call.headers, name, dflt)
  {
  }

  /** The entry a hop writes depends only on its stamp. */
  lemma EntryOfArrival(name: string, direction: string, call: HopCall, st: Stamp)
    ensures MakeLogEntry(name, direction, st.now, Arrival(call, st)) == VisitEntry(name, direction, st)
  {
    assert LogRecord(name, direction, st.now, Arrival(call, st))
        == LogRecord(name, direction, st.now, Request("POST", "/api/hop", map["cf-connecting-ip" := st.ip], "", st.cf));
  }

  /** What a hop computes on arrival, in terms of the call it receives. */
  lemma ArrivalVisit(env: Env, call: HopCall, st: Stamp, direction: string)
    requires Heading(call, direction)
    ensures Arrive(env, Arrival(call, st), st.now)
         == Visit(HopName(env), direction, ArrivedChain(env, call, direction), ArrivedLog(env, call, direction, st, WorkerEntry()))
  {
    ArrivalKeeps(call, st, "x-muttr-direction", "forward");
    ArrivalKeeps(call, st, "x-hop-chain", "");
    ArrivalKeeps(call, st, "x-hop-log", "");
    EntryOfArrival(HopName(env), direction, call, st);
  }

  /** A forward call to a hop with a next hop is relayed there: same body
      and content type, this hop's entries added to chain and log, and no
      generation call. */
  lemma OnwardVisit(env: Env, call: HopCall, st: Stamp, parse: Parser, gen: Outcome)
    requires Heading(call, "forward") && env.nextHop != ""
    ensures var d := Decide(env, Arrival(call, st), st.now, parse, gen);
      d.gen.None?
      && d.action == Relay(CallHop(env.nextHop, "forward", call.body, ArrivedChain(env, call, "forward"),
                                   ArrivedLog(env, call, "forward", st, WorkerEntry()), HeaderOr(call.headers, "content-type", TextUtf8)))
  {
    ArrivalVisit(env, call, st, "forward");
    ArrivalKeeps(call, st, "content-type", TextUtf8);
    DecideOnHop(env, Arrival(call, st), st.now, parse, gen);
  }

  /** A forward call to the last hop makes the generation call and turns
      back: toward the previous hop with the generated body, or, with no
      previous hop, as the answer. A rejected generation call throws. */
  lemma TurnVisit(env: Env, call: HopCall, st: Stamp, parse: Parser, gen: Outcome)
    requires Heading(call, "forward") && env.nextHop == ""
    ensures var d := Decide(env, Arrival(call, st), st.now, parse, gen);
      && d.gen == Some(GenRequest(env, call.body, parse))
      && (gen.TransportError? ==> d.action == Throw)
      && (gen.Resp? && env.prevHop != "" ==>
            d.action == Relay(CallHop(env.prevHop, "return", GenerationBody(gen.status, gen.body), ArrivedChain(env, call, "forward"),
                                      ArrivedLog(env, call, "forward", st, WorkerEntry()), JsonUtf8)))
      && (gen.Resp? && env.prevHop == "" ==> d.action == Respond(GenerationAnswer(gen.status, gen.body)))
  {
    ArrivalVisit(env, call, st, "forward");
    DecideOnHop(env, Arrival(call, st), st.now, parse, gen);
  }

  /** A return call is relayed toward the previous hop with the same body,
      or, at the first hop, answered with the summary. */
  lemma ReturnVisit(env: Env, call: HopCall, st: Stamp, parse: Parser, gen: Outcome)
    requires Heading(call, "return")
    ensures var d := Decide(env, Arrival(call, st), st.now, parse, gen);
      && d.gen.None?
      && (env.prevHop != "" ==>
            d.action == Relay(CallHop(env.prevHop, "return", call.body, ArrivedChain(env, call, "return"),
                                      ArrivedLog(env, call, "return", st, WorkerEntry()), HeaderOr(call.headers, "content-type", JsonUtf8))))
      && (env.prevHop == "" ==>
            d.action == Respond(Summary(Visit(HopName(env), "return", ArrivedChain(env, call, "return"),
                                              ArrivedLog(env, call, "return", st, WorkerEntry())), call.body, parse)))
  {
    ArrivalVisit(env, call, st, "return");
    ArrivalKeeps(call, st, "content-type", JsonUtf8);
    DecideOnHop(env, Arrival(call, st), st.now, parse, gen);
  }

  // ---- What a journey needs of each hop

  /** The decision `hop` takes on `call` arriving at `env` at `st`. */
  ghost function Visited(hop: Hop, env: Env, call: HopCall, st: Stamp): Decision
  {
    hop(env, Arrival(call, st), st.now)
  }

  /** Non-terminal outward hops relay onward (as `OnwardVisit` states). */
  ghost predicate RelaysOnward(hop: Hop, entry: EntryFn)
  {
    forall env: Env, call: HopCall, st: Stamp {:trigger Visited(hop, env, call, st)} :: Heading(call, "forward") && env.nextHop != "" ==>
      Visited(hop, env, call, st).action
        == Relay(CallHop(env.nextHop, "forward", call.body, ArrivedChain(env, call, "forward"),
                         ArrivedLog(env, call, "forward", st, entry), HeaderOr(call.headers, "content-type", TextUtf8)))
  }

  /** The last hop turns back: it relays `returned` toward the previous
      hop, or, with none, answers `answer` (as `TurnVisit` states for a
      generation call that resolves). */
  ghost predicate TurnsBack(hop: Hop, entry: EntryFn, answer: Response, returned: string)
  {
    forall env: Env, call: HopCall, st: Stamp {:trigger Visited(hop, env, call, st)} :: Heading(call, "forward") && env.nextHop == "" ==>
      Visited(hop, env, call, st).action
        == if env.prevHop != "" then
             Relay(CallHop(env.prevHop, "return", returned, ArrivedChain(env, call, "forward"),
                           ArrivedLog(env, call, "forward", st, entry), JsonUtf8))
           else Respond(answer)
  }

  /** The last hop throws (as `TurnVisit` states for a rejected call). */
  ghost predicate ThrowsAtTurn(hop: Hop)
  {
    forall env: Env, call: HopCall, st: Stamp {:trigger Visited(hop, env, call, st)} :: Heading(call, "forward") && env.nextHop == "" ==>
      Visited(hop, env, call, st).action == Throw
  }

  /** How the first hop answers a return call: from its configuration, its
      chain, its log and the body. */
  type Answer = (Env, string, string, string) -> Response

  /** The worker answers with the summary. */
  function WorkerAnswer(parse: Parser): Answer
  {
    (env: Env, chain: string, log: string, body: string) => Summary(Visit(HopName(env), "return", chain, log), body, parse)
  }

  /** Every answer has a body. */
  ghost predicate Bodied(final: Answer)
  {
    forall env: Env, chain: string, log: string, body: string :: final(env, chain, log, body).body.Some?
  }

  /** Return hops relay back, or answer with `final` at the first hop (as
      `ReturnVisit` states). */
  ghost predicate RelaysBack(hop: Hop, entry: EntryFn, final: Answer)
  {
    forall env: Env, call: HopCall, st: Stamp {:trigger Visited(hop, env, call, st)} :: Heading(call, "return") ==>
      Visited(hop, env, call, st).action
        == if env.prevHop != "" then
             Relay(CallHop(env.prevHop, "return", call.body, ArrivedChain(env, call, "return"),
                           ArrivedLog(env, call, "return", st, entry), HeaderOr(call.headers, "content-type", JsonUtf8)))
           else Respond(final(env, ArrivedChain(env, call, "return"), ArrivedLog(env, call, "return", st, entry), call.body))
  }

  /** Every entry is non-empty. */
  ghost predicate Nonblank(entry: EntryFn)
  {
    forall name: string, direction: string, st: Stamp :: entry(name, direction, st) != ""
  }

  lemma WorkerRelaysOnward(parse: Parser, gen: Outcome)
    ensures RelaysOnward(Invocation(parse, gen), WorkerEntry())
  {
    forall env: Env, call: HopCall, st: Stamp {:trigger Visited(Invocation(parse, gen), env, call, st)} | Heading(call, "forward") && env.nextHop != ""
      ensures Visited(Invocation(parse, gen), env, call, st).action
        == Relay(CallHop(env.nextHop, "forward", call.body, ArrivedChain(env, call, "forward"),
                         ArrivedLog(env, call, "forward", st, WorkerEntry()), HeaderOr(call.headers, "content-type", TextUtf8)))
    {
      OnwardVisit(env, call, st, parse, gen);
    }
  }

  lemma WorkerTurnsBack(parse: Parser, gen: Outcome)
    requires gen.Resp?
    ensures TurnsBack(Invocation(parse, gen), WorkerEntry(), GenerationAnswer(gen.status, gen.body), GenerationBody(gen.status, gen.body))
  {
    forall env: Env, call: HopCall, st: Stamp {:trigger Visited(Invocation(parse, gen), env, call, st)} | Heading(call, "forward") && env.nextHop == ""
      ensures Visited(Invocation(parse, gen), env, call, st).action
        == if env.prevHop != "" then
             Relay(CallHop(env.prevHop, "return", GenerationBody(gen.status, gen.body), ArrivedChain(env, call, "forward"),
                           ArrivedLog(env, call, "forward", st, WorkerEntry()), JsonUtf8))
           else Respond(GenerationAnswer(gen.status, gen.body))
    {
      TurnVisit(env, call, st, parse, gen);
    }
  }

  lemma WorkerThrowsAtTurn(parse: Parser, gen: Outcome)
    requires gen.TransportError?
    ensures ThrowsAtTurn(Invocation(parse, gen))
  {
    forall env: Env, call: HopCall, st: Stamp {:trigger Visited(Invocation(parse, gen), env, call, st)} | Heading(call, "forward") && env.nextHop == ""
      ensures Visited(Invocation(parse, gen), env, call, st).action == Throw
    {
      TurnVisit(env, call, st, parse, gen);
    }
  }

  lemma WorkerRelaysBack(parse: Parser, gen: Outcome)
    ensures RelaysBack(Invocation(parse, gen), WorkerEntry(), WorkerAnswer(parse))
  {
    forall env: Env, call: HopCall, st: Stamp {:trigger Visited(Invocation(parse, gen), env, call, st)} | Heading(call, "return")
      ensures Visited(Invocation(parse, gen), env, call, st).action
        == if env.prevHop != "" then
             Relay(CallHop(env.prevHop, "return", call.body, ArrivedChain(env, call, "return"),
                           ArrivedLog(env, call, "return", st, WorkerEntry()), HeaderOr(call.headers, "content-type", JsonUtf8)))
           else Respond(WorkerAnswer(parse)(env, ArrivedChain(env, call, "return"), ArrivedLog(env, call, "return", st, WorkerEntry()), call.body))
    {
      ReturnVisit(env, call, st, parse, gen);
    }
  }

  /** The summary always has a body. */
  lemma WorkerBodied(parse: Parser)
    ensures Bodied(WorkerAnswer(parse))
  {
    forall env: Env, chain: string, log: string, body: string
      ensures WorkerAnswer(parse)(env, chain, log, body).body.Some?
    {
      assert WorkerAnswer(parse)(env, chain, log, body) == Summary(Visit(HopName(env), "return", chain, log), body, parse);
    }
  }

  /** Every worker entry is a non-empty line. */
  lemma WorkerNonblank()
    ensures Nonblank(WorkerEntry())
  {
    forall name: string, direction: string, st: Stamp
      ensures WorkerEntry()(name, direction, st) != ""
    {
      assert WorkerEntry()(name, direction, st) == VisitEntry(name, direction, st);
    }
  }

  // ---- The chain and log a journey accumulates

  /** The hop of visit k: outward 0 .. n-1, then back n-2 .. 0. */
  function HopOf(n: nat, k: nat): (h: nat)
    requires n >= 1 && k < 2 * n - 1
    ensures h < n
    ensures k < n ==> h == k
    ensures k >= n ==> h == 2 * n - 2 - k
  {
    if k < n then k else 2 * n - 2 - k
  }

  /** The direction of visit k. */
  function DirOf(n: nat, k: nat): string
  {
    if k < n then "forward" else "return"
  }

  /** The chain after the first k visits, each appended as the handler
      appends it. */
  function ChainAt(stops: seq<Env>, k: nat): string
  {
    if k == 0 || k > 2 * |stops| - 1 then ""
    else AppendChain(ChainAt(stops, k - 1), HopName(stops[HopOf(|stops|, k - 1)]), DirOf(|stops|, k - 1))
  }

  /** The log after the first k visits. */
  function LogAt(stops: seq<Env>, stamp: nat -> Stamp, entry: EntryFn, k: nat): string
  {
    if k == 0 || k > 2 * |stops| - 1 then ""
    else AppendLog(LogAt(stops, stamp, entry, k - 1), entry(HopName(stops[HopOf(|stops|, k - 1)]), DirOf(|stops|, k - 1), stamp(k - 1)))
  }

  /** The call visit k receives: its direction, and the chain and log of
      the k visits before it. */
  predicate Carries(stops: seq<Env>, stamp: nat -> Stamp, entry: EntryFn, k: nat, call: HopCall, direction: string)
  {
    && Heading(call, direction)
    && HeaderOr(call.headers, "x-hop-chain", "") == ChainAt(stops, k)
    && HeaderOr(call.headers, "x-hop-log", "") == LogAt(stops, stamp, entry, k)
  }

  /** Visit k, arriving with the chain and log of the visits before it,
      holds the chain and log of the visits up to itself. */
  lemma VisitExtends(stops: seq<Env>, stamp: nat -> Stamp, entry: EntryFn, k: nat, call: HopCall)
    requires |stops| >= 1 && k < 2 * |stops| - 1
    requires Carries(stops, stamp, entry, k, call, DirOf(|stops|, k))
    ensures var env := stops[HopOf(|stops|, k)];
      && ArrivedChain(env, call, DirOf(|stops|, k)) == ChainAt(stops, k + 1)
      && ArrivedLog(env, call, DirOf(|stops|, k), stamp(k), entry) == LogAt(stops, stamp, entry, k + 1)
  {
  }

  /** The call visit k receives: the one visit k - 1 relays. */
  function Onward(stops: seq<Env>, stamp: nat -> Stamp, entry: EntryFn, k: nat, url: string, direction: string,
                  body: string, contentType: string): HopCall
  {
    CallHop(url, direction, body, ChainAt(stops, k), LogAt(stops, stamp, entry, k), contentType)
  }

  /** A relayed call carries its direction, chain and log on. */
  lemma RelayCarries(stops: seq<Env>, stamp: nat -> Stamp, entry: EntryFn, k: nat, url: string, direction: string, body: string, contentType: string)
    requires direction != ""
    ensures Carries(stops, stamp, entry, k, Onward(stops, stamp, entry, k, url, direction, body, contentType), direction)
    ensures Directed(Onward(stops, stamp, entry, k, url, direction, body, contentType), direction)
  {
  }

  /** A hop that relays answers with the response it gets back, when that
      has a body. */
  lemma RelayPassesBack(d: Decision, r: Response, crash: ErrorPage)
    requires d.action.Relay? && r.body.Some?
    ensures Finish(d, AsOutcome(Replied(r), crash)) == Replied(r)
  {
  }

  /** The answer hop 0 gives at the end of a journey of at least two
      hops, over the body the return leg carries. */
  function FinalAnswer(stops: seq<Env>, stamp: nat -> Stamp, entry: EntryFn, final: Answer, body: string): Response
    requires |stops| >= 1
  {
    final(stops[0], ChainAt(stops, 2 * |stops| - 1), LogAt(stops, stamp, entry, 2 * |stops| - 1), body)
  }

  // ---- One visit of a hop function that behaves like the worker

  /** Outward visit i, not the last: the hop relays the body on to the
      next hop. */
  lemma OnwardStep(stops: seq<Env>, i: nat, call: HopCall, stamp: nat -> Stamp, hop: Hop, entry: EntryFn)
    requires Linked(stops) && i + 1 < |stops|
    requires RelaysOnward(hop, entry)
    requires Carries(stops, stamp, entry, i, call, "forward")
    ensures hop(stops[i], Arrival(call, stamp(i)), stamp(i).now).action
         == Relay(Onward(stops, stamp, entry, i + 1, stops[i].nextHop, "forward", call.body, HeaderOr(call.headers, "content-type", TextUtf8)))
  {
    VisitExtends(stops, stamp, entry, i, call);
    assert Visited(hop, stops[i], call, stamp(i)).action.Relay?;
  }

  /** The last outward visit turns back: toward the previous hop, or, for a
      single hop, with its own answer. */
  lemma TurnStep(stops: seq<Env>, call: HopCall, stamp: nat -> Stamp, hop: Hop, entry: EntryFn, answer: Response, returned: string)
    requires Linked(stops)
    requires TurnsBack(hop, entry, answer, returned)
    requires Carries(stops, stamp, entry, |stops| - 1, call, "forward")
    ensures var i := |stops| - 1;
      var d := hop(stops[i], Arrival(call, stamp(i)), stamp(i).now);
      && (i > 0 ==> d.action == Relay(Onward(stops, stamp, entry, i + 1, stops[i].prevHop, "return", returned, JsonUtf8)))
      && (i == 0 ==> d.action == Respond(answer))
  {
    VisitExtends(stops, stamp, entry, |stops| - 1, call);
    assert Visited(hop, stops[|stops| - 1], call, stamp(|stops| - 1)).action.Relay?
        || Visited(hop, stops[|stops| - 1], call, stamp(|stops| - 1)).action.Respond?;
  }

  /** Return visit k (of hop 2n - 2 - k): the hop relays the body on
      toward the previous hop, or hop 0 answers. */
  lemma BackStep(stops: seq<Env>, k: nat, call: HopCall, stamp: nat -> Stamp, hop: Hop, entry: EntryFn, final: Answer)
    requires Linked(stops) && |stops| <= k < 2 * |stops| - 1
    requires RelaysBack(hop, entry, final)
    requires Carries(stops, stamp, entry, k, call, "return")
    ensures var env := stops[2 * |stops| - 2 - k];
      var d := hop(env, Arrival(call, stamp(k)), stamp(k).now);
      && (k + 1 < 2 * |stops| - 1 ==>
            d.action == Relay(Onward(stops, stamp, entry, k + 1, env.prevHop, "return", call.body, HeaderOr(call.headers, "content-type", JsonUtf8))))
      && (k + 1 == 2 * |stops| - 1 ==> d.action == Respond(FinalAnswer(stops, stamp, entry, final, call.body)))
  {
    VisitExtends(stops, stamp, entry, k, call);
    assert Visited(hop, stops[2 * |stops| - 2 - k], call, stamp(k)).action.Relay?
        || Visited(hop, stops[2 * |stops| - 2 - k], call, stamp(k)).action.Respond?;
  }

  // ---- Routes: the journey of any hop function, given what each visit decides

  /** Outward visits 0 .. n-2 each relay `calls(i + 1)` forward. */
  ghost predicate OutwardRoute(stops: seq<Env>, stamp: nat -> Stamp, hop: Hop, calls: nat -> HopCall)
  {
    forall i: nat {:trigger stamp(i)} :: i + 1 < |stops| ==>
      hop(stops[i], Arrival(calls(i), stamp(i)), stamp(i).now).action == Relay(calls(i + 1)) && Directed(calls(i + 1), "forward")
  }

  /** Return visit k, made by hop 2n-2-k and receiving `call`, relays
      `next` back. */
  ghost predicate ReturnRelaysAt(stops: seq<Env>, stamp: nat -> Stamp, hop: Hop, k: nat, call: HopCall, next: HopCall)
    requires |stops| <= k && k + 2 < 2 * |stops|
  {
    hop(stops[2 * |stops| - 2 - k], Arrival(call, stamp(k)), stamp(k).now).action == Relay(next)
    && Directed(next, "return")
  }

  /** Return visits n .. 2n-3 each relay `calls(k + 1)` back. */
  ghost predicate ReturnRelaysOn(stops: seq<Env>, stamp: nat -> Stamp, hop: Hop, calls: nat -> HopCall)
  {
    forall k: nat :: |stops| <= k && k + 2 < 2 * |stops| ==> ReturnRelaysAt(stops, stamp, hop, k, calls(k), calls(k + 1))
  }

  /** Return visits n .. 2n-3 each relay `calls(k + 1)` back, and the last
      one, made by hop 0, responds with `r`. */
  ghost predicate ReturnRoute(stops: seq<Env>, stamp: nat -> Stamp, hop: Hop, calls: nat -> HopCall, r: Response)
  {
    && |stops| >= 2
    && r.body.Some?
    && ReturnRelaysOn(stops, stamp, hop, calls)
    && hop(stops[0], Arrival(calls(2 * |stops| - 2), stamp(2 * |stops| - 2)), stamp(2 * |stops| - 2).now).action == Respond(r)
  }

  /** A journey that ends in `r`: the outward leg relays `out`; a single hop
      responds with `r`; the last of several relays `back(n)` back, and the
      return leg relays `back` until hop 0 responds with `r`. */
  ghost predicate Route(stops: seq<Env>, stamp: nat -> Stamp, hop: Hop, out: nat -> HopCall, back: nat -> HopCall, r: Response)
  {
    && |stops| >= 1
    && OutwardRoute(stops, stamp, hop, out)
    && (|stops| == 1 ==> hop(stops[0], Arrival(out(0), stamp(0)), stamp(0).now).action == Respond(r))
    && (|stops| >= 2 ==>
          && hop(stops[|stops| - 1], Arrival(out(|stops| - 1), stamp(|stops| - 1)), stamp(|stops| - 1).now).action == Relay(back(|stops|))
          && Directed(back(|stops|), "return")
          && ReturnRoute(stops, stamp, hop, back, r))
  }

  /** A journey whose last hop throws. */
  ghost predicate FailingRoute(stops: seq<Env>, stamp: nat -> Stamp, hop: Hop, out: nat -> HopCall)
  {
    && |stops| >= 1
    && OutwardRoute(stops, stamp, hop, out)
    && hop(stops[|stops| - 1], Arrival(out(|stops| - 1), stamp(|stops| - 1)), stamp(|stops| - 1).now).action == Throw
  }

  /** An outward visit that relays forward replies with what the next
      visit replies. */
  lemma OutRelayed(stops: seq<Env>, i: nat, call: HopCall, next: HopCall, stamp: nat -> Stamp, hop: Hop)
    requires Linked(stops) && i + 1 < |stops|
    requires hop(stops[i], Arrival(call, stamp(i)), stamp(i).now).action == Relay(next)
    requires Directed(next, "forward")
    ensures Out(stops, i, call, stamp, hop)
         == Finish(hop(stops[i], Arrival(call, stamp(i)), stamp(i).now), AsOutcome(Out(stops, i + 1, next, stamp, hop), stamp(i + 1).crash))
  {
  }

  /** The last outward visit of several, relaying back, replies with what
      the first return visit replies. */
  lemma OutTurned(stops: seq<Env>, call: HopCall, next: HopCall, stamp: nat -> Stamp, hop: Hop)
    requires Linked(stops) && |stops| >= 2
    requires hop(stops[|stops| - 1], Arrival(call, stamp(|stops| - 1)), stamp(|stops| - 1).now).action == Relay(next)
    requires Directed(next, "return")
    ensures Out(stops, |stops| - 1, call, stamp, hop)
         == Finish(hop(stops[|stops| - 1], Arrival(call, stamp(|stops| - 1)), stamp(|stops| - 1).now),
                   AsOutcome(Back(stops, |stops|, next, stamp, hop), stamp(|stops|).crash))
  {
    assert 2 * |stops| - 1 - (|stops| - 1) == |stops|;
  }

  /** An outward visit that responds or throws ends there. */
  lemma OutSettled(stops: seq<Env>, i: nat, call: HopCall, stamp: nat -> Stamp, hop: Hop)
    requires Linked(stops) && i < |stops|
    ensures var d := hop(stops[i], Arrival(call, stamp(i)), stamp(i).now);
      && (d.action.Respond? ==> Out(stops, i, call, stamp, hop) == Replied(d.action.response))
      && (d.action.Throw? ==> Out(stops, i, call, stamp, hop) == Failed)
  {
  }

  /** A return visit that relays on replies with what the next return
      visit replies. */
  lemma BackRelayed(stops: seq<Env>, k: nat, call: HopCall, next: HopCall, stamp: nat -> Stamp, hop: Hop)
    requires Linked(stops) && |stops| <= k && k + 1 < 2 * |stops| - 1
    requires hop(stops[2 * |stops| - 2 - k], Arrival(call, stamp(k)), stamp(k).now).action == Relay(next)
    requires Directed(next, "return")
    ensures Back(stops, k, call, stamp, hop)
         == Finish(hop(stops[2 * |stops| - 2 - k], Arrival(call, stamp(k)), stamp(k).now), AsOutcome(Back(stops, k + 1, next, stamp, hop), stamp(k + 1).crash))
  {
  }

  /** The last return visit replies with what hop 0 responds. */
  lemma BackAnswered(stops: seq<Env>, k: nat, call: HopCall, stamp: nat -> Stamp, hop: Hop, r: Response)
    requires Linked(stops) && |stops| <= k && k + 1 == 2 * |stops| - 1
    requires hop(stops[0], Arrival(call, stamp(k)), stamp(k).now).action == Respond(r)
    ensures Back(stops, k, call, stamp, hop) == Replied(r)
  {
  }

  /** Along a return route every return visit replies with hop 0's answer. */
  lemma {:induction false} BackRoute(stops: seq<Env>, k: nat, stamp: nat -> Stamp, hop: Hop, calls: nat -> HopCall, r: Response)
    requires Linked(stops) && |stops| <= k < 2 * |stops| - 1
    requires ReturnRoute(stops, stamp, hop, calls, r)
    ensures Back(stops, k, calls(k), stamp, hop) == Replied(r)
    decreases 2 * |stops| - 1 - k
  {
    var d := hop(stops[2 * |stops| - 2 - k], Arrival(calls(k), stamp(k)), stamp(k).now);
    if k + 1 < 2 * |stops| - 1 {
      BackRoute(stops, k + 1, stamp, hop, calls, r);
      assert ReturnRelaysAt(stops, stamp, hop, k, calls(k), calls(k + 1));
      BackRelayed(stops, k, calls(k), calls(k + 1), stamp, hop);
      RelayPassesBack(d, r, stamp(k + 1).crash);
    } else {
      assert k == 2 * |stops| - 2;
      BackAnswered(stops, k, calls(k), stamp, hop, r);
    }
  }

  /** Along a route every outward visit replies with the journey's answer. */
  lemma {:induction false} OutRoute(stops: seq<Env>, i: nat, stamp: nat -> Stamp, hop: Hop,
                                    out: nat -> HopCall, back: nat -> HopCall, r: Response)
    requires Linked(stops) && i < |stops|
    requires Route(stops, stamp, hop, out, back, r)
    ensures Out(stops, i, out(i), stamp, hop) == Replied(r)
    decreases |stops| - i
  {
    var d := hop(stops[i], Arrival(out(i), stamp(i)), stamp(i).now);
    if i + 1 < |stops| {
      OutRoute(stops, i + 1, stamp, hop, out, back, r);
      OutRelayed(stops, i, out(i), out(i + 1), stamp, hop);
      RelayPassesBack(d, r, stamp(i + 1).crash);
    } else if |stops| >= 2 {
      assert i == |stops| - 1;
      BackRoute(stops, |stops|, stamp, hop, back, r);
      OutTurned(stops, out(i), back(|stops|), stamp, hop);
      RelayPassesBack(d, r, stamp(|stops|).crash);
    } else {
      OutSettled(stops, i, out(i), stamp, hop);
    }
  }

  /** The reply a relaying visit gets when the last hop's invocation throws:
      the error page the platform answers that invocation's request with. */
  function CrashReply(stops: seq<Env>, stamp: nat -> Stamp): Response
    requires |stops| >= 1
  {
    var c := stamp(|stops| - 1).crash;
    Response(c.status, c.headers, Some(c.body))
  }

  /** Along a failing route the last visit fails, and every earlier one
      passes back unchanged the error page the platform sent in its place. */
  lemma {:induction false} OutRouteFails(stops: seq<Env>, i: nat, stamp: nat -> Stamp, hop: Hop, out: nat -> HopCall)
    requires Linked(stops) && i < |stops|
    requires FailingRoute(stops, stamp, hop, out)
    ensures i + 1 == |stops| ==> Out(stops, i, out(i), stamp, hop) == Failed
    ensures i + 1 < |stops| ==> Out(stops, i, out(i), stamp, hop) == Replied(CrashReply(stops, stamp))
    decreases |stops| - i
  {
    var d := hop(stops[i], Arrival(out(i), stamp(i)), stamp(i).now);
    if i + 1 < |stops| {
      OutRouteFails(stops, i + 1, stamp, hop, out);
      OutRelayed(stops, i, out(i), out(i + 1), stamp, hop);
      if i + 2 < |stops| {
        RelayPassesBack(d, CrashReply(stops, stamp), stamp(i + 1).crash);
      } else {
        assert i + 1 == |stops| - 1;
      }
    } else {
      assert i == |stops| - 1;
      OutSettled(stops, i, out(i), stamp, hop);
    }
  }

  // ---- The route of a hop function that behaves like the worker

  /** The call outward visit i receives: the client's call, then what the
      hop before relays forward. */
  function OutwardCall(stops: seq<Env>, stamp: nat -> Stamp, entry: EntryFn, client: HopCall, i: nat): HopCall
  {
    if i == 0 || i >= |stops| then client
    else Onward(stops, stamp, entry, i, stops[i - 1].nextHop, "forward", client.body, HeaderOr(client.headers, "content-type", TextUtf8))
  }

  function OutwardCalls(stops: seq<Env>, stamp: nat -> Stamp, entry: EntryFn, client: HopCall): nat -> HopCall
  {
    (i: nat) => OutwardCall(stops, stamp, entry, client, i)
  }

  /** The call return visit k receives (n <= k < 2n - 1): what hop
      2n - 1 - k, the one after the visiting hop, relays back. */
  function ReturnCall(stops: seq<Env>, stamp: nat -> Stamp, entry: EntryFn, returned: string, k: nat): HopCall
  {
    if k < |stops| || k + 1 >= 2 * |stops| then HopCall("", map[], returned)
    else Onward(stops, stamp, entry, k, stops[2 * |stops| - 1 - k].prevHop, "return", returned, JsonUtf8)
  }

  function ReturnCalls(stops: seq<Env>, stamp: nat -> Stamp, entry: EntryFn, returned: string): nat -> HopCall
  {
    (k: nat) => ReturnCall(stops, stamp, entry, returned, k)
  }

  /** The return calls, applied to k, are return call k. */
  lemma ReturnCallsAt(stops: seq<Env>, stamp: nat -> Stamp, entry: EntryFn, returned: string, k: nat)
    ensures ReturnCalls(stops, stamp, entry, returned)(k) == ReturnCall(stops, stamp, entry, returned, k)
  {
  }

  /** A relayed call names the content type it was given. */
  lemma OnwardContentType(stops: seq<Env>, stamp: nat -> Stamp, entry: EntryFn, k: nat, url: string, direction: string,
                          body: string, contentType: string, dflt: string)
    requires contentType != ""
    ensures HeaderOr(Onward(stops, stamp, entry, k, url, direction, body, contentType).headers, "content-type", dflt) == contentType
  {
  }

  /** Outward visit i of a journey that started fresh carries what it
      should. */
  lemma OutwardCarries(stops: seq<Env>, stamp: nat -> Stamp, entry: EntryFn, client: HopCall, i: nat)
    requires Linked(stops) && i < |stops|
    requires Carries(stops, stamp, entry, 0, client, "forward")
    ensures Carries(stops, stamp, entry, i, OutwardCall(stops, stamp, entry, client, i), "forward")
    ensures i > 0 ==> Directed(OutwardCall(stops, stamp, entry, client, i), "forward")
    ensures OutwardCall(stops, stamp, entry, client, i).body == client.body
    ensures HeaderOr(OutwardCall(stops, stamp, entry, client, i).headers, "content-type", TextUtf8)
         == HeaderOr(client.headers, "content-type", TextUtf8)
  {
    if i > 0 {
      var ct := HeaderOr(client.headers, "content-type", TextUtf8);
      RelayCarries(stops, stamp, entry, i, stops[i - 1].nextHop, "forward", client.body, ct);
      OnwardContentType(stops, stamp, entry, i, stops[i - 1].nextHop, "forward", client.body, ct, TextUtf8);
    }
  }

  /** The outward leg of a hop function that relays like the worker. */
  lemma OutwardRouted(stops: seq<Env>, stamp: nat -> Stamp, hop: Hop, entry: EntryFn, client: HopCall)
    requires Linked(stops) && RelaysOnward(hop, entry)
    requires Carries(stops, stamp, entry, 0, client, "forward")
    ensures OutwardRoute(stops, stamp, hop, OutwardCalls(stops, stamp, entry, client))
  {
    var out := OutwardCalls(stops, stamp, entry, client);
    forall i: nat {:trigger stamp(i)} | i + 1 < |stops|
      ensures hop(stops[i], Arrival(out(i), stamp(i)), stamp(i).now).action == Relay(out(i + 1)) && Directed(out(i + 1), "forward")
    {
      OutwardRelays(stops, stamp, hop, entry, client, i);
    }
  }

  /** Outward visit i, not the last, relays the call outward visit i + 1
      receives. */
  lemma OutwardRelays(stops: seq<Env>, stamp: nat -> Stamp, hop: Hop, entry: EntryFn, client: HopCall, i: nat)
    requires Linked(stops) && i + 1 < |stops| && RelaysOnward(hop, entry)
    requires Carries(stops, stamp, entry, 0, client, "forward")
    ensures var out := OutwardCalls(stops, stamp, entry, client);
      hop(stops[i], Arrival(out(i), stamp(i)), stamp(i).now).action == Relay(out(i + 1)) && Directed(out(i + 1), "forward")
  {
    var call := OutwardCall(stops, stamp, entry, client, i);
    OutwardCarries(stops, stamp, entry, client, i);
    OutwardCarries(stops, stamp, entry, client, i + 1);
    OnwardStep(stops, i, call, stamp, hop, entry);
    assert stops[i + 1 - 1] == stops[i];
  }

  /** Return visit k of a hop function that relays back like the worker
      carries what it should. */
  lemma ReturnCarries(stops: seq<Env>, stamp: nat -> Stamp, entry: EntryFn, returned: string, k: nat)
    requires |stops| <= k && k + 1 < 2 * |stops|
    ensures Carries(stops, stamp, entry, k, ReturnCall(stops, stamp, entry, returned, k), "return")
    ensures Directed(ReturnCall(stops, stamp, entry, returned, k), "return")
    ensures ReturnCall(stops, stamp, entry, returned, k).body == returned
    ensures HeaderOr(ReturnCall(stops, stamp, entry, returned, k).headers, "content-type", JsonUtf8) == JsonUtf8
  {
    RelayCarries(stops, stamp, entry, k, stops[2 * |stops| - 1 - k].prevHop, "return", returned, JsonUtf8);
    OnwardContentType(stops, stamp, entry, k, stops[2 * |stops| - 1 - k].prevHop, "return", returned, JsonUtf8, JsonUtf8);
  }

  /** The return leg of a hop function that relays back like the worker. */
  lemma ReturnRouted(stops: seq<Env>, stamp: nat -> Stamp, hop: Hop, entry: EntryFn, final: Answer, returned: string)
    requires Linked(stops) && |stops| >= 2
    requires RelaysBack(hop, entry, final) && Bodied(final)
    ensures ReturnRoute(stops, stamp, hop, ReturnCalls(stops, stamp, entry, returned), FinalAnswer(stops, stamp, entry, final, returned))
  {
    ReturnLegRelays(stops, stamp, hop, entry, final, returned);
    ReturnAnswers(stops, stamp, hop, entry, final, returned);
  }

  /** Every return visit but the last relays back like the worker. */
  lemma ReturnLegRelays(stops: seq<Env>, stamp: nat -> Stamp, hop: Hop, entry: EntryFn, final: Answer, returned: string)
    requires Linked(stops) && RelaysBack(hop, entry, final)
    ensures ReturnRelaysOn(stops, stamp, hop, ReturnCalls(stops, stamp, entry, returned))
  {
    forall k: nat | |stops| <= k && k + 2 < 2 * |stops|
      ensures ReturnRelaysAt(stops, stamp, hop, k, ReturnCall(stops, stamp, entry, returned, k), ReturnCall(stops, stamp, entry, returned, k + 1))
    {
      ReturnRelays(stops, stamp, hop, entry, final, returned, k);
    }
    ReturnCallsRelay(stops, stamp, hop, entry, returned);
  }

  /** Return calls that relay one another make a return leg of relays. */
  lemma ReturnCallsRelay(stops: seq<Env>, stamp: nat -> Stamp, hop: Hop, entry: EntryFn, returned: string)
    requires forall k: nat :: |stops| <= k && k + 2 < 2 * |stops| ==>
      ReturnRelaysAt(stops, stamp, hop, k, ReturnCall(stops, stamp, entry, returned, k), ReturnCall(stops, stamp, entry, returned, k + 1))
    ensures ReturnRelaysOn(stops, stamp, hop, ReturnCalls(stops, stamp, entry, returned))
  {
    var back := ReturnCalls(stops, stamp, entry, returned);
    forall k: nat | |stops| <= k && k + 2 < 2 * |stops|
      ensures ReturnRelaysAt(stops, stamp, hop, k, back(k), back(k + 1))
    {
      ReturnCallsAt(stops, stamp, entry, returned, k);
      ReturnCallsAt(stops, stamp, entry, returned, k + 1);
    }
  }

  /** The last return visit, made by hop 0, answers with `final`. */
  lemma ReturnAnswers(stops: seq<Env>, stamp: nat -> Stamp, hop: Hop, entry: EntryFn, final: Answer, returned: string)
    requires Linked(stops) && |stops| >= 2
    requires RelaysBack(hop, entry, final)
    ensures var back := ReturnCalls(stops, stamp, entry, returned);
      var last := 2 * |stops| - 2;
      hop(stops[0], Arrival(back(last), stamp(last)), stamp(last).now).action == Respond(FinalAnswer(stops, stamp, entry, final, returned))
  {
    var last := 2 * |stops| - 2;
    ReturnCarries(stops, stamp, entry, returned, last);
    BackStep(stops, last, ReturnCall(stops, stamp, entry, returned, last), stamp, hop, entry, final);
  }

  /** Return visit k, not the last, relays the call return visit k + 1
      receives. */
  lemma ReturnRelays(stops: seq<Env>, stamp: nat -> Stamp, hop: Hop, entry: EntryFn, final: Answer, returned: string, k: nat)
    requires Linked(stops) && |stops| <= k && k + 2 < 2 * |stops|
    requires RelaysBack(hop, entry, final)
    ensures ReturnRelaysAt(stops, stamp, hop, k, ReturnCall(stops, stamp, entry, returned, k), ReturnCall(stops, stamp, entry, returned, k + 1))
  {
    var call := ReturnCall(stops, stamp, entry, returned, k);
    ReturnCarries(stops, stamp, entry, returned, k);
    BackStep(stops, k, call, stamp, hop, entry, final);
    ReturnNext(stops, stamp, entry, returned, k);
  }

  /** What return visit k relays is the call return visit k + 1 receives. */
  lemma ReturnNext(stops: seq<Env>, stamp: nat -> Stamp, entry: EntryFn, returned: string, k: nat)
    requires |stops| <= k && k + 2 < 2 * |stops|
    ensures ReturnCall(stops, stamp, entry, returned, k + 1)
         == Onward(stops, stamp, entry, k + 1, stops[2 * |stops| - 2 - k].prevHop, "return", returned, JsonUtf8)
    ensures Directed(ReturnCall(stops, stamp, entry, returned, k + 1), "return")
  {
    assert stops[2 * |stops| - 1 - (k + 1)] == stops[2 * |stops| - 2 - k];
    RelayCarries(stops, stamp, entry, k + 1, stops[2 * |stops| - 2 - k].prevHop, "return", returned, JsonUtf8);
  }

  /** The turn of a hop function that turns back like the worker. */
  lemma TurnRouted(stops: seq<Env>, stamp: nat -> Stamp, hop: Hop, entry: EntryFn, client: HopCall, answer: Response, returned: string)
    requires Linked(stops) && TurnsBack(hop, entry, answer, returned)
    requires Carries(stops, stamp, entry, 0, client, "forward")
    ensures var i := |stops| - 1;
      var out := OutwardCalls(stops, stamp, entry, client);
      var back := ReturnCalls(stops, stamp, entry, returned);
      && (|stops| == 1 ==> hop(stops[i], Arrival(out(i), stamp(i)), stamp(i).now).action == Respond(answer))
      && (|stops| >= 2 ==> hop(stops[i], Arrival(out(i), stamp(i)), stamp(i).now).action == Relay(back(|stops|)) && Directed(back(|stops|), "return"))
  {
    var i := |stops| - 1;
    var call := OutwardCall(stops, stamp, entry, client, i);
    OutwardCarries(stops, stamp, entry, client, i);
    TurnStep(stops, call, stamp, hop, entry, answer, returned);
    if |stops| >= 2 {
      ReturnCarries(stops, stamp, entry, returned, |stops|);
      assert stops[2 * |stops| - 1 - |stops|] == stops[i];
      assert i + 1 == |stops|;
    }
  }

  /** A hop function that behaves like the worker, given a client call
      carrying no visits, ends the journey in hop 0's answer to what the
      last hop relays back (two or more hops) or in the last hop's own
      answer (one hop). */
  lemma WorkerLikeJourney(stops: seq<Env>, client: HopCall, stamp: nat -> Stamp, hop: Hop, entry: EntryFn,
                          final: Answer, answer: Response, returned: string)
    requires Linked(stops)
    requires RelaysOnward(hop, entry) && TurnsBack(hop, entry, answer, returned)
    requires RelaysBack(hop, entry, final) && Bodied(final)
    requires Carries(stops, stamp, entry, 0, client, "forward")
    ensures |stops| >= 2 ==> Out(stops, 0, client, stamp, hop) == Replied(FinalAnswer(stops, stamp, entry, final, returned))
    ensures |stops| == 1 ==> Out(stops, 0, client, stamp, hop) == Replied(answer)
  {
    var out := OutwardCalls(stops, stamp, entry, client);
    var back := ReturnCalls(stops, stamp, entry, returned);
    var r := if |stops| == 1 then answer else FinalAnswer(stops, stamp, entry, final, returned);
    OutwardRouted(stops, stamp, hop, entry, client);
    TurnRouted(stops, stamp, hop, entry, client, answer, returned);
    if |stops| >= 2 {
      ReturnRouted(stops, stamp, hop, entry, final, returned);
    }
    assert Route(stops, stamp, hop, out, back, r);
    OutRoute(stops, 0, stamp, hop, out, back, r);
    assert out(0) == client;
  }

  /** A hop function that relays like the worker and throws at the turn
      fails with one hop; with more, the client gets the error page the
      platform sent for the last hop, passed back unchanged. */
  lemma WorkerLikeFailure(stops: seq<Env>, client: HopCall, stamp: nat -> Stamp, hop: Hop, entry: EntryFn)
    requires Linked(stops)
    requires RelaysOnward(hop, entry) && ThrowsAtTurn(hop)
    requires Carries(stops, stamp, entry, 0, client, "forward")
    ensures |stops| == 1 ==> Out(stops, 0, client, stamp, hop) == Failed
    ensures |stops| >= 2 ==> Out(stops, 0, client, stamp, hop) == Replied(CrashReply(stops, stamp))
  {
    var out := OutwardCalls(stops, stamp, entry, client);
    var i := |stops| - 1;
    OutwardRouted(stops, stamp, hop, entry, client);
    OutwardCarries(stops, stamp, entry, client, i);
    assert Visited(hop, stops[i], out(i), stamp(i)).action == Throw;
    OutRouteFails(stops, 0, stamp, hop, out);
    assert out(0) == client;
  }

  // ---- The worker's journey

  /** The first m values of f. */
  function Prefix(f: nat -> string, m: nat): (r: seq<string>)
    ensures |r| == m
  {
    if m == 0 then [] else Prefix(f, m - 1) + [f(m - 1)]
  }

  /** Value k of a prefix is f(k). */
  lemma {:induction false} PrefixAt(f: nat -> string, m: nat, k: nat)
    requires k < m
    ensures Prefix(f, m)[k] == f(k)
  {
    if k < m - 1 {
      PrefixAt(f, m - 1, k);
    }
  }

  /** The chain entry of visit k. */
  function ChainEntry(stops: seq<Env>, k: nat): string
    requires |stops| >= 1 && k < 2 * |stops| - 1
  {
    Label(HopName(stops[HopOf(|stops|, k)]), DirOf(|stops|, k))
  }

  /** The chain entry of every visit of the journey. */
  function ChainEntryOf(stops: seq<Env>): nat -> string
  {
    (k: nat) => if |stops| >= 1 && k < 2 * |stops| - 1 then ChainEntry(stops, k) else ""
  }

  /** The chain entries of the first m visits. */
  function ChainEntries(stops: seq<Env>, m: nat): (r: seq<string>)
    ensures |r| == m
  {
    Prefix(ChainEntryOf(stops), m)
  }

  /** The log entry of visit k. */
  function LogEntry(stops: seq<Env>, stamp: nat -> Stamp, entry: EntryFn, k: nat): string
    requires |stops| >= 1 && k < 2 * |stops| - 1
  {
    entry(HopName(stops[HopOf(|stops|, k)]), DirOf(|stops|, k), stamp(k))
  }

  /** The log entry of every visit of the journey. */
  function LogEntryOf(stops: seq<Env>, stamp: nat -> Stamp, entry: EntryFn): nat -> string
  {
    (k: nat) => if |stops| >= 1 && k < 2 * |stops| - 1 then LogEntry(stops, stamp, entry, k) else ""
  }

  /** The log entries of the first m visits. */
  function LogEntries(stops: seq<Env>, stamp: nat -> Stamp, entry: EntryFn, m: nat): (r: seq<string>)
    ensures |r| == m
  {
    Prefix(LogEntryOf(stops, stamp, entry), m)
  }

  /** Chain entry k of a prefix is the entry of visit k. */
  lemma ChainEntriesAt(stops: seq<Env>, m: nat, k: nat)
    requires |stops| >= 1 && k < m <= 2 * |stops| - 1
    ensures ChainEntries(stops, m)[k] == ChainEntry(stops, k)
  {
    PrefixAt(ChainEntryOf(stops), m, k);
  }

  /** Log entry k of a prefix is the entry of visit k. */
  lemma LogEntriesAt(stops: seq<Env>, stamp: nat -> Stamp, entry: EntryFn, m: nat, k: nat)
    requires |stops| >= 1 && k < m <= 2 * |stops| - 1
    ensures LogEntries(stops, stamp, entry, m)[k] == LogEntry(stops, stamp, entry, k)
  {
    PrefixAt(LogEntryOf(stops, stamp, entry), m, k);
  }

  /** The chain after m visits lists their entries, joined by the
      separator. */
  lemma {:induction false} ChainAtText(stops: seq<Env>, m: nat)
    requires |stops| >= 1 && m <= 2 * |stops| - 1
    ensures ChainAt(stops, m) == ChainText(ChainEntries(stops, m))
    decreases m
  {
    if m == 0 {
      assert ChainEntries(stops, 0) == [];
    } else {
      ChainAtText(stops, m - 1);
      if m - 1 > 0 {
        ChainEntriesAt(stops, m - 1, 0);
      }
      var name := HopName(stops[HopOf(|stops|, m - 1)]);
      assert ChainEntries(stops, m) == ChainEntries(stops, m - 1) + [Label(name, DirOf(|stops|, m - 1))];
      ChainGrowsByOne(ChainEntries(stops, m - 1), name, DirOf(|stops|, m - 1));
    }
  }

  /** The log after m visits lists their entries, one per line, when no
      entry is empty. */
  lemma {:induction false} LogAtText(stops: seq<Env>, stamp: nat -> Stamp, entry: EntryFn, m: nat)
    requires |stops| >= 1 && m <= 2 * |stops| - 1 && Nonblank(entry)
    ensures LogAt(stops, stamp, entry, m) == LogText(LogEntries(stops, stamp, entry, m))
    decreases m
  {
    if m == 0 {
      assert LogEntries(stops, stamp, entry, 0) == [];
    } else {
      LogAtText(stops, stamp, entry, m - 1);
      LogEntriesGrow(stops, stamp, entry, m);
      LogGrowsByOne(LogEntries(stops, stamp, entry, m - 1), LogEntry(stops, stamp, entry, m - 1));
    }
  }

  /** The log entries of m visits are those of m - 1 and one more, and the
      first of them is not empty. */
  lemma LogEntriesGrow(stops: seq<Env>, stamp: nat -> Stamp, entry: EntryFn, m: nat)
    requires |stops| >= 1 && 0 < m <= 2 * |stops| - 1 && Nonblank(entry)
    ensures LogEntries(stops, stamp, entry, m) == LogEntries(stops, stamp, entry, m - 1) + [LogEntry(stops, stamp, entry, m - 1)]
    ensures LogEntries(stops, stamp, entry, m - 1) == [] || LogEntries(stops, stamp, entry, m - 1)[0] != ""
  {
    if m - 1 > 0 {
      LogEntriesAt(stops, stamp, entry, m - 1, 0);
    }
  }

  /** The summary the worker's hop 0 gives at the end of a journey of two
      or more hops: its chain lists every visit, its log every visit's
      entry. */
  function FinalSummary(stops: seq<Env>, stamp: nat -> Stamp, body: string, parse: Parser): Response
    requires |stops| >= 1
  {
    var m := 2 * |stops| - 1;
    Summary(Visit(HopName(stops[0]), "return", ChainText(ChainEntries(stops, m)), LogText(LogEntries(stops, stamp, WorkerEntry(), m))), body, parse)
  }

  /** A client call that starts a journey: no chain or log, and the
      direction absent or "forward". */
  predicate Fresh(client: HopCall)
  {
    && Heading(client, "forward")
    && HeaderOr(client.headers, "x-hop-chain", "") == ""
    && HeaderOr(client.headers, "x-hop-log", "") == ""
  }

  /** The outcome of a journey whose generation call resolves: with one hop
      that hop's own answer, with more the summary at hop 0 of what the
      last hop relays back. */
  lemma JourneyOutcome(stops: seq<Env>, client: HopCall, stamp: nat -> Stamp, parse: Parser, gen: Outcome)
    requires Linked(stops) && Fresh(client) && gen.Resp?
    ensures |stops| == 1 ==>
      Journey(stops, client, stamp, parse, gen) == Replied(GenerationAnswer(gen.status, gen.body))
    ensures |stops| >= 2 ==>
      Journey(stops, client, stamp, parse, gen) == Replied(FinalSummary(stops, stamp, GenerationBody(gen.status, gen.body), parse))
  {
    WorkerRelaysOnward(parse, gen);
    WorkerTurnsBack(parse, gen);
    WorkerRelaysBack(parse, gen);
    WorkerBodied(parse);
    WorkerLikeJourney(stops, client, stamp, Invocation(parse, gen), WorkerEntry(), WorkerAnswer(parse),
                      GenerationAnswer(gen.status, gen.body), GenerationBody(gen.status, gen.body));
    FinalAnswerIsSummary(stops, stamp, GenerationBody(gen.status, gen.body), parse);
  }

  /** The worker's answer at the end of the return leg is the summary of
      every visit. */
  lemma FinalAnswerIsSummary(stops: seq<Env>, stamp: nat -> Stamp, body: string, parse: Parser)
    requires |stops| >= 1
    ensures FinalAnswer(stops, stamp, WorkerEntry(), WorkerAnswer(parse), body) == FinalSummary(stops, stamp, body, parse)
  {
    WorkerNonblank();
    ChainAtText(stops, 2 * |stops| - 1);
    LogAtText(stops, stamp, WorkerEntry(), 2 * |stops| - 1);
  }

  /** A rejected generation call ends the journey in an uncaught exception
      (one hop), or in the error page the platform sends for the last hop,
      passed back unchanged along the outward leg. */
  lemma JourneyOfRejectedGeneration(stops: seq<Env>, client: HopCall, stamp: nat -> Stamp, parse: Parser, gen: Outcome)
    requires Linked(stops) && Fresh(client) && gen.TransportError?
    ensures |stops| == 1 ==> Journey(stops, client, stamp, parse, gen) == Failed
    ensures |stops| >= 2 ==> Journey(stops, client, stamp, parse, gen) == Replied(CrashReply(stops, stamp))
  {
    WorkerRelaysOnward(parse, gen);
    WorkerThrowsAtTurn(parse, gen);
    WorkerLikeFailure(stops, client, stamp, Invocation(parse, gen), WorkerEntry());
  }

  /** The final chain names every visit: hops 0 .. n-1 forward, then
      n-2 .. 0 returning, 2n - 1 entries in all. */
  lemma FinalChainEntries(stops: seq<Env>, k: nat)
    requires |stops| >= 1 && k < 2 * |stops| - 1
    ensures var e := ChainEntries(stops, 2 * |stops| - 1);
      |e| == 2 * |stops| - 1
      && (k < |stops| ==> e[k] == Label(HopName(stops[k]), "forward"))
      && (k >= |stops| ==> e[k] == Label(HopName(stops[2 * |stops| - 2 - k]), "return"))
  {
    ChainEntriesAt(stops, 2 * |stops| - 1, k);
  }

  /** The summary lists the log lines of the journey, one per visit in
      visit order, each parsed. */
  lemma FinalLogRecords(stops: seq<Env>, stamp: nat -> Stamp, parse: Parser)
    requires |stops| >= 1
    ensures var e := LogEntries(stops, stamp, WorkerEntry(), 2 * |stops| - 1);
      && (forall k :: 0 <= k < |e| ==> e[k] == VisitEntry(HopName(stops[HopOf(|stops|, k)]), DirOf(|stops|, k), stamp(k)))
      && LogRecords(LogText(e), parse) == seq(|e|, k requires 0 <= k < |e| => ParseOrRaw(parse, e[k]))
  {
    var e := LogEntries(stops, stamp, WorkerEntry(), 2 * |stops| - 1);
    forall k | 0 <= k < |e|
      ensures e[k] == VisitEntry(HopName(stops[HopOf(|stops|, k)]), DirOf(|stops|, k), stamp(k))
      ensures '\n' !in e[k] && e[k] != ""
    {
      LogEntriesAt(stops, stamp, WorkerEntry(), |e|, k);
      var st := stamp(k);
      LogEntryShape(HopName(stops[HopOf(|stops|, k)]), DirOf(|stops|, k), st.now,
                    Request("POST", "/api/hop", map["cf-connecting-ip" := st.ip], "", st.cf));
    }
    SplitJoin(e, '\n');
    assert LogLines(LogText(e)) == e;
  }
}
