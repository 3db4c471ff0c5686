/** The outside world the client talks to, as an oracle: the clock, the
    scripted replies of the API server and of the token endpoint, and the
    log of what the client did (slept, checked its token, sent a request). */
module Net {
  import opened Base
  import opened Json

  /** A non-negative duration in seconds. */
  type Seconds = r: real | 0.0 <= r

  /** `X-LS-API-Bucket-Level`: the raw `"requested/total"` text, and the two numbers
      when splitting on `/` and `float()` succeed. */
  datatype LevelHeader = LevelHeader(raw: string, split: Option<(real, real)>)

  /** The two rate-limit headers; a missing (or unparseable drip-rate) header is None. */
  datatype Headers = Headers(bucketLevel: Option<LevelHeader>, dripRate: Option<real>)

  /** What `session.request` does: answer with a status, headers and a body (None when
      the body is not JSON), or raise. `httpError` tells whether the exception is an
      `HTTPError`, the only kind the client catches. */
  datatype Reply =
    | Response(status: int, headers: Headers, body: Option<Json>)
    | TransportError(httpError: bool, message: string)

  /** One scripted request: how long it takes and what comes back. */
  datatype Exchange = Exchange(latency: Seconds, reply: Reply)

  /** The token endpoint's answer: unreachable or unparseable, or a JSON object with
      some of `expires_in`, `access_token` and `refresh_token`. */
  datatype TokenAnswer =
    | Unreachable
    | Answered(expiresIn: Option<int>, accessToken: Option<string>, refreshToken: Option<string>)

  datatype TokenReply = TokenReply(latency: Seconds, answer: TokenAnswer)

  /** The clock reading and the replies still to come. */
  datatype World = World(clock: real, exchanges: seq<Exchange>, refreshes: seq<TokenReply>)

  /** What the client does to the world, in order. */
  datatype Effect =
    | Slept(seconds: real)
    | TokenCheck(at: real, refreshed: bool)
    | Sent(verb: string, target: Json, body: Option<Json>)

  /** Once the script is used up, every further request fails to connect. */
  const Exhausted: Reply := TransportError(false, "connection refused")

  predicate TooManyRequests(r: Reply)
  {
    r.Response? && r.status == 429
  }

  /** The statuses `raise_for_status` raises on. */
  predicate ErrorStatus(r: Reply)
  {
    r.Response? && 400 <= r.status < 600
  }

  datatype Delivered = Delivered(reply: Reply, world: World)

  /** Sends one request: the next scripted reply arrives after its latency. */
  function Send(w: World): (d: Delivered)
    ensures w.exchanges != [] ==> d.reply == w.exchanges[0].reply && d.world.exchanges == w.exchanges[1..]
    ensures w.exchanges == [] ==> d == Delivered(Exhausted, w)
    ensures d.world.refreshes == w.refreshes && d.world.clock >= w.clock
  {
    if w.exchanges == [] then Delivered(Exhausted, w)
    else Delivered(w.exchanges[0].reply, w.(clock := w.clock + w.exchanges[0].latency, exchanges := w.exchanges[1..]))
  }

  datatype Fetched = Fetched(answer: TokenAnswer, world: World)

  /** Posts to the token endpoint: the next scripted answer arrives after its latency. */
  function FetchToken(w: World): (f: Fetched)
    ensures w.refreshes != [] ==> f.answer == w.refreshes[0].answer && f.world.refreshes == w.refreshes[1..]
    ensures w.refreshes == [] ==> f == Fetched(Unreachable, w)
    ensures f.world.exchanges == w.exchanges && f.world.clock >= w.clock
  {
    if w.refreshes == [] then Fetched(Unreachable, w)
    else Fetched(w.refreshes[0].answer, w.(clock := w.clock + w.refreshes[0].latency, refreshes := w.refreshes[1..]))
  }

  /** `time.sleep(seconds)`. */
  function Sleep(w: World, seconds: real): World
  {
    w.(clock := w.clock + seconds)
  }

  /** The requests in a log, in order. */
  function Requests(effects: seq<Effect>): (r: seq<Effect>)
    ensures |r| <= |effects|
    ensures forall e | e in r :: e.Sent? && e in effects
  {
    if effects == [] then []
    else (if effects[0].Sent? then [effects[0]] else []) + Requests(effects[1..])
  }

  lemma {:induction false} RequestsAppend(a: seq<Effect>, b: seq<Effect>)
    ensures Requests(a + b) == Requests(a) + Requests(b)
  {
    if a == [] {
      assert a + b == b;
    } else {
      assert (a + b)[1..] == a[1..] + b;
      RequestsAppend(a[1..], b);
    }
  }

  /** `n` copies of one entry. */
  function Copies(e: Effect, n: nat): (r: seq<Effect>)
    ensures |r| == n
    ensures forall x | x in r :: x == e
  {
    if n == 0 then [] else [e] + Copies(e, n - 1)
  }

  /** A log holding one request, followed by a log holding `n` copies of it, holds `n + 1`. */
  lemma CopiesAppend(a: seq<Effect>, b: seq<Effect>, e: Effect, n: nat)
    requires Requests(a) == [e] && Requests(b) == Copies(e, n)
    ensures Requests(a + b) == Copies(e, n + 1)
  {
    RequestsAppend(a, b);
    CopiesSplit(e, 1, n);
    assert Copies(e, 1) == [e] + Copies(e, 0);
  }

  lemma {:induction false} CopiesSplit(e: Effect, m: nat, n: nat)
    ensures Copies(e, m) + Copies(e, n) == Copies(e, m + n)
  {
    if m > 0 {
      CopiesSplit(e, m - 1, n);
      assert Copies(e, m) + Copies(e, n) == [e] + (Copies(e, m - 1) + Copies(e, n));
    }
  }

  /** A log extended twice holds both extensions in order. */
  lemma LogsCompose(before: seq<Effect>, first: seq<Effect>, second: seq<Effect>, middle: seq<Effect>, after: seq<Effect>)
    requires middle == before + first && after == middle + second
    ensures after == before + (first + second)
  {
  }

  /** Every request in the log comes right after a token check. */
  ghost predicate TokenGuarded(effects: seq<Effect>)
  {
    forall i | 0 <= i < |effects| && effects[i].Sent? :: 0 < i && effects[i - 1].TokenCheck?
  }

  /** Every sleep in the log is for a positive time. */
  ghost predicate SleepsPositive(effects: seq<Effect>)
  {
    forall e | e in effects && e.Slept? :: e.seconds > 0.0
  }

  lemma GuardedAppend(a: seq<Effect>, b: seq<Effect>)
    requires TokenGuarded(a) && TokenGuarded(b)
    ensures TokenGuarded(a + b)
  {
    forall i | 0 <= i < |a + b| && (a + b)[i].Sent?
      ensures 0 < i && (a + b)[i - 1].TokenCheck?
    {
      if i >= |a| {
        assert b[i - |a|].Sent?;
      }
    }
  }
}
