/** `Lightspeed.request_bucket` as a function of the client's state and the world:
    admission, up to four attempts each preceded by a token check, then the
    bookkeeping and what the call returns or raises. */
module Dispatch {
  import opened Base
  import opened Json
  import opened Net
  import opened Token
  import opened RateLimit

  /** Everything of a client that requests change. */
  datatype ClientState = ClientState(token: TokenState, bucket: BucketState)

  function Initial(now: real): ClientState
  {
    ClientState(Token.Initial(now), RateLimit.Initial(now))
  }

  /** `while tries <= 3`: one first try and three retries. */
  const MaxAttempts: nat := 4
  /** `time.sleep(3)` after each 429. */
  const RetryPause: real := 3.0

  /** One pass of the loop body: check the token, send, and sleep after a 429. */
  datatype Attempted = Attempted(token: TokenState, world: World, effects: seq<Effect>, reply: Reply)

  function Attempt(t: TokenState, w: World, verb: string, target: Json, body: Option<Json>): (a: Attempted)
    ensures w.exchanges != [] ==> a.reply == w.exchanges[0].reply && a.world.exchanges == w.exchanges[1..]
    ensures w.exchanges == [] ==> a.reply == Exhausted && a.world.exchanges == []
    ensures a.effects == [TokenCheck(w.clock, Expired(t, w.clock)), Sent(verb, target, body)]
                         + (if TooManyRequests(a.reply) then [Slept(RetryPause)] else [])
  {
    var c := Check(t, w);
    var d := Send(c.world);
    var tried := c.effects + [Sent(verb, target, body)];
    if TooManyRequests(d.reply) then
      Attempted(c.token, Sleep(d.world, RetryPause), tried + [Slept(RetryPause)], d.reply)
    else
      Attempted(c.token, d.world, tried, d.reply)
  }

  /** The token after the attempts, the world, the log, and each attempt's reply in order. */
  datatype Retried = Retried(token: TokenState, world: World, effects: seq<Effect>, replies: seq<Reply>)

  /** The retry loop with `left` attempts still allowed: after a 429 it goes round again;
      any other reply (or a transport exception) ends it. */
  function Retry(t: TokenState, w: World, verb: string, target: Json, body: Option<Json>, left: nat): (r: Retried)
    requires 1 <= left
    ensures 1 <= |r.replies| <= left
    ensures w.exchanges == [] ==> r.replies == [Exhausted]
    ensures |r.world.exchanges| <= |w.exchanges|
    ensures w.exchanges != [] ==> |r.world.exchanges| < |w.exchanges|
    decreases left
  {
    var a := Attempt(t, w, verb, target, body);
    if TooManyRequests(a.reply) && left > 1 then
      var rest := Retry(a.token, a.world, verb, target, body, left - 1);
      Retried(rest.token, rest.world, a.effects + rest.effects, [a.reply] + rest.replies)
    else
      Retried(a.token, a.world, a.effects, [a.reply])
  }

  /** The loop goes round again only after a 429, and stops early only on another reply. */
  lemma {:induction false} RetryRepeatsOn429(t: TokenState, w: World, verb: string, target: Json, body: Option<Json>, left: nat)
    requires 1 <= left
    ensures var r := Retry(t, w, verb, target, body, left);
      && (forall i | 0 <= i < |r.replies| - 1 :: TooManyRequests(r.replies[i]))
      && (|r.replies| < left ==> !TooManyRequests(Last(r.replies)))
    decreases left
  {
    var a := Attempt(t, w, verb, target, body);
    if TooManyRequests(a.reply) && left > 1 {
      RetryRepeatsOn429(a.token, a.world, verb, target, body, left - 1);
      var rest := Retry(a.token, a.world, verb, target, body, left - 1);
      var r := Retry(t, w, verb, target, body, left);
      forall i | 0 <= i < |r.replies| - 1
        ensures TooManyRequests(r.replies[i])
      {
        if i > 0 {
          assert r.replies[i] == rest.replies[i - 1];
        }
      }
    }
  }

  /** The loop from token `t` and world `w` with `left` attempts allowed completes
      `whole` after the log `done`: same token, world and last reply, and `done` followed
      by the rest of the log. */
  predicate Resumes(whole: Retried, done: seq<Effect>,
                    t: TokenState, w: World, verb: string, target: Json, body: Option<Json>, left: nat)
  {
    1 <= left && |whole.replies| > 0 &&
    var rest := Retry(t, w, verb, target, body, left);
    && whole.token == rest.token && whole.world == rest.world
    && whole.effects == done + rest.effects
    && Last(whole.replies) == Last(rest.replies)
  }

  /** One more pass of the loop: after one attempt either the loop goes on from the
      attempt's token and world with one attempt fewer, or `whole` ends with it. */
  lemma RetryResume(whole: Retried, done: seq<Effect>,
                    t: TokenState, w: World, verb: string, target: Json, body: Option<Json>, left: nat)
    requires Resumes(whole, done, t, w, verb, target, body, left)
    ensures var a := Attempt(t, w, verb, target, body);
      if TooManyRequests(a.reply) && left > 1 then
        Resumes(whole, done + a.effects, a.token, a.world, verb, target, body, left - 1)
      else
        && whole.token == a.token && whole.world == a.world
        && whole.effects == done + a.effects
        && Last(whole.replies) == a.reply
  {
    var a := Attempt(t, w, verb, target, body);
    if TooManyRequests(a.reply) && left > 1 {
      var further := Retry(a.token, a.world, verb, target, body, left - 1);
      assert done + (a.effects + further.effects) == (done + a.effects) + further.effects;
    }
  }

  /** The loop starts with nothing done. */
  lemma RetryStart(t: TokenState, w: World, verb: string, target: Json, body: Option<Json>)
    ensures Resumes(Retry(t, w, verb, target, body, MaxAttempts), [], t, w, verb, target, body, MaxAttempts)
  {
    var r := Retry(t, w, verb, target, body, MaxAttempts);
    assert [] + r.effects == r.effects;
  }

  /** How many replies at the head of a script are 429s. */
  function Leading429(xs: seq<Exchange>): (n: nat)
    ensures n <= |xs|
    ensures forall i | 0 <= i < n :: TooManyRequests(xs[i].reply)
    ensures n < |xs| ==> !TooManyRequests(xs[n].reply)
  {
    if xs == [] || !TooManyRequests(xs[0].reply) then 0 else 1 + Leading429(xs[1..])
  }

  function Min(a: nat, b: nat): nat
  {
    if a < b then a else b
  }

  /** While the script lasts, each attempt takes the next scripted reply. */
  lemma {:induction false} RetryTakesScript(t: TokenState, w: World, verb: string, target: Json, body: Option<Json>, left: nat)
    requires 1 <= left
    ensures var r := Retry(t, w, verb, target, body, left);
      |r.replies| <= |w.exchanges| ==>
        && r.world.exchanges == w.exchanges[|r.replies|..]
        && forall i | 0 <= i < |r.replies| :: r.replies[i] == w.exchanges[i].reply
    decreases left
  {
    var a := Attempt(t, w, verb, target, body);
    if TooManyRequests(a.reply) && left > 1 {
      RetryTakesScript(a.token, a.world, verb, target, body, left - 1);
      var rest := Retry(a.token, a.world, verb, target, body, left - 1);
      var r := Retry(t, w, verb, target, body, left);
      if |r.replies| <= |w.exchanges| {
        assert w.exchanges[1..][|rest.replies|..] == w.exchanges[|r.replies|..];
        forall i | 0 <= i < |r.replies|
          ensures r.replies[i] == w.exchanges[i].reply
        {
          if i > 0 {
            assert r.replies[i] == rest.replies[i - 1];
          }
        }
      }
    }
  }

  /** How many attempts the loop makes: the script's leading 429s and one more, capped
      at `left`. */
  lemma {:induction false} RetryCount(t: TokenState, w: World, verb: string, target: Json, body: Option<Json>, left: nat)
    requires 1 <= left
    requires Min(Leading429(w.exchanges) + 1, left) <= |w.exchanges|
    ensures |Retry(t, w, verb, target, body, left).replies| == Min(Leading429(w.exchanges) + 1, left)
    decreases left
  {
    var a := Attempt(t, w, verb, target, body);
    if TooManyRequests(a.reply) && left > 1 {
      assert Leading429(w.exchanges) == 1 + Leading429(w.exchanges[1..]);
      RetryCount(a.token, a.world, verb, target, body, left - 1);
    }
  }

  /** The loop consumes exactly the leading 429s of the script and one more reply, capped at
      `left`, and its replies are those scripted replies in order. */
  lemma RetryFollowsScript(t: TokenState, w: World, verb: string, target: Json, body: Option<Json>, left: nat)
    requires 1 <= left
    requires Min(Leading429(w.exchanges) + 1, left) <= |w.exchanges|
    ensures var r := Retry(t, w, verb, target, body, left);
      var k := Min(Leading429(w.exchanges) + 1, left);
      && |r.replies| == k
      && r.world.exchanges == w.exchanges[k..]
      && forall i | 0 <= i < k :: r.replies[i] == w.exchanges[i].reply
  {
    RetryCount(t, w, verb, target, body, left);
    RetryTakesScript(t, w, verb, target, body, left);
  }

  /** A token check, a request, and possibly the pause after a 429. */
  lemma TriedLog(check: Effect, sent: Effect, pause: seq<Effect>)
    requires check.TokenCheck? && sent.Sent?
    requires pause == [] || pause == [Slept(RetryPause)]
    ensures var e := [check, sent] + pause;
      && Requests(e) == [sent]
      && TokenGuarded(e)
      && SleepsPositive(e)
  {
    var e := [check, sent] + pause;
    assert e[1..][1..] == pause;
    assert Requests(pause) == [] by {
      if pause != [] {
        assert pause[1..] == [];
      }
    }
  }

  /** The log of one attempt holds a single request, right after the token check. */
  lemma AttemptLog(t: TokenState, w: World, verb: string, target: Json, body: Option<Json>)
    ensures var e := Attempt(t, w, verb, target, body).effects;
      && Requests(e) == [Sent(verb, target, body)]
      && TokenGuarded(e)
      && SleepsPositive(e)
  {
    var a := Attempt(t, w, verb, target, body);
    TriedLog(TokenCheck(w.clock, Expired(t, w.clock)), Sent(verb, target, body),
             if TooManyRequests(a.reply) then [Slept(RetryPause)] else []);
  }

  /** One attempt's request before the requests of the rest of the loop. */
  lemma SendsCompose(r: Retried, a: Attempted, rest: Retried, sent: Effect)
    requires r == Retried(rest.token, rest.world, a.effects + rest.effects, [a.reply] + rest.replies)
    requires Requests(a.effects) == [sent] && Requests(rest.effects) == Copies(sent, |rest.replies|)
    ensures Requests(r.effects) == Copies(sent, |r.replies|)
  {
    CopiesAppend(a.effects, rest.effects, sent, |rest.replies|);
  }

  /** The loop sends one request per reply, each to the given target with the given body. */
  lemma {:induction false} RetryRequests(t: TokenState, w: World, verb: string, target: Json, body: Option<Json>, left: nat)
    requires 1 <= left
    ensures var r := Retry(t, w, verb, target, body, left);
      Requests(r.effects) == Copies(Sent(verb, target, body), |r.replies|)
    decreases left
  {
    var a := Attempt(t, w, verb, target, body);
    AttemptLog(t, w, verb, target, body);
    if TooManyRequests(a.reply) && left > 1 {
      var rest := Retry(a.token, a.world, verb, target, body, left - 1);
      RetryRequests(a.token, a.world, verb, target, body, left - 1);
      SendsCompose(Retry(t, w, verb, target, body, left), a, rest, Sent(verb, target, body));
    } else {
      SendsCompose(Retry(t, w, verb, target, body, left), a, Retried(a.token, a.world, [], []), Sent(verb, target, body));
    }
  }

  /** In the loop's log every request comes right after a token check, and every sleep
      is positive. */
  lemma {:induction false} RetryGuarded(t: TokenState, w: World, verb: string, target: Json, body: Option<Json>, left: nat)
    requires 1 <= left
    ensures var r := Retry(t, w, verb, target, body, left);
      TokenGuarded(r.effects) && SleepsPositive(r.effects)
    decreases left
  {
    var a := Attempt(t, w, verb, target, body);
    AttemptLog(t, w, verb, target, body);
    if TooManyRequests(a.reply) && left > 1 {
      var rest := Retry(a.token, a.world, verb, target, body, left - 1);
      RetryGuarded(a.token, a.world, verb, target, body, left - 1);
      GuardedAppend(a.effects, rest.effects);
    }
  }

  /** What `request_bucket` hands back for the last reply: the body (even of an error
      status), the text of a caught HTTPError, or the exception that escapes. */
  function Deliver(reply: Reply): (r: Result<Json>)
    ensures reply.Response? && reply.body.Some? ==> r == Ok(reply.body.value)
    ensures reply.Response? && reply.body.None? ==> r == Raised(BodyNotJson)
    ensures reply.TransportError? ==>
      r == if reply.httpError then Ok(Str("Error: " + reply.message)) else Raised(ConnectionFailed(reply.message))
  {
    match reply
    case Response(_, _, body) =>
      (match body
       case Some(j) => Ok(j)
       case None => Raised(BodyNotJson))
    case TransportError(httpError, message) =>
      if httpError then Ok(Str("Error: " + message)) else Raised(ConnectionFailed(message))
  }

  /** What one call did: its outcome, the client state and world after it, its log and
      the reply of each attempt. */
  datatype Dispatched = Dispatched(outcome: Result<Json>, state: ClientState, world: World, effects: seq<Effect>, replies: seq<Reply>)

  /** The log entry of the admission sleep, if any. */
  function AdmissionLog(a: Admission): seq<Effect>
  {
    if a.Wait? then [Slept(a.seconds)] else []
  }

  /** `request_bucket(verb, target, body)`. */
  function Request(s: ClientState, w: World, verb: string, target: Json, body: Option<Json>): (r: Dispatched)
    ensures |r.replies| <= MaxAttempts
    ensures r.replies == [] <==> Admit(s.bucket, w.clock, Cost(verb)) == DivisionByZero
    ensures r.replies == [] ==> r == Dispatched(Raised(ZeroDivision), s, w, [], [])
    ensures r.replies != [] ==>
      && r.outcome == Deliver(Last(r.replies))
      && r.state.bucket == Record(s.bucket, Last(r.replies), r.world.clock)
    ensures |r.world.exchanges| <= |w.exchanges|
    ensures r.outcome.Ok? ==> |r.world.exchanges| < |w.exchanges|
  {
    var a := Admit(s.bucket, w.clock, Cost(verb));
    if a == DivisionByZero then
      Dispatched(Raised(ZeroDivision), s, w, [], [])
    else
      var admitted := if a.Wait? then Sleep(w, a.seconds) else w;
      var t := Retry(s.token, admitted, verb, target, body, MaxAttempts);
      var last := Last(t.replies);
      Dispatched(Deliver(last), ClientState(t.token, Record(s.bucket, last, t.world.clock)),
                 t.world, AdmissionLog(a) + t.effects, t.replies)
  }

  /** An admitted call is the retry loop from the admitted time, then the bookkeeping. */
  lemma RequestAdmitted(s: ClientState, w: World, verb: string, target: Json, body: Option<Json>)
    requires Admit(s.bucket, w.clock, Cost(verb)) != DivisionByZero
    ensures var a := Admit(s.bucket, w.clock, Cost(verb));
      var t := Retry(s.token, if a.Wait? then Sleep(w, a.seconds) else w, verb, target, body, MaxAttempts);
      Request(s, w, verb, target, body)
        == Dispatched(Deliver(Last(t.replies)), ClientState(t.token, Record(s.bucket, Last(t.replies), t.world.clock)),
                      t.world, AdmissionLog(a) + t.effects, t.replies)
  {
  }

  /** One call sends at most four requests, one per reply, all to the given target with
      the given body. */
  lemma RequestSends(s: ClientState, w: World, verb: string, target: Json, body: Option<Json>)
    ensures var r := Request(s, w, verb, target, body);
      Requests(r.effects) == Copies(Sent(verb, target, body), |r.replies|) && |r.replies| <= MaxAttempts
  {
    var a := Admit(s.bucket, w.clock, Cost(verb));
    if a != DivisionByZero {
      var t := Retry(s.token, if a.Wait? then Sleep(w, a.seconds) else w, verb, target, body, MaxAttempts);
      RequestAdmitted(s, w, verb, target, body);
      RetryRequests(s.token, if a.Wait? then Sleep(w, a.seconds) else w, verb, target, body, MaxAttempts);
      var pre := AdmissionLog(a);
      assert Requests(pre) == [] by {
        if pre != [] {
          assert pre[1..] == [];
        }
      }
      RequestsAppend(pre, t.effects);
    }
  }

  /** In a call's log every request comes right after a token check, and the call never
      sleeps for a negative or zero time. */
  lemma RequestGuarded(s: ClientState, w: World, verb: string, target: Json, body: Option<Json>)
    ensures var r := Request(s, w, verb, target, body);
      TokenGuarded(r.effects) && SleepsPositive(r.effects)
  {
    var a := Admit(s.bucket, w.clock, Cost(verb));
    if a != DivisionByZero {
      var t := Retry(s.token, if a.Wait? then Sleep(w, a.seconds) else w, verb, target, body, MaxAttempts);
      RequestAdmitted(s, w, verb, target, body);
      RetryGuarded(s.token, if a.Wait? then Sleep(w, a.seconds) else w, verb, target, body, MaxAttempts);
      GuardedAppend(AdmissionLog(a), t.effects);
    }
  }

  /** Once admitted, a call makes as many attempts as the script's leading 429s and one
      more, capped at four, and consumes that many replies. */
  lemma RequestConsumes(s: ClientState, w: World, verb: string, target: Json, body: Option<Json>)
    requires Admit(s.bucket, w.clock, Cost(verb)) != DivisionByZero
    requires Min(Leading429(w.exchanges) + 1, MaxAttempts) <= |w.exchanges|
    ensures var r := Request(s, w, verb, target, body);
      var k := Min(Leading429(w.exchanges) + 1, MaxAttempts);
      |r.replies| == k && r.world.exchanges == w.exchanges[k..]
  {
    var a := Admit(s.bucket, w.clock, Cost(verb));
    RequestAdmitted(s, w, verb, target, body);
    RetryFollowsScript(s.token, if a.Wait? then Sleep(w, a.seconds) else w, verb, target, body, MaxAttempts);
  }

  /** While the script lasts, a call's replies are the scripted ones in order, and it
      answers with the last of them. */
  lemma RequestAnswers(s: ClientState, w: World, verb: string, target: Json, body: Option<Json>)
    requires Admit(s.bucket, w.clock, Cost(verb)) != DivisionByZero
    ensures var r := Request(s, w, verb, target, body);
      |r.replies| <= |w.exchanges| ==>
        && (forall i | 0 <= i < |r.replies| :: r.replies[i] == w.exchanges[i].reply)
        && r.outcome == Deliver(w.exchanges[|r.replies| - 1].reply)
  {
    var a := Admit(s.bucket, w.clock, Cost(verb));
    RequestAdmitted(s, w, verb, target, body);
    RetryTakesScript(s.token, if a.Wait? then Sleep(w, a.seconds) else w, verb, target, body, MaxAttempts);
  }

  /** Once admitted, a call's attempts are the script's leading 429s plus the reply after
      them, capped at four; the call answers with the last of them. */
  lemma RequestFollowsScript(s: ClientState, w: World, verb: string, target: Json, body: Option<Json>)
    requires Admit(s.bucket, w.clock, Cost(verb)) != DivisionByZero
    requires Min(Leading429(w.exchanges) + 1, MaxAttempts) <= |w.exchanges|
    ensures var r := Request(s, w, verb, target, body);
      var k := Min(Leading429(w.exchanges) + 1, MaxAttempts);
      && |r.replies| == k
      && r.world.exchanges == w.exchanges[k..]
      && (forall i | 0 <= i < k :: r.replies[i] == w.exchanges[i].reply)
      && r.outcome == Deliver(w.exchanges[k - 1].reply)
  {
    RequestConsumes(s, w, verb, target, body);
    RequestAnswers(s, w, verb, target, body);
  }

  /** After four 429s the fourth response's body is still returned, and the bucket is
      left as it was. */
  lemma FourthRejectionReturned(s: ClientState, w: World, verb: string, target: Json, body: Option<Json>)
    requires Admit(s.bucket, w.clock, Cost(verb)) != DivisionByZero
    requires |w.exchanges| >= 4
    requires forall i | 0 <= i < 4 :: TooManyRequests(w.exchanges[i].reply)
    ensures var r := Request(s, w, verb, target, body);
      && |r.replies| == 4
      && r.outcome == Deliver(w.exchanges[3].reply)
      && r.state.bucket == s.bucket
  {
    assert Leading429(w.exchanges) >= 4 by {
      LeadingAtLeast(w.exchanges, 4);
    }
    RequestFollowsScript(s, w, verb, target, body);
  }

  lemma {:induction false} LeadingAtLeast(xs: seq<Exchange>, n: nat)
    requires n <= |xs|
    requires forall i | 0 <= i < n :: TooManyRequests(xs[i].reply)
    ensures Leading429(xs) >= n
  {
    if n > 0 {
      LeadingAtLeast(xs[1..], n - 1);
    }
  }

  /** A successful first reply carrying both rate-limit headers sets the availability to
      `total - requested` and the drip rate to the header's, whatever the bucket held. */
  lemma SuccessResetsBucket(s: ClientState, w: World, verb: string, target: Json, body: Option<Json>)
    requires Admit(s.bucket, w.clock, Cost(verb)) != DivisionByZero
    requires w.exchanges != []
    requires var x := w.exchanges[0].reply;
      x.Response? && !ErrorStatus(x) && x.headers.dripRate.Some?
      && x.headers.bucketLevel.Some? && x.headers.bucketLevel.value.split.Some?
    ensures var r := Request(s, w, verb, target, body);
      var h := w.exchanges[0].reply.headers;
      var split := h.bucketLevel.value.split.value;
      r.state.bucket == BucketState(Some(h.bucketLevel.value.raw), h.dripRate.value, r.world.clock, split.1 - split.0)
  {
    assert Leading429(w.exchanges) == 0;
    RequestFollowsScript(s, w, verb, target, body);
  }

  /** A GET admitted at once, answered by a scripted reply without rate-limit headers
      that is neither a 429 nor an error: the call answers with its body, consumes that
      one reply, and leaves the bucket's availability as it was. */
  lemma ScriptedGet(s: ClientState, w: World, target: Json, page: Json)
    requires s.bucket.availability >= 1.0
    requires w.exchanges != [] && w.exchanges[0].reply == Response(200, Headers(None, None), Some(page))
    ensures var q := Request(s, w, "get", target, None);
      && q.outcome == Ok(page) && q.world.exchanges == w.exchanges[1..]
      && q.state.bucket.availability == s.bucket.availability
  {
    assert Leading429(w.exchanges) == 0;
    RequestFollowsScript(s, w, "get", target, None);
  }
}
