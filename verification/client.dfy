/** The `Lightspeed` client object: its token and rate-limit fields are updated in
    place by each call, and every method is proved to do exactly what the
    corresponding function of `Token`, `Dispatch` and `Pagination` describes. */
module Client {
  import opened Base
  import opened Json
  import opened Net
  import opened Url
  import opened Token
  import opened RateLimit
  import opened Dispatch
  import opened Pagination

  /** `put`, `post` and `delete`: build the URL without encoding and send one request,
      or raise before anything is sent when the URL cannot be built. */
  function Submit(s: ClientState, w: World, apiUrl: string, verb: string, source: string, id: Id, params: Params, body: Option<Json>): (r: Dispatched)
    ensures BuildUrl(apiUrl, source, id, params, false).Raised? ==>
      r == Dispatched(Raised(TypeMismatch), s, w, [], [])
    ensures BuildUrl(apiUrl, source, id, params, false).Ok? ==>
      r == Request(s, w, verb, Str(BuildUrl(apiUrl, source, id, params, false).value), body)
  {
    match BuildUrl(apiUrl, source, id, params, false)
    case Raised(f) => Dispatched(Raised(f), s, w, [], [])
    case Ok(url) => Request(s, w, verb, Str(url), body)
  }

  /** A write sends nothing when its URL cannot be built, and otherwise at most four
      requests, all to that URL with the given body. */
  lemma SubmitSends(s: ClientState, w: World, apiUrl: string, verb: string, source: string, id: Id, params: Params, body: Option<Json>)
    ensures var r := Submit(s, w, apiUrl, verb, source, id, params, body);
      var url := BuildUrl(apiUrl, source, id, params, false);
      && (url.Raised? ==> r.effects == [] && r.state == s && r.world == w)
      && (url.Ok? ==> Requests(r.effects) == Copies(Sent(verb, Str(url.value), body), |r.replies|))
      && |r.replies| <= MaxAttempts
  {
    var url := BuildUrl(apiUrl, source, id, params, false);
    if url.Ok? {
      RequestSends(s, w, verb, Str(url.value), body);
    }
  }

  /** What `get` returns: the flattened pages, or the exception that escaped the iteration. */
  function Collect(run: PageRun): (r: Result<seq<Json>>)
    ensures run.stop.Failed? <==> r.Raised?
    ensures r.Raised? ==> r.fault == run.stop.fault
    ensures r.Ok? ==> r.value == Flatten(run.pages)
  {
    if run.stop.Failed? then Raised(run.stop.fault) else Ok(Flatten(run.pages))
  }

  /** An item is in what `get` returns exactly when one of the pages contributes it: the
      items of a list page, or a dict page itself. */
  lemma CollectMembers(run: PageRun, x: Json)
    requires !run.stop.Failed?
    ensures x in Collect(run).value <==> exists i | 0 <= i < |run.pages| :: x in Contribution(run.pages[i])
  {
    FlattenMembers(run.pages, x);
  }

  /** A sale with the given id. */
  function SaleItem(id: real): Json
  {
    Object(map["id" := Num(id)])
  }

  /** A response holding one sale under `Sale`, with an `@attributes.next` link when given. */
  function SalePage(sale: Json, next: Option<string>): Json
  {
    match next
    case Some(link) => Object(map["Sale" := Array([sale]), "@attributes" := Object(map["next" := Str(link)])])
    case None => Object(map["Sale" := Array([sale])])
  }

  /** The last turn of the walk: following a link to a response of one sale without a next
      link yields that sale's list and stops for want of a link, using up the script. */
  lemma LastSalePageExample(s: ClientState, w: World, prev: Json, sale: Json)
    requires s.bucket.availability >= 1.0 && LinkOf(prev, "next").Link?
    requires |w.exchanges| == 1 && w.exchanges[0].reply == Response(200, Headers(None, None), Some(SalePage(sale, None)))
    ensures var d := Drain(s, w, prev, "Sale", false);
      && d.pages == [Array([sale])] && d.targets == [LinkOf(prev, "next").target]
      && d.stop == NoNextLink && d.world.exchanges == []
  {
    var last := SalePage(sale, None);
    ScriptedGet(s, w, LinkOf(prev, "next").target, last);
    DrainStep(s, w, prev, "Sale", false);
    var n := FollowLink(s, w, prev, "next");
    assert Page(last, "Sale", false) == Ok(Array([sale]));
    assert LinkOf(last, "next") == NoLink;
    DrainStep(n.state, n.world, last, "Sale", false);
  }

  /** The first turn of the walk on a fresh client: the encoded `Sale.json` URL answers
      with a response of one sale linking on, which is yielded before the loop starts. */
  lemma FirstSalePageExample(apiUrl: string, w: World, sale: Json, link: string)
    requires |w.exchanges| == 2 && link != ""
    requires w.exchanges[0].reply == Response(200, Headers(None, None), Some(SalePage(sale, Some(link))))
    ensures var first := SalePage(sale, Some(link));
      var q := Request(Dispatch.Initial(0.0), w, "get", Str(apiUrl + "Sale.json"), None);
      && Paginate(Dispatch.Initial(0.0), w, apiUrl, "Sale", NoId, NoParams, false)
         == Extend(Array([sale]), first, Str(apiUrl + "Sale.json"), q.effects, Drain(q.state, q.world, first, "Sale", false))
      && q.state.bucket.availability >= 1.0 && q.world.exchanges == [w.exchanges[1]]
      && LinkOf(first, "next") == Link(Str(link))
  {
    var first := SalePage(sale, Some(link));
    var url := apiUrl + "Sale.json";
    assert "Sale" + ".json" == "Sale.json";
    assert apiUrl + "Sale" + ".json" == url;
    assert BuildUrl(apiUrl, "Sale", NoId, NoParams, true) == Ok(url);
    ScriptedGet(Dispatch.Initial(0.0), w, Str(url), first);
    assert Page(first, "Sale", false) == Ok(Array([sale]));
    assert LinkOf(first, "next") == Link(Str(link));
  }

  /** A two-page `Sale` walk on a fresh client: the first response links to the second,
      which has no next link; `get_paginated` yields both `Sale` lists and stops for want
      of a link, and `get` returns the two sales in page order. */
  lemma TwoPageSaleWalk(apiUrl: string, w: World, sale1: Json, sale2: Json, link: string)
    requires |w.exchanges| == 2 && link != ""
    requires w.exchanges[0].reply == Response(200, Headers(None, None), Some(SalePage(sale1, Some(link))))
    requires w.exchanges[1].reply == Response(200, Headers(None, None), Some(SalePage(sale2, None)))
    ensures var r := Paginate(Dispatch.Initial(0.0), w, apiUrl, "Sale", NoId, NoParams, false);
      && r.pages == [Array([sale1]), Array([sale2])]
      && r.targets == [Str(apiUrl + "Sale.json"), Str(link)]
      && r.stop == NoNextLink
      && r.world.exchanges == []
      && Collect(r) == Ok([sale1, sale2])
  {
    var first := SalePage(sale1, Some(link));
    FirstSalePageExample(apiUrl, w, sale1, link);
    var q := Request(Dispatch.Initial(0.0), w, "get", Str(apiUrl + "Sale.json"), None);
    LastSalePageExample(q.state, q.world, first, sale2);
    TwoSalePagesExample(sale1, sale2);
  }

  /** The two-page walk on concrete sales with ids 1 and 2, linked through "URL2". */
  lemma TwoPageSaleWalkExample(apiUrl: string)
    ensures var plain := Headers(None, None);
      var w := World(0.0, [Exchange(0.0, Response(200, plain, Some(SalePage(SaleItem(1.0), Some("URL2"))))),
                           Exchange(0.0, Response(200, plain, Some(SalePage(SaleItem(2.0), None))))], []);
      var r := Paginate(Dispatch.Initial(0.0), w, apiUrl, "Sale", NoId, NoParams, false);
      && r.pages == [Array([SaleItem(1.0)]), Array([SaleItem(2.0)])]
      && r.targets == [Str(apiUrl + "Sale.json"), Str("URL2")]
      && r.stop == NoNextLink
      && r.world.exchanges == []
      && Collect(r) == Ok([SaleItem(1.0), SaleItem(2.0)])
  {
    var plain := Headers(None, None);
    var w := World(0.0, [Exchange(0.0, Response(200, plain, Some(SalePage(SaleItem(1.0), Some("URL2"))))),
                         Exchange(0.0, Response(200, plain, Some(SalePage(SaleItem(2.0), None))))], []);
    TwoPageSaleWalk(apiUrl, w, SaleItem(1.0), SaleItem(2.0), "URL2");
  }

  /** The loop of `get`: a list page's items are appended one by one, a dict page is
      appended whole, and anything else is skipped. */
  method Gather(pages: seq<Json>) returns (data: seq<Json>)
    ensures data == Flatten(pages)
  {
    data := [];
    for i := 0 to |pages|
      invariant data == Flatten(pages[..i])
    {
      var p := pages[i];
      if p.Array? {
        data := data + p.items;
      } else if p.Object? {
        data := data + [p];
      }
      FlattenAppend(pages[..i], [p]);
      assert pages[..i + 1] == pages[..i] + [p];
      assert Flatten([p]) == Contribution(p) + Flatten([p][1..]);
    }
    assert pages[..|pages|] == pages;
  }

  class Lightspeed {
    /** `api_url`: the account's API root, or empty without an account id. */
    const apiUrl: string
    /** `token_expire_time` and `bearer_token`. */
    var tokenExpireTime: real
    var bearerToken: Option<string>
    /** `rate_limit_bucket_level`, `rate_limit_bucket_rate`, `rate_limit_last_request`
        and `rate_limit_availability`. */
    var bucketLevel: Option<string>
    var bucketRate: real
    var lastRequest: real
    var availability: real
    /** Everything the client has done to the world so far. */
    ghost var log: seq<Effect>

    function Credentials(): TokenState
      reads this
    {
      TokenState(tokenExpireTime, bearerToken)
    }

    function Bucket(): BucketState
      reads this
    {
      BucketState(bucketLevel, bucketRate, lastRequest, availability)
    }

    function State(): ClientState
      reads this
    {
      ClientState(Credentials(), Bucket())
    }

    /** `Lightspeed(config)` at time `now`: an expired, empty token and a full bucket. */
    constructor (accountId: Option<string>, now: real)
      ensures apiUrl == ApiUrl(accountId)
      ensures State() == Dispatch.Initial(now)
      ensures log == []
    {
      apiUrl := ApiUrl(accountId);
      tokenExpireTime := now - OneDay;
      bearerToken := None;
      bucketLevel := None;
      bucketRate := 1.0;
      lastRequest := now;
      availability := 60.0;
      log := [];
    }

    /** `get_token`. */
    method GetToken(w: World) returns (token: Option<string>, w': World)
      modifies this
      ensures var c := Check(old(Credentials()), w);
        && token == c.returned && Credentials() == c.token && w' == c.world
        && log == old(log) + c.effects
      ensures Bucket() == old(Bucket())
    {
      if w.clock > tokenExpireTime {
        log := log + [TokenCheck(w.clock, true)];
        var f := FetchToken(w);
        w' := f.world;
        token := None;
        if f.answer.Answered? && f.answer.expiresIn.Some? {
          tokenExpireTime := w'.clock + f.answer.expiresIn.value as real;
          if f.answer.accessToken.Some? {
            bearerToken := f.answer.accessToken;
            token := bearerToken;
          }
        }
      } else {
        log := log + [TokenCheck(w.clock, false)];
        token := bearerToken;
        w' := w;
      }
    }

    /** `get_authorization_token(code)`: the code itself goes only to the token endpoint,
        whose answer is the world's. */
    method GetAuthorizationToken(w: World) returns (refresh: Option<string>, w': World)
      modifies this
      ensures var a := Authorize(old(Credentials()), w);
        refresh == a.returned && Credentials() == a.token && w' == a.world
      ensures Bucket() == old(Bucket()) && log == old(log)
    {
      var f := FetchToken(w);
      w' := f.world;
      refresh := None;
      if f.answer.Answered? && f.answer.accessToken.Some? {
        bearerToken := f.answer.accessToken;
        refresh := f.answer.refreshToken;
      }
    }

    /** The admission check of `request_bucket`: sleep while the bucket refills, or fail
        dividing by a zero drip rate (then `admitted` is false and nothing happens). */
    method AwaitCapacity(verb: string, w: World) returns (admitted: bool, w': World)
      modifies this
      ensures var a := Admit(old(Bucket()), w.clock, Cost(verb));
        && (admitted <==> a != DivisionByZero)
        && w' == (if a.Wait? then Sleep(w, a.seconds) else w)
        && log == old(log) + AdmissionLog(a)
      ensures State() == old(State())
    {
      var units := Cost(verb);
      admitted := true;
      w' := w;
      if availability < units {
        var leftOver := units - availability;
        if bucketRate == 0.0 {
          return false, w;
        }
        var secondsWait := leftOver / bucketRate;
        var elapsed := w.clock - lastRequest;
        if elapsed < secondsWait {
          w' := Sleep(w, secondsWait - elapsed);
          log := log + [Slept(secondsWait - elapsed)];
        }
      }
    }

    /** One pass of the retry loop's body: check the token, send, and sleep three
        seconds after a 429. */
    method TryOnce(verb: string, target: Json, body: Option<Json>, w: World) returns (reply: Reply, w': World)
      modifies this
      ensures var a := Attempt(old(Credentials()), w, verb, target, body);
        && reply == a.reply && Credentials() == a.token && w' == a.world
        && log == old(log) + a.effects
      ensures Bucket() == old(Bucket())
    {
      var _, checked := GetToken(w);
      var d := Send(checked);
      reply := d.reply;
      w' := d.world;
      log := log + [Sent(verb, target, body)];
      if TooManyRequests(reply) {
        w' := Sleep(w', RetryPause);
        log := log + [Slept(RetryPause)];
      }
    }

    /** The retry loop of `request_bucket`: go round again after a 429, at most four
        times in all. */
    method SendWithRetries(verb: string, target: Json, body: Option<Json>, w: World) returns (reply: Reply, w': World)
      modifies this
      ensures var r := Retry(old(Credentials()), w, verb, target, body, MaxAttempts);
        && reply == Last(r.replies) && Credentials() == r.token && w' == r.world
        && log == old(log) + r.effects
      ensures Bucket() == old(Bucket())
    {
      ghost var whole := Retry(Credentials(), w, verb, target, body, MaxAttempts);
      RetryStart(Credentials(), w, verb, target, body);
      var tries := 0;
      reply := Exhausted;
      w' := w;
      ghost var done: seq<Effect> := [];
      while tries <= 3
        invariant 0 <= tries <= 4
        invariant Bucket() == old(Bucket()) && log == old(log) + done
        invariant tries < 4 ==> Resumes(whole, done, Credentials(), w', verb, target, body, MaxAttempts - tries)
        invariant tries == 4 ==>
          whole.token == Credentials() && whole.world == w' && whole.effects == done && Last(whole.replies) == reply
      {
        RetryResume(whole, done, Credentials(), w', verb, target, body, MaxAttempts - tries);
        ghost var a := Attempt(Credentials(), w', verb, target, body);
        ghost var logged := log;
        reply, w' := TryOnce(verb, target, body, w');
        assert reply == a.reply && Credentials() == a.token && w' == a.world;
        LogsCompose(old(log), done, a.effects, logged, log);
        done := done + a.effects;
        if TooManyRequests(reply) {
          tries := tries + 1;
        } else {
          break;
        }
      }
    }

    /** The bookkeeping of `request_bucket`, at time `now`: only a reply that passes
        `raise_for_status` counts; the headers are read in turn and the first one missing
        or malformed ends the update, leaving the fields set so far. */
    method RecordReply(reply: Reply, now: real)
      modifies this
      ensures Bucket() == Record(old(Bucket()), reply, now)
      ensures Credentials() == old(Credentials()) && log == old(log)
    {
      if reply.Response? && !ErrorStatus(reply) {
        lastRequest := now;
        if reply.headers.bucketLevel.Some? {
          var h := reply.headers.bucketLevel.value;
          bucketLevel := Some(h.raw);
          if h.split.Some? {
            var (requested, total) := h.split.value;
            availability := total - requested;
            if reply.headers.dripRate.Some? {
              bucketRate := reply.headers.dripRate.value;
            }
          }
        }
      }
    }

    /** `request_bucket(method, url, data)`. */
    method RequestBucket(verb: string, target: Json, body: Option<Json>, w: World) returns (outcome: Result<Json>, w': World)
      modifies this
      ensures var r := Request(old(State()), w, verb, target, body);
        && outcome == r.outcome && State() == r.state && w' == r.world
        && log == old(log) + r.effects
    {
      ghost var s0 := State();
      ghost var log0 := log;
      ghost var a := Admit(s0.bucket, w.clock, Cost(verb));
      var admitted, now := AwaitCapacity(verb, w);
      if !admitted {
        return Raised(ZeroDivision), w;
      }
      ghost var t := Retry(s0.token, now, verb, target, body, MaxAttempts);
      ghost var admissionLog := log;
      RequestAdmitted(s0, w, verb, target, body);
      var reply;
      reply, now := SendWithRetries(verb, target, body, now);
      LogsCompose(log0, AdmissionLog(a), t.effects, admissionLog, log);
      RecordReply(reply, now.clock);
      outcome := Deliver(reply);
      w' := now;
    }

    /** `next_page` (key "next") and `previous_page` (key "previous"). */
    method FollowPage(resp: Json, key: string, w: World) returns (outcome: Result<Json>, w': World)
      modifies this
      ensures var r := FollowLink(old(State()), w, resp, key);
        && outcome == r.outcome && State() == r.state && w' == r.world
        && log == old(log) + r.effects
    {
      var has := HasLink(resp, key);
      if has.Raised? {
        return Raised(has.fault), w;
      }
      if has.value {
        var target := resp.fields["@attributes"].fields[key];
        outcome, w' := RequestBucket("get", target, None, w);
      } else {
        outcome, w' := Ok(Null), w;
      }
    }

    method NextPage(resp: Json, w: World) returns (outcome: Result<Json>, w': World)
      modifies this
      ensures var r := FollowLink(old(State()), w, resp, "next");
        && outcome == r.outcome && State() == r.state && w' == r.world
        && log == old(log) + r.effects
    {
      outcome, w' := FollowPage(resp, "next", w);
    }

    method PreviousPage(resp: Json, w: World) returns (outcome: Result<Json>, w': World)
      modifies this
      ensures var r := FollowLink(old(State()), w, resp, "previous");
        && outcome == r.outcome && State() == r.state && w' == r.world
        && log == old(log) + r.effects
    {
      outcome, w' := FollowPage(resp, "previous", w);
    }

    /** The `while next_resp` loop of `get_paginated` after the page `prev` was yielded:
        the pages it yields, in order, and why it stopped. */
    method DrainPages(prev: Json, source: string, keep: bool, w: World) returns (pages: seq<Json>, stop: Stop, w': World)
      modifies this
      ensures var d := Drain(old(State()), w, prev, source, keep);
        && pages == d.pages && stop == d.stop && State() == d.state && w' == d.world
        && log == old(log) + d.effects
    {
      pages := [];
      ghost var s0 := State();
      ghost var w0 := w;
      ghost var whole := Drain(s0, w0, prev, source, keep);
      ghost var done: seq<Effect> := [];
      ghost var effects := FollowLink(s0, w0, prev, "next").effects;
      PendingStart(s0, w0, prev, source, keep);
      var last := prev;
      var nextResp;
      nextResp, w' := NextPage(last, w);
      while nextResp.Ok? && Truthy(nextResp.value)
        invariant log == old(log) + effects
        invariant Pending(whole, pages, done, s0, w0, last, source, keep, nextResp, State(), w', effects)
        decreases |w'.exchanges| + (if nextResp.Ok? && Truthy(nextResp.value) then 1 else 0)
      {
        var p := Page(nextResp.value, source, keep);
        if p.Raised? {
          PendingFinish(whole, pages, done, s0, w0, last, source, keep, nextResp, State(), w', effects);
          return pages, SourceMissing, w';
        }
        PendingStep(whole, pages, done, s0, w0, last, source, keep, nextResp, State(), w', effects);
        ghost var logged := log;
        done := effects;
        pages := pages + [p.value];
        last := nextResp.value;
        s0, w0 := State(), w';
        nextResp, w' := NextPage(last, w');
        effects := effects + FollowLink(s0, w0, last, "next").effects;
        LogsCompose(old(log), done, FollowLink(s0, w0, last, "next").effects, logged, log);
      }
      PendingFinish(whole, pages, done, s0, w0, last, source, keep, nextResp, State(), w', effects);
      stop := StopAfter(nextResp, last, source, keep);
    }

    /** `get_paginated(source, id_, parameters, keep_attributes)` driven to its end:
        the pages it yields, in order, and why it stopped. */
    method GetPaginated(source: string, id: Id, params: Params, keep: bool, w: World)
      returns (pages: seq<Json>, stop: Stop, w': World)
      modifies this
      ensures var r := Paginate(old(State()), w, apiUrl, source, id, params, keep);
        && pages == r.pages && stop == r.stop && State() == r.state && w' == r.world
        && log == old(log) + r.effects
    {
      var url := BuildUrl(apiUrl, source, id, params, true);
      if url.Raised? {
        return [], Failed(url.fault), w;
      }
      var resp, now := RequestBucket("get", Str(url.value), None, w);
      if resp.Raised? {
        return [], Failed(resp.fault), now;
      }
      var first := Page(resp.value, source, keep);
      if first.Raised? {
        return [], Failed(first.fault), now;
      }
      ghost var logged := log;
      ghost var q := Request(old(State()), w, "get", Str(url.value), None);
      var rest;
      rest, stop, w' := DrainPages(resp.value, source, keep, now);
      pages := [first.value] + rest;
      LogsCompose(old(log), q.effects, Drain(q.state, q.world, resp.value, source, keep).effects, logged, log);
    }

    /** `get(source, id_, parameters, keep_attributes)`: the items of every list page and
        every dict page, in page order. */
    method Get(source: string, id: Id, params: Params, keep: bool, w: World) returns (outcome: Result<seq<Json>>, w': World)
      modifies this
      ensures var r := Paginate(old(State()), w, apiUrl, source, id, params, keep);
        && outcome == Collect(r) && State() == r.state && w' == r.world
        && log == old(log) + r.effects
    {
      var pages, stop;
      pages, stop, w' := GetPaginated(source, id, params, keep, w);
      if stop.Failed? {
        return Raised(stop.fault), w';
      }
      var data := Gather(pages);
      outcome := Ok(data);
    }

    /** `put(source, data, id_, parameters)`. */
    method Put(source: string, data: Json, id: Id, params: Params, w: World) returns (outcome: Result<Json>, w': World)
      modifies this
      ensures var r := Submit(old(State()), w, apiUrl, "put", source, id, params, Some(data));
        && outcome == r.outcome && State() == r.state && w' == r.world
        && log == old(log) + r.effects
    {
      var url := BuildUrl(apiUrl, source, id, params, false);
      if url.Raised? {
        return Raised(url.fault), w;
      }
      outcome, w' := RequestBucket("put", Str(url.value), Some(data), w);
    }

    /** `post(source, data, parameters)`: never addressed by id. */
    method Post(source: string, data: Json, params: Params, w: World) returns (outcome: Result<Json>, w': World)
      modifies this
      ensures var r := Submit(old(State()), w, apiUrl, "post", source, NoId, params, Some(data));
        && outcome == r.outcome && State() == r.state && w' == r.world
        && log == old(log) + r.effects
    {
      var url := BuildUrl(apiUrl, source, NoId, params, false);
      if url.Raised? {
        return Raised(url.fault), w;
      }
      outcome, w' := RequestBucket("post", Str(url.value), Some(data), w);
    }

    /** `delete(source, id_, parameters)`: sent without a body. */
    method Delete(source: string, id: Id, params: Params, w: World) returns (outcome: Result<Json>, w': World)
      modifies this
      ensures var r := Submit(old(State()), w, apiUrl, "delete", source, id, params, None);
        && outcome == r.outcome && State() == r.state && w' == r.world
        && log == old(log) + r.effects
    {
      var url := BuildUrl(apiUrl, source, id, params, false);
      if url.Raised? {
        return Raised(url.fault), w;
      }
      outcome, w' := RequestBucket("delete", Str(url.value), None, w);
    }

    /** `create`, kept for compatibility: the same as `post`. */
    method Create(source: string, data: Json, params: Params, w: World) returns (outcome: Result<Json>, w': World)
      modifies this
      ensures var r := Submit(old(State()), w, apiUrl, "post", source, NoId, params, Some(data));
        && outcome == r.outcome && State() == r.state && w' == r.world
        && log == old(log) + r.effects
    {
      outcome, w' := Post(source, data, params, w);
    }

    /** `update`, kept for compatibility: the same as `put`. */
    method Update(source: string, data: Json, id: Id, params: Params, w: World) returns (outcome: Result<Json>, w': World)
      modifies this
      ensures var r := Submit(old(State()), w, apiUrl, "put", source, id, params, Some(data));
        && outcome == r.outcome && State() == r.state && w' == r.world
        && log == old(log) + r.effects
    {
      outcome, w' := Put(source, data, id, params, w);
    }
  }
}
