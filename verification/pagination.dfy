/** Cursor pagination of `Lightspeed.get_paginated` and `get`: following the
    `@attributes.next` links page after page, and flattening the pages. */
module Pagination {
  import opened Base
  import opened Json
  import opened Net
  import opened Url
  import opened Dispatch

  /** What `resp.get('@attributes', {}).get(key, {})` finds: a truthy link, nothing
      truthy, or an AttributeError because something on the way is not an object. */
  datatype Link = NoLink | Link(target: Json) | Unreadable

  function LinkOf(resp: Json, key: string): (l: Link)
    ensures l.Unreadable? <==>
      !resp.Object? || ("@attributes" in resp.fields && !resp.fields["@attributes"].Object?)
    ensures l.Link? <==>
      && resp.Object? && "@attributes" in resp.fields && resp.fields["@attributes"].Object?
      && key in resp.fields["@attributes"].fields && Truthy(resp.fields["@attributes"].fields[key])
    ensures l.Link? ==> l.target == resp.fields["@attributes"].fields[key]
  {
    match resp
    case Object(fields) =>
      (match GetOr(fields, "@attributes", Object(map[]))
       case Object(attributes) =>
         var v := GetOr(attributes, key, Object(map[]));
         if Truthy(v) then Link(v) else NoLink
       case _ => Unreadable)
    case _ => Unreadable
  }

  /** `has_next` (key "next") and `has_previous` (key "previous"). */
  function HasLink(resp: Json, key: string): (r: Result<bool>)
    ensures r == Ok(true) <==> LinkOf(resp, key).Link?
    ensures r == Ok(false) <==> LinkOf(resp, key).NoLink?
    ensures r.Raised? ==> r.fault == NoGetMethod
  {
    match LinkOf(resp, key)
    case Link(_) => Ok(true)
    case NoLink => Ok(false)
    case Unreadable => Raised(NoGetMethod)
  }

  /** `next_page` (key "next") and `previous_page` (key "previous"): a GET of the link
      exactly as the server wrote it, or None (JSON null) without any request. */
  function FollowLink(s: ClientState, w: World, resp: Json, key: string): (r: Dispatched)
    ensures !LinkOf(resp, key).Link? ==> r.state == s && r.world == w && r.effects == [] && r.replies == []
    ensures LinkOf(resp, key).NoLink? ==> r.outcome == Ok(Null)
    ensures LinkOf(resp, key).Unreadable? ==> r.outcome == Raised(NoGetMethod)
    ensures LinkOf(resp, key).Link? ==> r == Request(s, w, "get", LinkOf(resp, key).target, None)
    ensures |r.world.exchanges| <= |w.exchanges|
    ensures r.outcome.Ok? && Truthy(r.outcome.value) ==> |r.world.exchanges| < |w.exchanges|
  {
    match LinkOf(resp, key)
    case Link(target) => Request(s, w, "get", target, None)
    case NoLink => Dispatched(Ok(Null), s, w, [], [])
    case Unreadable => Dispatched(Raised(NoGetMethod), s, w, [], [])
  }

  /** What a page yields: the whole response, or only its `source` field when
      attributes are not kept. */
  function Page(raw: Json, source: string, keep: bool): (r: Result<Json>)
    ensures r.Ok? <==> keep || (raw.Object? && source in raw.fields)
    ensures r.Ok? ==> r.value == if keep then raw else raw.fields[source]
  {
    if keep then Ok(raw) else Index(raw, source)
  }

  /** `page` is what the truthy response `raw` yields. */
  predicate Yields(raw: Json, page: Json, source: string, keep: bool)
  {
    Truthy(raw) && Page(raw, source, keep) == Ok(page)
  }

  /** Why the iteration ended. */
  datatype Stop =
    | NoNextLink          // the last page had no truthy next link
    | FalsyResponse       // the next request answered with a falsy value
    | SourceMissing       // the next response could not be indexed by `source`
    | Failed(fault: Fault)  // an exception escaped the generator

  /** The yielded pages, the raw response behind each, the target each was fetched from,
      why iteration stopped, the last answer the generator looked at (the one that
      stopped it), and the client state, world and log after it. */
  datatype PageRun = PageRun(pages: seq<Json>, raws: seq<Json>, targets: seq<Json>, stop: Stop,
                             final: Result<Json>, state: ClientState, world: World, effects: seq<Effect>)

  function Extend(page: Json, raw: Json, target: Json, effects: seq<Effect>, run: PageRun): PageRun
  {
    run.(pages := [page] + run.pages, raws := [raw] + run.raws, targets := [target] + run.targets,
         effects := effects + run.effects)
  }

  /** The last response seen: the newest raw page, or `prev` when there is none. */
  function Newest(prev: Json, raws: seq<Json>): Json
  {
    if raws == [] then prev else Last(raws)
  }

  /** The `while next_resp` loop after the page `prev` has been yielded. */
  function Drain(s: ClientState, w: World, prev: Json, source: string, keep: bool): (r: PageRun)
    ensures |r.pages| == |r.raws| == |r.targets|
    ensures |r.world.exchanges| <= |w.exchanges|
    decreases |w.exchanges|
  {
    var n := FollowLink(s, w, prev, "next");
    match n.outcome
    case Raised(f) => PageRun([], [], [], Failed(f), n.outcome, n.state, n.world, n.effects)
    case Ok(v) =>
      if LinkOf(prev, "next").NoLink? then
        PageRun([], [], [], NoNextLink, n.outcome, n.state, n.world, n.effects)
      else if !Truthy(v) then
        PageRun([], [], [], FalsyResponse, n.outcome, n.state, n.world, n.effects)
      else
        match Page(v, source, keep)
        case Raised(_) => PageRun([], [], [], SourceMissing, n.outcome, n.state, n.world, n.effects)
        case Ok(p) =>
          var rest := Drain(n.state, n.world, v, source, keep);
          Extend(p, v, LinkOf(prev, "next").target, n.effects, rest)
  }

  /** Why the loop stops after the followed link answered `outcome`, when it does. */
  function StopAfter(outcome: Result<Json>, prev: Json, source: string, keep: bool): (r: Stop)
    ensures r.Failed? <==> outcome.Raised?
    ensures r.Failed? ==> r.fault == outcome.fault
    ensures r == NoNextLink <==> outcome.Ok? && LinkOf(prev, "next").NoLink?
    ensures r == FalsyResponse <==> outcome.Ok? && !LinkOf(prev, "next").NoLink? && !Truthy(outcome.value)
    ensures r == SourceMissing <==> outcome.Ok? && !LinkOf(prev, "next").NoLink? && Truthy(outcome.value)
  {
    match outcome
    case Raised(f) => Failed(f)
    case Ok(v) =>
      if LinkOf(prev, "next").NoLink? then NoNextLink
      else if !Truthy(v) then FalsyResponse
      else SourceMissing
  }

  /** One turn of the loop: when the followed link answers with a truthy response that
      yields a page, that page heads what the rest of the loop yields; otherwise nothing
      more is yielded. */
  lemma DrainStep(s: ClientState, w: World, prev: Json, source: string, keep: bool)
    ensures var n := FollowLink(s, w, prev, "next");
      if n.outcome.Ok? && LinkOf(prev, "next").Link? && Truthy(n.outcome.value)
         && Page(n.outcome.value, source, keep).Ok? then
        && |n.world.exchanges| < |w.exchanges|
        && Drain(s, w, prev, source, keep)
           == Extend(Page(n.outcome.value, source, keep).value, n.outcome.value,
                     LinkOf(prev, "next").target, n.effects,
                     Drain(n.state, n.world, n.outcome.value, source, keep))
      else
        Drain(s, w, prev, source, keep)
          == PageRun([], [], [], StopAfter(n.outcome, prev, source, keep), n.outcome, n.state, n.world, n.effects)
  {
  }

  /** `whole` is what remains of `d` after `pages` were yielded and `effects` happened. */
  predicate Continues(whole: PageRun, pages: seq<Json>, effects: seq<Effect>, d: PageRun)
  {
    && whole.pages == pages + d.pages && whole.stop == d.stop && whole.final == d.final && whole.state == d.state
    && whole.world == d.world && whole.effects == effects + d.effects
  }

  /** Yielding one more page moves it, and the log of the turn that fetched it, from
      what remains to what is done. */
  lemma ContinuesExtend(whole: PageRun, pages: seq<Json>, effects: seq<Effect>,
                        p: Json, raw: Json, target: Json, turn: seq<Effect>, rest: PageRun)
    requires Continues(whole, pages, effects, Extend(p, raw, target, turn, rest))
    ensures Continues(whole, pages + [p], effects + turn, rest)
  {
    assert pages + ([p] + rest.pages) == (pages + [p]) + rest.pages;
    assert effects + (turn + rest.effects) == (effects + turn) + rest.effects;
  }

  /** After a truthy response that yields a page, the loop continues from that response. */
  lemma DrainResume(s: ClientState, w: World, prev: Json, source: string, keep: bool,
                    whole: PageRun, pages: seq<Json>, effects: seq<Effect>)
    requires Continues(whole, pages, effects, Drain(s, w, prev, source, keep))
    requires var n := FollowLink(s, w, prev, "next");
      n.outcome.Ok? && Truthy(n.outcome.value) && Page(n.outcome.value, source, keep).Ok?
    ensures var n := FollowLink(s, w, prev, "next");
      Continues(whole, pages + [Page(n.outcome.value, source, keep).value], effects + n.effects,
                Drain(n.state, n.world, n.outcome.value, source, keep))
  {
    DrainStep(s, w, prev, source, keep);
    var n := FollowLink(s, w, prev, "next");
    var v := n.outcome.value;
    ContinuesExtend(whole, pages, effects, Page(v, source, keep).value, v, LinkOf(prev, "next").target,
                    n.effects, Drain(n.state, n.world, v, source, keep));
  }

  /** When the followed link answers with a failure, a falsy response or one without
      `source`, the loop has yielded everything. */
  lemma DrainFinish(s: ClientState, w: World, prev: Json, source: string, keep: bool,
                    whole: PageRun, pages: seq<Json>, effects: seq<Effect>)
    requires Continues(whole, pages, effects, Drain(s, w, prev, source, keep))
    requires var n := FollowLink(s, w, prev, "next");
      !(n.outcome.Ok? && Truthy(n.outcome.value) && Page(n.outcome.value, source, keep).Ok?)
    ensures var n := FollowLink(s, w, prev, "next");
      && whole.pages == pages && whole.stop == StopAfter(n.outcome, prev, source, keep)
      && whole.final == n.outcome && whole.state == n.state && whole.world == n.world && whole.effects == effects + n.effects
  {
    DrainStep(s, w, prev, source, keep);
  }

  /** The loop, having yielded `pages` after `done`, is about to look at `outcome`, which
      following `last`'s next link from `s0`, `w0` produced together with the state `s`,
      the world `w` and the log so far, `effects`; `whole` is the loop run from its start. */
  predicate Pending(whole: PageRun, pages: seq<Json>, done: seq<Effect>, s0: ClientState, w0: World,
                    last: Json, source: string, keep: bool,
                    outcome: Result<Json>, s: ClientState, w: World, effects: seq<Effect>)
  {
    var n := FollowLink(s0, w0, last, "next");
    && outcome == n.outcome && s == n.state && w == n.world && effects == done + n.effects
    && Continues(whole, pages, done, Drain(s0, w0, last, source, keep))
  }

  /** The loop starts having yielded nothing, looking at what following `prev`'s next link gives. */
  lemma PendingStart(s: ClientState, w: World, prev: Json, source: string, keep: bool)
    ensures var n := FollowLink(s, w, prev, "next");
      Pending(Drain(s, w, prev, source, keep), [], [], s, w, prev, source, keep, n.outcome, n.state, n.world, n.effects)
  {
    var d := Drain(s, w, prev, source, keep);
    assert [] + d.pages == d.pages && [] + d.effects == d.effects;
  }

  /** A truthy response with a page: the loop yields it and follows its next link. */
  lemma PendingStep(whole: PageRun, pages: seq<Json>, done: seq<Effect>, s0: ClientState, w0: World,
                    last: Json, source: string, keep: bool,
                    outcome: Result<Json>, s: ClientState, w: World, effects: seq<Effect>)
    requires Pending(whole, pages, done, s0, w0, last, source, keep, outcome, s, w, effects)
    requires outcome.Ok? && Truthy(outcome.value) && Page(outcome.value, source, keep).Ok?
    ensures var n := FollowLink(s, w, outcome.value, "next");
      Pending(whole, pages + [Page(outcome.value, source, keep).value], effects, s, w, outcome.value, source, keep,
              n.outcome, n.state, n.world, effects + n.effects)
  {
    DrainResume(s0, w0, last, source, keep, whole, pages, done);
  }

  /** Anything else: the loop has yielded everything. */
  lemma PendingFinish(whole: PageRun, pages: seq<Json>, done: seq<Effect>, s0: ClientState, w0: World,
                      last: Json, source: string, keep: bool,
                      outcome: Result<Json>, s: ClientState, w: World, effects: seq<Effect>)
    requires Pending(whole, pages, done, s0, w0, last, source, keep, outcome, s, w, effects)
    requires !(outcome.Ok? && Truthy(outcome.value) && Page(outcome.value, source, keep).Ok?)
    ensures whole == PageRun(pages, whole.raws, whole.targets, StopAfter(outcome, last, source, keep), outcome, s, w, effects)
  {
    DrainFinish(s0, w0, last, source, keep, whole, pages, done);
  }

  /** Every page of `r` is what its truthy response yields. */
  predicate YieldsAll(r: PageRun, source: string, keep: bool)
  {
    |r.pages| == |r.raws| && forall i | 0 <= i < |r.raws| :: Yields(r.raws[i], r.pages[i], source, keep)
  }

  /** Each response of `r` was fetched from the next link of the one before it, the first
      from `prev`'s. */
  predicate LinksFrom(prev: Json, r: PageRun)
  {
    |r.raws| == |r.targets| &&
    forall i | 0 <= i < |r.targets| :: LinkOf(if i == 0 then prev else r.raws[i - 1], "next") == Link(r.targets[i])
  }

  /** The run stops because of the last answer it looked at, which is never a truthy
      response yielding a page behind a next link; it stops for want of a next link
      exactly when its newest response has none, and a missing `source` stops it only
      when attributes are not kept. */
  predicate StopsRight(prev: Json, r: PageRun, source: string, keep: bool)
  {
    var newest := Newest(prev, r.raws);
    && r.stop == StopAfter(r.final, newest, source, keep)
    && !(r.final.Ok? && LinkOf(newest, "next").Link? && Truthy(r.final.value) && Page(r.final.value, source, keep).Ok?)
    && (LinkOf(newest, "next").NoLink? ==> r.final == Ok(Null))
    && (LinkOf(newest, "next").Unreadable? ==> r.final == Raised(NoGetMethod))
    && (r.stop == NoNextLink <==> LinkOf(newest, "next").NoLink?)
    && (r.stop == SourceMissing ==> !keep)
  }

  lemma ExtendYields(p: Json, raw: Json, target: Json, effects: seq<Effect>, rest: PageRun, source: string, keep: bool)
    requires Yields(raw, p, source, keep) && YieldsAll(rest, source, keep)
    ensures YieldsAll(Extend(p, raw, target, effects, rest), source, keep)
  {
    var r := Extend(p, raw, target, effects, rest);
    forall i | 0 < i < |r.raws|
      ensures Yields(r.raws[i], r.pages[i], source, keep)
    {
      assert r.raws[i] == rest.raws[i - 1] && r.pages[i] == rest.pages[i - 1];
    }
  }

  lemma ExtendLinks(p: Json, raw: Json, target: Json, effects: seq<Effect>, rest: PageRun, prev: Json)
    requires LinkOf(prev, "next") == Link(target) && LinksFrom(raw, rest)
    ensures LinksFrom(prev, Extend(p, raw, target, effects, rest))
  {
    var r := Extend(p, raw, target, effects, rest);
    forall i | 0 < i < |r.targets|
      ensures LinkOf(r.raws[i - 1], "next") == Link(r.targets[i])
    {
      assert r.targets[i] == rest.targets[i - 1];
      assert r.raws[i - 1] == if i == 1 then raw else rest.raws[i - 2];
    }
  }

  lemma ExtendStops(p: Json, raw: Json, target: Json, effects: seq<Effect>, rest: PageRun, prev: Json, source: string, keep: bool)
    requires StopsRight(raw, rest, source, keep)
    ensures StopsRight(prev, Extend(p, raw, target, effects, rest), source, keep)
  {
    assert Newest(prev, [raw] + rest.raws) == Newest(raw, rest.raws);
  }

  /** Every page the loop yields is the selection of a truthy response. */
  lemma {:induction false} DrainYields(s: ClientState, w: World, prev: Json, source: string, keep: bool)
    ensures YieldsAll(Drain(s, w, prev, source, keep), source, keep)
    decreases |w.exchanges|
  {
    DrainStep(s, w, prev, source, keep);
    var n := FollowLink(s, w, prev, "next");
    if n.outcome.Ok? && LinkOf(prev, "next").Link? && Truthy(n.outcome.value)
       && Page(n.outcome.value, source, keep).Ok? {
      var v := n.outcome.value;
      DrainYields(n.state, n.world, v, source, keep);
      ExtendYields(Page(v, source, keep).value, v, LinkOf(prev, "next").target, n.effects,
                   Drain(n.state, n.world, v, source, keep), source, keep);
    }
  }

  /** Each target the loop records is the next link of the response before it (the first,
      of `prev`). */
  lemma {:induction false} DrainFollowsLinks(s: ClientState, w: World, prev: Json, source: string, keep: bool)
    ensures LinksFrom(prev, Drain(s, w, prev, source, keep))
    decreases |w.exchanges|
  {
    DrainStep(s, w, prev, source, keep);
    var n := FollowLink(s, w, prev, "next");
    if n.outcome.Ok? && LinkOf(prev, "next").Link? && Truthy(n.outcome.value)
       && Page(n.outcome.value, source, keep).Ok? {
      var v := n.outcome.value;
      DrainFollowsLinks(n.state, n.world, v, source, keep);
      ExtendLinks(Page(v, source, keep).value, v, LinkOf(prev, "next").target, n.effects,
                  Drain(n.state, n.world, v, source, keep), prev);
    }
  }

  /** The loop ends because of the answer to the newest response's next link, and never
      while that answer is a truthy response yielding a page; it ends for want of a next
      link exactly when the newest response has none, and a missing `source` ends it only
      when attributes are not kept. */
  lemma {:induction false} DrainStops(s: ClientState, w: World, prev: Json, source: string, keep: bool)
    ensures StopsRight(prev, Drain(s, w, prev, source, keep), source, keep)
    decreases |w.exchanges|
  {
    DrainStep(s, w, prev, source, keep);
    var n := FollowLink(s, w, prev, "next");
    if n.outcome.Ok? && LinkOf(prev, "next").Link? && Truthy(n.outcome.value)
       && Page(n.outcome.value, source, keep).Ok? {
      var v := n.outcome.value;
      DrainStops(n.state, n.world, v, source, keep);
      ExtendStops(Page(v, source, keep).value, v, LinkOf(prev, "next").target, n.effects,
                  Drain(n.state, n.world, v, source, keep), prev, source, keep);
    }
  }

  /** `get_paginated(source, id_, parameters, keep_attributes)`, run to the end: the URL is
      built with encoding, the first response is yielded (a missing `source` on it raises),
      then the next links are followed. */
  function Paginate(s: ClientState, w: World, apiUrl: string, source: string, id: Id, params: Params, keep: bool): (r: PageRun)
    ensures |r.pages| == |r.raws| == |r.targets|
    ensures BuildUrl(apiUrl, source, id, params, true).Raised? ==>
      var f := BuildUrl(apiUrl, source, id, params, true).fault;
      r == PageRun([], [], [], Failed(f), Raised(f), s, w, [])
    ensures BuildUrl(apiUrl, source, id, params, true).Ok? ==>
      var url := BuildUrl(apiUrl, source, id, params, true).value;
      var q := Request(s, w, "get", Str(url), None);
      if q.outcome.Ok? && Page(q.outcome.value, source, keep).Ok? then
        && r.raws != [] && r.raws[0] == q.outcome.value && r.targets[0] == Str(url)
        && r.pages[0] == Page(q.outcome.value, source, keep).value
      else
        r.pages == [] && r.stop.Failed?
  {
    match BuildUrl(apiUrl, source, id, params, true)
    case Raised(f) => PageRun([], [], [], Failed(f), Raised(f), s, w, [])
    case Ok(url) =>
      var q := Request(s, w, "get", Str(url), None);
      match q.outcome
      case Raised(f) => PageRun([], [], [], Failed(f), q.outcome, q.state, q.world, q.effects)
      case Ok(first) =>
        match Page(first, source, keep)
        case Raised(f) => PageRun([], [], [], Failed(f), q.outcome, q.state, q.world, q.effects)
        case Ok(p) => Extend(p, first, Str(url), q.effects, Drain(q.state, q.world, first, source, keep))
  }

  /** Prepending the first page to what the loop yields keeps pages, raws and links in step. */
  lemma ExtendFollowsLinks(p: Json, first: Json, target: Json, effects: seq<Effect>, rest: PageRun, source: string, keep: bool)
    requires Page(first, source, keep) == Ok(p)
    requires YieldsAll(rest, source, keep) && LinksFrom(first, rest)
    ensures var r := Extend(p, first, target, effects, rest);
      && Page(r.raws[0], source, keep) == Ok(r.pages[0])
      && (forall i | 0 < i < |r.raws| :: Yields(r.raws[i], r.pages[i], source, keep))
      && (forall i | 0 < i < |r.targets| :: LinkOf(r.raws[i - 1], "next") == Link(r.targets[i]))
      && Newest(first, rest.raws) == Last(r.raws)
  {
    var r := Extend(p, first, target, effects, rest);
    forall i | 0 < i < |r.raws|
      ensures Yields(r.raws[i], r.pages[i], source, keep)
    {
      assert r.raws[i] == rest.raws[i - 1] && r.pages[i] == rest.pages[i - 1];
    }
    forall i | 0 < i < |r.targets|
      ensures LinkOf(r.raws[i - 1], "next") == Link(r.targets[i])
    {
      assert r.targets[i] == rest.targets[i - 1];
      assert r.raws[i - 1] == if i == 1 then first else rest.raws[i - 2];
    }
  }

  /** The whole iteration: every page is the selection of its response (truthy after the
      first), every target after the first is the next link of the response before it,
      it ends for want of a link exactly when the last response has none, and once a page
      was yielded it ends because of the answer it last looked at, never a truthy
      response that yields a page behind a next link. */
  lemma PaginateFollowsLinks(s: ClientState, w: World, apiUrl: string, source: string, id: Id, params: Params, keep: bool)
    ensures var r := Paginate(s, w, apiUrl, source, id, params, keep);
      && (r.raws != [] ==> Page(r.raws[0], source, keep) == Ok(r.pages[0]))
      && (forall i | 0 < i < |r.raws| :: Yields(r.raws[i], r.pages[i], source, keep))
      && (forall i | 0 < i < |r.targets| :: LinkOf(r.raws[i - 1], "next") == Link(r.targets[i]))
      && (r.stop == NoNextLink <==> r.raws != [] && LinkOf(Last(r.raws), "next").NoLink?)
      && (r.stop == SourceMissing ==> !keep)
      && (r.raws != [] ==> r.stop == StopAfter(r.final, Last(r.raws), source, keep))
      && (r.raws != [] ==>
            !(r.final.Ok? && LinkOf(Last(r.raws), "next").Link? && Truthy(r.final.value)
              && Page(r.final.value, source, keep).Ok?))
  {
    var built := BuildUrl(apiUrl, source, id, params, true);
    if built.Ok? {
      var q := Request(s, w, "get", Str(built.value), None);
      if q.outcome.Ok? && Page(q.outcome.value, source, keep).Ok? {
        var first := q.outcome.value;
        DrainYields(q.state, q.world, first, source, keep);
        DrainFollowsLinks(q.state, q.world, first, source, keep);
        DrainStops(q.state, q.world, first, source, keep);
        var rest := Drain(q.state, q.world, first, source, keep);
        ExtendFollowsLinks(Page(first, source, keep).value, first, Str(built.value), q.effects, rest, source, keep);
      }
    }
  }

  /** Following a link sends only bodiless GETs, to that link as the server wrote it. */
  lemma FollowLinkGets(s: ClientState, w: World, resp: Json, key: string)
    ensures forall e | e in Requests(FollowLink(s, w, resp, key).effects) ::
      LinkOf(resp, key).Link? && e == Sent("get", LinkOf(resp, key).target, None)
  {
    if LinkOf(resp, key).Link? {
      RequestSends(s, w, "get", LinkOf(resp, key).target, None);
    }
  }

  /** Every request in `effects` is a bodiless GET to one of `targets`, or to the next
      link of `newest`. */
  predicate GetsOnly(effects: seq<Effect>, targets: seq<Json>, newest: Json)
  {
    forall e | e in Requests(effects) ::
      && e.verb == "get" && e.body == None
      && (e.target in targets || (LinkOf(newest, "next").Link? && e.target == LinkOf(newest, "next").target))
  }

  /** A turn whose requests all went to `target` keeps every request of the extended run
      a bodiless GET to a recorded target or to the newest response's next link. */
  lemma GetsExtend(p: Json, raw: Json, target: Json, turn: seq<Effect>, rest: PageRun, prev: Json)
    requires forall e | e in Requests(turn) :: e == Sent("get", target, None)
    requires GetsOnly(rest.effects, rest.targets, Newest(raw, rest.raws))
    ensures var r := Extend(p, raw, target, turn, rest);
      GetsOnly(r.effects, r.targets, Newest(prev, r.raws))
  {
    var r := Extend(p, raw, target, turn, rest);
    RequestsAppend(turn, rest.effects);
    assert Newest(prev, r.raws) == Newest(raw, rest.raws);
    assert forall t | t in rest.targets :: t in r.targets;
  }

  /** The loop only ever sends bodiless GETs: to the links it recorded as targets, and
      to the next link of the newest response (the request whose answer stopped it). */
  lemma {:induction false} DrainRequests(s: ClientState, w: World, prev: Json, source: string, keep: bool)
    ensures var r := Drain(s, w, prev, source, keep);
      GetsOnly(r.effects, r.targets, Newest(prev, r.raws))
    decreases |w.exchanges|
  {
    DrainStep(s, w, prev, source, keep);
    FollowLinkGets(s, w, prev, "next");
    var n := FollowLink(s, w, prev, "next");
    if n.outcome.Ok? && LinkOf(prev, "next").Link? && Truthy(n.outcome.value)
       && Page(n.outcome.value, source, keep).Ok? {
      var v := n.outcome.value;
      DrainRequests(n.state, n.world, v, source, keep);
      GetsExtend(Page(v, source, keep).value, v, LinkOf(prev, "next").target, n.effects,
                 Drain(n.state, n.world, v, source, keep), prev);
    }
  }

  /** `get_paginated` sends nothing when the URL cannot be built, and otherwise only
      bodiless GETs: to the encoded URL, to the links it followed, and to the next link
      of the last response. */
  lemma PaginateRequests(s: ClientState, w: World, apiUrl: string, source: string, id: Id, params: Params, keep: bool)
    ensures var r := Paginate(s, w, apiUrl, source, id, params, keep);
      var url := BuildUrl(apiUrl, source, id, params, true);
      forall e | e in Requests(r.effects) ::
        && url.Ok? && e.verb == "get" && e.body == None
        && (|| e.target == Str(url.value) || e.target in r.targets
            || (r.raws != [] && LinkOf(Last(r.raws), "next").Link? && e.target == LinkOf(Last(r.raws), "next").target))
  {
    var url := BuildUrl(apiUrl, source, id, params, true);
    if url.Ok? {
      var q := Request(s, w, "get", Str(url.value), None);
      RequestSends(s, w, "get", Str(url.value), None);
      if q.outcome.Ok? && Page(q.outcome.value, source, keep).Ok? {
        var first := q.outcome.value;
        var rest := Drain(q.state, q.world, first, source, keep);
        DrainRequests(q.state, q.world, first, source, keep);
        var r := Extend(Page(first, source, keep).value, first, Str(url.value), q.effects, rest);
        GetsExtend(Page(first, source, keep).value, first, Str(url.value), q.effects, rest, first);
        assert Newest(first, r.raws) == Last(r.raws);
      }
    }
  }

  /** Every scripted reply is a 200 without rate-limit headers, carrying a JSON body. */
  predicate PlainReplies(xs: seq<Exchange>)
  {
    forall i | 0 <= i < |xs| ::
      && xs[i].reply.Response? && xs[i].reply.status == 200
      && xs[i].reply.headers == Headers(None, None) && xs[i].reply.body.Some?
  }

  /** Each of `raws` is the body of the scripted reply in the same position. */
  predicate AnswersFrom(raws: seq<Json>, xs: seq<Exchange>)
  {
    |raws| <= |xs| && forall i | 0 <= i < |raws| :: xs[i].reply.Response? && xs[i].reply.body == Some(raws[i])
  }

  /** A response read from the first reply, before responses read from the rest. */
  lemma AnswersPrepend(raw: Json, raws: seq<Json>, xs: seq<Exchange>)
    requires xs != [] && xs[0].reply.Response? && xs[0].reply.body == Some(raw)
    requires AnswersFrom(raws, xs[1..])
    ensures AnswersFrom([raw] + raws, xs)
  {
    forall i | 0 < i < |raws| + 1
      ensures xs[i].reply.Response? && xs[i].reply.body == Some(([raw] + raws)[i])
    {
      assert xs[i] == xs[1..][i - 1];
    }
  }

  /** Against a script of plain 200 replies, with units to spare, each response the loop
      reads is the body the server sent for the request in that position, in order. */
  lemma {:induction false} DrainAnswers(s: ClientState, w: World, prev: Json, source: string, keep: bool)
    requires s.bucket.availability >= 1.0 && PlainReplies(w.exchanges)
    ensures AnswersFrom(Drain(s, w, prev, source, keep).raws, w.exchanges)
    decreases |w.exchanges|
  {
    DrainStep(s, w, prev, source, keep);
    var n := FollowLink(s, w, prev, "next");
    if n.outcome.Ok? && LinkOf(prev, "next").Link? && Truthy(n.outcome.value)
       && Page(n.outcome.value, source, keep).Ok? {
      assert w.exchanges != [];
      var x := w.exchanges[0].reply;
      ScriptedGet(s, w, LinkOf(prev, "next").target, x.body.value);
      var v := n.outcome.value;
      assert PlainReplies(n.world.exchanges) by {
        forall i | 0 <= i < |n.world.exchanges|
          ensures n.world.exchanges[i] == w.exchanges[i + 1]
        {
        }
      }
      DrainAnswers(n.state, n.world, v, source, keep);
      AnswersPrepend(v, Drain(n.state, n.world, v, source, keep).raws, w.exchanges);
    }
  }

  /** Against a script of plain 200 replies, on a bucket with units to spare, every response
      `get_paginated` reads, the first included, is the body the server sent for the
      request in that position, in order. */
  lemma PaginateAnswers(s: ClientState, w: World, apiUrl: string, source: string, id: Id, params: Params, keep: bool)
    requires s.bucket.availability >= 1.0 && PlainReplies(w.exchanges)
    ensures AnswersFrom(Paginate(s, w, apiUrl, source, id, params, keep).raws, w.exchanges)
  {
    var url := BuildUrl(apiUrl, source, id, params, true);
    if url.Ok? {
      var q := Request(s, w, "get", Str(url.value), None);
      if q.outcome.Ok? && Page(q.outcome.value, source, keep).Ok? {
        assert w.exchanges != [];
        ScriptedGet(s, w, Str(url.value), w.exchanges[0].reply.body.value);
        var first := q.outcome.value;
        assert PlainReplies(q.world.exchanges) by {
          forall i | 0 <= i < |q.world.exchanges|
            ensures q.world.exchanges[i] == w.exchanges[i + 1]
          {
          }
        }
        DrainAnswers(q.state, q.world, first, source, keep);
        AnswersPrepend(first, Drain(q.state, q.world, first, source, keep).raws, w.exchanges);
      }
    }
  }

  /** What `get` adds to its list for one page: a list's items, a dict itself, nothing else. */
  function Contribution(page: Json): (r: seq<Json>)
    ensures page.Array? ==> r == page.items
    ensures page.Object? ==> r == [page]
    ensures !page.Array? && !page.Object? ==> r == []
  {
    match page
    case Array(items) => items
    case Object(_) => [page]
    case _ => []
  }

  /** `get`'s accumulation over the pages in order. */
  function Flatten(pages: seq<Json>): (r: seq<Json>)
    ensures (forall i | 0 <= i < |pages| :: !pages[i].Array? && !pages[i].Object?) ==> r == []
    ensures |pages| == 1 ==> r == Contribution(pages[0])
  {
    if pages == [] then [] else Contribution(pages[0]) + Flatten(pages[1..])
  }

  /** Flattening respects page order: the pages of a prefix come first. */
  lemma {:induction false} FlattenAppend(a: seq<Json>, b: seq<Json>)
    ensures Flatten(a + b) == Flatten(a) + Flatten(b)
  {
    if a == [] {
      assert a + b == b;
    } else {
      assert (a + b)[1..] == a[1..] + b;
      FlattenAppend(a[1..], b);
    }
  }

  /** An item is in the flattened list exactly when some page contributes it. */
  lemma {:induction false} FlattenMembers(pages: seq<Json>, x: Json)
    ensures x in Flatten(pages) <==> exists i | 0 <= i < |pages| :: x in Contribution(pages[i])
  {
    if pages != [] {
      FlattenMembers(pages[1..], x);
      if x in Flatten(pages[1..]) {
        var i :| 0 <= i < |pages[1..]| && x in Contribution(pages[1..][i]);
        assert pages[i + 1] == pages[1..][i];
      }
      if exists i | 0 <= i < |pages| :: x in Contribution(pages[i]) {
        var i :| 0 <= i < |pages| && x in Contribution(pages[i]);
        if i > 0 {
          assert pages[1..][i - 1] == pages[i];
        }
      }
    }
  }

  /** A page that is neither a list nor a dict is dropped. */
  lemma FlattenDropsScalars(pages: seq<Json>, p: Json)
    requires !p.Array? && !p.Object?
    ensures Flatten(pages + [p]) == Flatten(pages)
  {
    FlattenAppend(pages, [p]);
    assert [p][1..] == [];
  }

  /** Two `Sale` pages of one sale each flatten to the two sales in page order. */
  lemma TwoSalePagesExample(sale1: Json, sale2: Json)
    ensures Flatten([Array([sale1]), Array([sale2])]) == [sale1, sale2]
  {
    var pages := [Array([sale1]), Array([sale2])];
    assert pages[1..] == [Array([sale2])];
    assert pages[1..][1..] == [];
    assert Flatten(pages[1..]) == [sale2] + Flatten([]);
  }
}
