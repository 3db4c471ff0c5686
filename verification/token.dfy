/** The bearer token of `Lightspeed.get_token` and `get_authorization_token`:
    refreshed lazily once the clock is strictly past its expiry. */
module Token {
  import opened Base
  import opened Net

  /** `token_expire_time` and `bearer_token`. */
  datatype TokenState = TokenState(expireTime: real, bearer: Option<string>)

  const OneDay: real := 86400.0

  /** A new client holds no token and an expiry one day in the past. */
  function Initial(now: real): (t: TokenState)
    ensures t.bearer == None && t.expireTime < now
  {
    TokenState(now - OneDay, None)
  }

  /** What `get_token` returns, the token state after it, the world after it, and its log entry. */
  datatype Checked = Checked(returned: Option<string>, token: TokenState, world: World, effects: seq<Effect>)

  predicate Expired(t: TokenState, clock: real)
  {
    clock > t.expireTime
  }

  /** `get_token`. A refresh posts to the token endpoint; the expiry is set as soon as
      `expires_in` is read, the token only if `access_token` is there too; any failure
      returns None. */
  function Check(t: TokenState, w: World): (r: Checked)
    ensures r.effects == [TokenCheck(w.clock, Expired(t, w.clock))]
    ensures r.world.exchanges == w.exchanges && r.world.clock >= w.clock
  {
    if w.clock > t.expireTime then
      var f := FetchToken(w);
      var effects := [TokenCheck(w.clock, true)];
      match f.answer
      case Unreachable => Checked(None, t, f.world, effects)
      case Answered(expiresIn, accessToken, _) =>
        match expiresIn
        case None => Checked(None, t, f.world, effects)
        case Some(seconds) =>
          var expiry := f.world.clock + seconds as real;
          match accessToken
          case None => Checked(None, TokenState(expiry, t.bearer), f.world, effects)
          case Some(a) => Checked(Some(a), TokenState(expiry, Some(a)), f.world, effects)
    else
      Checked(t.bearer, t, w, [TokenCheck(w.clock, false)])
  }

  /** An unexpired token is returned as it is; an expired one is replaced by what the
      token endpoint answers, the expiry first, and any failure returns None. */
  lemma CheckOutcome(t: TokenState, w: World)
    ensures var r := Check(t, w);
      && (!Expired(t, w.clock) ==> r.returned == t.bearer && r.token == t && r.world == w)
      && (Expired(t, w.clock) ==>
            var f := FetchToken(w);
            && r.world == f.world
            && if f.answer.Answered? && f.answer.expiresIn.Some? then
                 && r.token.expireTime == f.world.clock + f.answer.expiresIn.value as real
                 && r.returned == f.answer.accessToken
                 && r.token.bearer == (if f.answer.accessToken.Some? then f.answer.accessToken else t.bearer)
               else
                 r.returned == None && r.token == t)
  {
  }

  /** A check never leaves the client with a token other than the old one or the one it returned. */
  lemma CheckKeepsOrReturns(t: TokenState, w: World)
    ensures var r := Check(t, w); r.token.bearer == t.bearer || r.token.bearer == r.returned
  {
  }

  /** A token refreshed with `expires_in` seconds is handed out again, without another
      refresh, by every check up to its new expiry. */
  lemma RefreshedTokenReused(t: TokenState, w: World, later: World)
    requires Check(t, w).returned.Some?
    requires later.clock <= Check(t, w).token.expireTime
    ensures var r := Check(t, w);
      Check(r.token, later) == Checked(r.returned, r.token, later, [TokenCheck(later.clock, false)])
  {
  }

  /** The first check of a new client, at or after its creation, always refreshes. */
  lemma FirstCheckRefreshes(now: real, w: World)
    requires w.clock >= now
    ensures Check(Initial(now), w).effects == [TokenCheck(w.clock, true)]
    ensures Check(Initial(now), w).world == FetchToken(w).world
  {
  }

  /** The result of `get_authorization_token`: the returned refresh token, the token state, the world. */
  datatype Authorized = Authorized(returned: Option<string>, token: TokenState, world: World)

  /** `get_authorization_token`: stores `access_token` as the bearer token and returns
      `refresh_token`; it never sets the expiry, so the next `get_token` still refreshes
      if the old expiry has passed. */
  function Authorize(t: TokenState, w: World): (r: Authorized)
    ensures r.token.expireTime == t.expireTime
    ensures r.world == FetchToken(w).world
    ensures var a := FetchToken(w).answer;
      if a.Answered? && a.accessToken.Some? then
        r.token.bearer == a.accessToken && r.returned == a.refreshToken
      else
        r.token == t && r.returned == None
  {
    var f := FetchToken(w);
    match f.answer
    case Unreachable => Authorized(None, t, f.world)
    case Answered(_, accessToken, refreshToken) =>
      match accessToken
      case None => Authorized(None, t, f.world)
      case Some(a) => Authorized(refreshToken, t.(bearer := Some(a)), f.world)
  }

  /** Authorising a new client does not spare the first `get_token` its refresh. */
  lemma AuthorizeThenCheckRefreshes(now: real, w: World, later: World)
    requires later.clock >= now
    ensures Check(Authorize(Initial(now), w).token, later).effects == [TokenCheck(later.clock, true)]
  {
  }
}
