/** URL construction of `Lightspeed.build_url`, with the query encoding that
    `urllib.parse.urlencode(parameters, safe=':-')` applies to string pairs. */
module Url {
  import opened Base

  /** The prefix every resource URL of an account starts with. */
  const AccountPrefix: string := "https://api.lightspeedapp.com/API/V3/Account/"

  /** `api_url`: set from the configuration's account id, or empty without one. */
  function ApiUrl(accountId: Option<string>): (u: string)
    ensures accountId.Some? ==> u == AccountPrefix + accountId.value + "/"
    ensures accountId.None? ==> u == ""
  {
    match accountId
    case Some(a) => AccountPrefix + a + "/"
    case None => ""
  }

  /** The `id_` argument: absent, an integer or a string. */
  datatype Id = NoId | IntId(n: int) | StrId(text: string)

  /** The `parameters` argument: absent, a mapping (or list of pairs), or an already encoded string. */
  datatype Params = NoParams | Pairs(entries: seq<(string, string)>) | Text(query: string)

  predicate IdTruthy(id: Id)
  {
    match id
    case NoId => false
    case IntId(n) => n != 0
    case StrId(t) => t != ""
  }

  predicate ParamsTruthy(p: Params)
  {
    match p
    case NoParams => false
    case Pairs(entries) => entries != []
    case Text(q) => q != ""
  }

  function DigitChar(d: nat): (c: char)
    requires d < 10
    ensures '0' <= c <= '9'
  {
    "0123456789"[d]
  }

  function NatText(n: nat): (s: string)
    ensures s != [] && forall c | c in s :: '0' <= c <= '9'
    decreases n
  {
    if n < 10 then [DigitChar(n)] else NatText(n / 10) + [DigitChar(n % 10)]
  }

  /** `str(n)` for a Python int. */
  function DecimalText(n: int): string
  {
    if n < 0 then "-" + NatText(-n) else NatText(n)
  }

  /** How `f"{id_}"` renders the id. */
  function IdText(id: Id): string
  {
    match id
    case NoId => "None"
    case IntId(n) => DecimalText(n)
    case StrId(t) => t
  }

  /** ASCII letters and digits. */
  predicate Alphanumeric(c: char)
  {
    'A' <= c <= 'Z' || 'a' <= c <= 'z' || '0' <= c <= '9'
  }

  /** Characters `quote` never escapes (letters, digits, `_.-~`), plus the `safe=':-'` the client adds. */
  predicate Unescaped(c: char)
  {
    Alphanumeric(c) || c == '_' || c == '.' || c == '-' || c == '~' || c == ':'
  }

  /** Every character `quote_plus` can produce. */
  predicate Encoded(c: char)
  {
    Unescaped(c) || c == '%' || c == '+'
  }

  function HexDigit(d: nat): (c: char)
    requires d < 16
    ensures Alphanumeric(c)
  {
    "0123456789ABCDEF"[d]
  }

  /** `%XX` with upper-case hex digits, for one byte. */
  function PercentByte(b: nat): (s: string)
    requires b < 256
    ensures |s| == 3 && s[0] == '%' && Alphanumeric(s[1]) && Alphanumeric(s[2])
  {
    ['%', HexDigit(b / 16), HexDigit(b % 16)]
  }

  /** The UTF-8 bytes of one character. */
  function Utf8(c: char): (bytes: seq<nat>)
    ensures 1 <= |bytes| <= 4
    ensures forall i | 0 <= i < |bytes| :: bytes[i] < 256
    ensures (c as int < 128) == (|bytes| == 1)
    ensures c as int < 128 ==> bytes == [c as int]
  {
    var n := c as int;
    if n < 0x80 then [n]
    else if n < 0x800 then [0xC0 + n / 64, 0x80 + n % 64]
    else if n < 0x10000 then [0xE0 + n / 4096, 0x80 + (n / 64) % 64, 0x80 + n % 64]
    else [0xF0 + n / 262144, 0x80 + (n / 4096) % 64, 0x80 + (n / 64) % 64, 0x80 + n % 64]
  }

  function PercentBytes(bytes: seq<nat>): (s: string)
    requires forall i | 0 <= i < |bytes| :: bytes[i] < 256
    ensures |s| == 3 * |bytes|
    ensures forall c | c in s :: Encoded(c)
  {
    if bytes == [] then []
    else
      PercentByte(bytes[0]) + PercentBytes(bytes[1..])
  }

  /** One character through `quote_plus`: a space becomes `+`, a safe character stays. */
  function QuoteChar(c: char): (s: string)
    ensures Unescaped(c) ==> s == [c]
    ensures c == ' ' ==> s == "+"
    ensures !Unescaped(c) && c != ' ' ==> |s| >= 3 && s[0] == '%'
    ensures forall d | d in s :: Encoded(d)
  {
    if c == ' ' then "+"
    else if Unescaped(c) then [c]
    else PercentBytes(Utf8(c))
  }

  /** `quote_plus(s, safe=':-')`. */
  function QuotePlus(s: string): (r: string)
    ensures forall c | c in r :: Encoded(c)
    ensures |r| >= |s|
  {
    if s == [] then [] else QuoteChar(s[0]) + QuotePlus(s[1..])
  }

  /** `urlencode(pairs, safe=':-')`: `key=value` joined by `&`, both sides quoted. */
  function UrlEncode(pairs: seq<(string, string)>): (r: string)
    ensures r == "" <==> pairs == []
    ensures forall c | c in r :: Encoded(c) || c == '=' || c == '&'
  {
    if pairs == [] then ""
    else
      var field := QuotePlus(pairs[0].0) + "=" + QuotePlus(pairs[0].1);
      if |pairs| == 1 then field else field + "&" + UrlEncode(pairs[1..])
  }

  /** `build_url`: query parameters win over the id, and the id over the bare resource. */
  function BuildUrl(apiUrl: string, source: string, id: Id, params: Params, encode: bool): (r: Result<string>)
    ensures ParamsTruthy(params) && encode ==>
      r == (if params.Pairs? then Ok(apiUrl + source + ".json?" + UrlEncode(params.entries)) else Raised(TypeMismatch))
    ensures ParamsTruthy(params) && !encode ==>
      r == (if params.Text? then Ok(apiUrl + source + ".json?" + params.query) else Raised(TypeMismatch))
    ensures !ParamsTruthy(params) && IdTruthy(id) ==> r == Ok(apiUrl + source + "/" + IdText(id) + ".json")
    ensures !ParamsTruthy(params) && !IdTruthy(id) ==> r == Ok(apiUrl + source + ".json")
  {
    if ParamsTruthy(params) then
      if encode then
        match params
        case Pairs(entries) => Ok(apiUrl + source + ".json?" + UrlEncode(entries))
        case _ => Raised(TypeMismatch)
      else
        match params
        case Text(q) => Ok(apiUrl + source + ".json?" + q)
        case _ => Raised(TypeMismatch)
    else if IdTruthy(id) then
      Ok(apiUrl + source + "/" + IdText(id) + ".json")
    else
      Ok(apiUrl + source + ".json")
  }

  /** With non-empty parameters the id never reaches the URL. */
  lemma ParamsOverrideId(apiUrl: string, source: string, id1: Id, id2: Id, params: Params, encode: bool)
    requires ParamsTruthy(params)
    ensures BuildUrl(apiUrl, source, id1, params, encode) == BuildUrl(apiUrl, source, id2, params, encode)
  {
  }

  /** Every URL the client builds starts with the account prefix and the resource name. */
  lemma BuiltUrlPrefix(apiUrl: string, source: string, id: Id, params: Params, encode: bool)
    ensures var r := BuildUrl(apiUrl, source, id, params, encode);
      r.Ok? ==> |r.value| > |apiUrl + source| && r.value[..|apiUrl + source|] == apiUrl + source
  {
  }

  /** A string made only of safe characters passes through `quote_plus` unchanged. */
  lemma {:induction false} QuotePlusKeepsSafe(s: string)
    requires forall c | c in s :: Unescaped(c)
    ensures QuotePlus(s) == s
  {
    if s != [] {
      QuotePlusKeepsSafe(s[1..]);
    }
  }

  /** An encoded key or value never contains the separators `&`, `=`, `#`, `?` or a space. */
  lemma QuotedHasNoSeparator(s: string)
    ensures forall c | c in QuotePlus(s) :: c != '&' && c != '=' && c != '#' && c != '?' && c != ' '
  {
  }

  /** `build_url("Sale", id_="42")` ends in `Sale/42.json`. */
  lemma SaleByIdExample(apiUrl: string)
    ensures BuildUrl(apiUrl, "Sale", StrId("42"), NoParams, false) == Ok(apiUrl + "Sale/42.json")
  {
    assert IdText(StrId("42")) == "42";
    assert "Sale" + "/" + "42" + ".json" == "Sale/42.json";
    assert apiUrl + "Sale" + "/" + "42" + ".json" == apiUrl + ("Sale" + "/" + "42" + ".json");
  }

  /** With `safe=':-'` the colon of `q=a:b` is kept: `Sale.json?q=a:b`. */
  lemma ColonKeptExample(apiUrl: string)
    ensures BuildUrl(apiUrl, "Sale", NoId, Pairs([("q", "a:b")]), true) == Ok(apiUrl + "Sale.json?q=a:b")
  {
    QuotePlusKeepsSafe("q");
    QuotePlusKeepsSafe("a:b");
    assert UrlEncode([("q", "a:b")]) == "q=a:b";
    assert "Sale" + ".json?" + "q=a:b" == "Sale.json?q=a:b";
    assert apiUrl + "Sale" + ".json?" + "q=a:b" == apiUrl + ("Sale" + ".json?" + "q=a:b");
  }

  /** A space is sent as `+` and a `+` as `%2B`. */
  lemma PlusAndSpaceExample()
    ensures QuotePlus("a b+") == "a+b%2B"
  {
    assert QuotePlus("+") == "%2B";
  }
}
