/** The leaky bucket of `Lightspeed.request_bucket`: what a request costs, how
    long to wait before sending it, and how a response's headers reset the bucket. */
module RateLimit {
  import opened Base
  import opened Net

  /** `rate_limit_bucket_level` (the raw header text), `rate_limit_bucket_rate`,
      `rate_limit_last_request` and `rate_limit_availability`. */
  datatype BucketState = BucketState(level: Option<string>, rate: real, lastRequest: real, availability: real)

  /** A new client: no level seen, drip rate 1, 60 units available, last request now. */
  function Initial(now: real): (b: BucketState)
    ensures b.level == None && b.rate == 1.0 && b.lastRequest == now && b.availability == 60.0
  {
    BucketState(None, 1.0, now, 60.0)
  }

  const WriteCost: real := 10.0
  const ReadCost: real := 1.0

  predicate IsWrite(verb: string)
  {
    verb == "post" || verb == "put" || verb == "delete"
  }

  /** Units a request costs: writes 10, everything else (including "get") 1. */
  function Cost(verb: string): (units: real)
    ensures units == WriteCost <==> IsWrite(verb)
    ensures units == ReadCost <==> !IsWrite(verb)
  {
    if IsWrite(verb) then WriteCost else ReadCost
  }

  /** What the admission check decides: go, sleep first, or fail dividing by a zero rate. */
  datatype Admission = Proceed | Wait(seconds: real) | DivisionByZero

  /** The admission check: when fewer units are available than needed, the deficit takes
      `deficit / rate` seconds to drip back; the time since the last request is deducted,
      and only a positive remainder is slept. */
  function Admit(b: BucketState, clock: real, units: real): (a: Admission)
    ensures b.availability >= units ==> a == Proceed
    ensures a == DivisionByZero <==> b.availability < units && b.rate == 0.0
    ensures a.Wait? ==> a.seconds > 0.0
    ensures a.Wait? ==> a.seconds == (units - b.availability) / b.rate - (clock - b.lastRequest)
    ensures b.availability < units && b.rate != 0.0 ==>
      (a.Wait? <==> clock - b.lastRequest < (units - b.availability) / b.rate)
  {
    if b.availability < units then
      var leftOver := units - b.availability;
      if b.rate == 0.0 then DivisionByZero
      else
        var secondsWait := leftOver / b.rate;
        var elapsed := clock - b.lastRequest;
        if elapsed < secondsWait then Wait(secondsWait - elapsed) else Proceed
    else
      Proceed
  }

  /** The clock once admission is over. */
  function AdmittedAt(a: Admission, clock: real): real
  {
    if a.Wait? then clock + a.seconds else clock
  }

  /** With a positive drip rate, by the time a request is admitted the bucket has dripped
      back enough units since the last request to pay for it. */
  lemma AdmissionRefills(b: BucketState, clock: real, units: real)
    requires b.rate > 0.0
    ensures var a := Admit(b, clock, units);
      b.availability + b.rate * (AdmittedAt(a, clock) - b.lastRequest) >= units
        || (a == Proceed && b.availability >= units)
  {
    var a := Admit(b, clock, units);
    if b.availability < units {
      var secondsWait := (units - b.availability) / b.rate;
      assert b.rate * secondsWait == units - b.availability;
      var waited := AdmittedAt(a, clock) - b.lastRequest;
      if a.Wait? {
        assert waited == secondsWait;
      } else {
        assert waited >= secondsWait;
        assert b.rate * waited >= b.rate * secondsWait;
      }
    }
  }

  /** The bookkeeping after the last attempt. Nothing changes unless `raise_for_status`
      passes; then the last-request time is stamped and the headers are read one after
      the other, and the first missing or malformed one ends the update. */
  function Record(b: BucketState, reply: Reply, now: real): (r: BucketState)
    ensures !reply.Response? || ErrorStatus(reply) ==> r == b
    ensures reply.Response? && !ErrorStatus(reply) ==> r.lastRequest == now
    ensures reply.Response? && !ErrorStatus(reply) && reply.headers.bucketLevel.None? ==>
      r == b.(lastRequest := now)
    ensures reply.Response? && !ErrorStatus(reply) && reply.headers.bucketLevel.Some? ==>
      var h := reply.headers.bucketLevel.value;
      && r.level == Some(h.raw)
      && (h.split.None? ==> r == b.(lastRequest := now, level := Some(h.raw)))
      && (h.split.Some? ==>
            && r.availability == h.split.value.1 - h.split.value.0
            && r.rate == (if reply.headers.dripRate.Some? then reply.headers.dripRate.value else b.rate))
  {
    if reply.Response? && !ErrorStatus(reply) then
      var stamped := b.(lastRequest := now);
      match reply.headers.bucketLevel
      case None => stamped
      case Some(h) =>
        var leveled := stamped.(level := Some(h.raw));
        match h.split
        case None => leveled
        case Some(pair) =>
          var counted := leveled.(availability := pair.1 - pair.0);
          match reply.headers.dripRate
          case None => counted
          case Some(drip) => counted.(rate := drip)
    else
      b
  }

  /** A successful response carrying both headers sets the whole bucket, whatever it held before. */
  lemma RecordForgetsPast(b1: BucketState, b2: BucketState, reply: Reply, now: real)
    requires reply.Response? && !ErrorStatus(reply)
    requires reply.headers.bucketLevel.Some? && reply.headers.bucketLevel.value.split.Some?
    requires reply.headers.dripRate.Some?
    ensures Record(b1, reply, now) == Record(b2, reply, now)
  {
  }
}
