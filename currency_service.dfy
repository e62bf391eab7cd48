/** The THB to PLN exchange rate and conversion (currency_service.py).

    The service's `Decimal` rate is an exact `real`; the rate source is a
    parameter `reply: RateReply` standing for what the HTTP request produced,
    and the clock reading `time.time()` is a parameter `now`. */
module Currency {
  import opened Common

  // ---------------------------------------------------------------------
  // Rounding to two decimal places (`round(x, 2)`, ties to even)
  // ---------------------------------------------------------------------

  /** The nearest integer to `x`, ties going to the even neighbour. */
  function RoundHalfEven(x: real): (n: int)
    ensures x - 0.5 <= n as real <= x + 0.5
  {
    var f := x.Floor;
    var frac := x - f as real;
    if frac < 0.5 then f
    else if frac > 0.5 then f + 1
    else if f % 2 == 0 then f
    else f + 1
  }

  lemma RoundHalfEvenOfInt(n: int)
    ensures RoundHalfEven(n as real) == n
  {
    assert (n as real).Floor == n;
  }

  /** A whole number of hundredths: at most two decimal places. */
  predicate TwoDecimals(r: real) {
    (r * 100.0).Floor as real == r * 100.0
  }

  /** `x` rounded to a whole number of hundredths. */
  function Round2(x: real): (r: real)
    ensures TwoDecimals(r)
    ensures x - 0.005 <= r <= x + 0.005
  {
    var n := RoundHalfEven(x * 100.0);
    assert (n as real / 100.0) * 100.0 == n as real;
    assert (n as real).Floor == n;
    n as real / 100.0
  }

  function Abs(x: real): real {
    if x < 0.0 then -x else x
  }

  /** No integer is nearer to `t` than its rounding. */
  lemma RoundHalfEvenNearest(t: real, m: int)
    ensures Abs(RoundHalfEven(t) as real - t) <= Abs(m as real - t)
  {
    var f := t.Floor;
    assert f as real <= t < f as real + 1.0;
    if m <= f {
      assert m as real <= f as real;
    } else {
      assert m as real >= f as real + 1.0;
    }
  }

  /** No value with at most two decimals is nearer to `x` than `Round2(x)`. */
  lemma Round2Nearest(x: real, y: real)
    requires TwoDecimals(y)
    ensures Abs(Round2(x) - x) <= Abs(y - x)
  {
    var t := x * 100.0;
    var m := (y * 100.0).Floor;
    RoundHalfEvenNearest(t, m);
    var n := RoundHalfEven(t);
    assert Round2(x) == n as real / 100.0;
    assert Abs(n as real - t) == 100.0 * Abs(Round2(x) - x);
    assert Abs(m as real - t) == 100.0 * Abs(y - x);
  }

  /** A value already rounded to two places is left alone by rounding. */
  lemma Round2Idempotent(x: real)
    ensures Round2(Round2(x)) == Round2(x)
  {
    var n := RoundHalfEven(x * 100.0);
    assert Round2(x) * 100.0 == n as real;
    RoundHalfEvenOfInt(n);
  }

  // ---------------------------------------------------------------------
  // The rate source
  // ---------------------------------------------------------------------

  /** The body of a rate response: the first rate's `mid` value, or a body
      from which it cannot be read (the reason is the exception text). */
  datatype RateBody = MidRate(mid: real) | Malformed(reason: string)

  /** What the request to the rate API produced: a response with its status
      code and body, or an exception with its text. */
  datatype RateReply = Response(status: int, body: RateBody) | Raised(reason: string)

  const FetchErrorPrefix := "Error fetching rate: "
  const UpdateErrorPrefix := "Error updating exchange rate: "

  /** The message for a non-200 response. */
  function FetchErrorMessage(status: int): string {
    FetchErrorPrefix + IntToDecimal(status)
  }

  /** The message for a non-200 response names its status code: the code can
      be read back from the message. */
  lemma FetchErrorNamesStatus(status: int)
    ensures var m := FetchErrorMessage(status);
      && |m| > |FetchErrorPrefix|
      && m[..|FetchErrorPrefix|] == FetchErrorPrefix
      && ParseInt(m[|FetchErrorPrefix|..]) == status
  {
    var m := FetchErrorMessage(status);
    assert m[|FetchErrorPrefix|..] == IntToDecimal(status);
    IntToDecimalRoundTrip(status);
  }

  class CurrencyService {
    var thbToPlnRate: real
    /** When the rate was last fetched (seconds since the epoch). */
    var lastUpdate: Option<real>

    /** `CurrencyService()`: the built-in rate 0.1179, never updated. */
    constructor ()
      ensures thbToPlnRate == 0.1179 && lastUpdate == None
    {
      thbToPlnRate := 0.1179;
      lastUpdate := None;
    }

    /** `get_current_rate`: only a 200 response whose mid can be read
        replaces the rate and stamps the update time; any other outcome
        returns the rate held so far with a message and changes nothing. */
    method GetCurrentRate(reply: RateReply, now: real) returns (rate: real, error: Option<string>)
      modifies this
      ensures reply.Response? && reply.status == 200 && reply.body.MidRate? ==>
        && rate == reply.body.mid && error == None
        && thbToPlnRate == reply.body.mid && lastUpdate == Some(now)
      ensures reply.Response? && reply.status != 200 ==>
        && rate == old(thbToPlnRate) && error == Some(FetchErrorMessage(reply.status))
        && thbToPlnRate == old(thbToPlnRate) && lastUpdate == old(lastUpdate)
      ensures reply.Response? && reply.status == 200 && reply.body.Malformed? ==>
        && rate == old(thbToPlnRate) && error == Some(UpdateErrorPrefix + reply.body.reason)
        && thbToPlnRate == old(thbToPlnRate) && lastUpdate == old(lastUpdate)
      ensures reply.Raised? ==>
        && rate == old(thbToPlnRate) && error == Some(UpdateErrorPrefix + reply.reason)
        && thbToPlnRate == old(thbToPlnRate) && lastUpdate == old(lastUpdate)
    {
      match reply
      case Raised(reason) =>
        return thbToPlnRate, Some(UpdateErrorPrefix + reason);
      case Response(status, body) =>
        if status == 200 {
          match body
          case Malformed(reason) =>
            return thbToPlnRate, Some(UpdateErrorPrefix + reason);
          case MidRate(mid) =>
            thbToPlnRate := mid;
            lastUpdate := Some(now);
            return mid, None;
        } else {
          return thbToPlnRate, Some(FetchErrorMessage(status));
        }
    }

    /** `convert_to_pln`: nothing for a missing or zero amount; otherwise the
        exact product with the current rate, rounded to two places, so it is
        within half a hundredth of the product and has at most two decimals. */
    function ConvertToPln(amount: Option<real>): (pln: Option<real>)
      reads this
      ensures amount.None? || amount == Some(0.0) ==> pln == None
      ensures amount.Some? && amount.value != 0.0 ==>
        && pln.Some?
        && TwoDecimals(pln.value)
        && amount.value * thbToPlnRate - 0.005 <= pln.value <= amount.value * thbToPlnRate + 0.005
    {
      if amount.None? || amount.value == 0.0 then None
      else Some(Round2(amount.value * thbToPlnRate))
    }

    /** `get_last_update_time`, before formatting: set only once a fetch has
        succeeded (a stamp of exactly zero counts as unset, as in Python). */
    function GetLastUpdateTime(): (t: Option<real>)
      reads this
      ensures t.Some? <==> lastUpdate.Some? && lastUpdate.value != 0.0
      ensures t.Some? ==> t == lastUpdate
    {
      if lastUpdate.Some? && lastUpdate.value != 0.0 then lastUpdate else None
    }
  }

  /** At the built-in rate a 25,000 THB rent is 2,947.50 PLN, and a listing
      without a price converts to nothing. */
  lemma DefaultRateConversion(service: CurrencyService)
    requires service.thbToPlnRate == 0.1179
    ensures service.ConvertToPln(Some(25000.0)) == Some(2947.5)
    ensures service.ConvertToPln(None) == None
  {
    assert 25000.0 * 0.1179 * 100.0 == 294750 as real;
    RoundHalfEvenOfInt(294750);
  }

  /** A fresh service reports no update time; a successful fetch makes it
      report the fetch time (when non-zero), and a failed one leaves it unset. */
  method RefreshScenario(reply: RateReply, now: real) returns (before: Option<real>, after: Option<real>)
    requires now != 0.0
    ensures before == None
    ensures after == if reply.Response? && reply.status == 200 && reply.body.MidRate? then Some(now) else None
  {
    var service := new CurrencyService();
    before := service.GetLastUpdateTime();
    var rate, error := service.GetCurrentRate(reply, now);
    after := service.GetLastUpdateTime();
  }
}
