/** The session-timeout setting of an organisation: the loaded timeout is
    rounded to a multiple of five minutes, the slider value is committed as
    the current timeout only when the update mutation succeeds, and a zero
    timeout is displayed as "no timeout set". */
module UpdateTimeout {
  import opened Common

  /** `Math.round(x / 5) * 5` for an integer number of minutes. A quotient
      x / 5 never has a fractional part of exactly one half, so rounding
      never meets a tie, and the nearest multiple of five is
      5 * floor((x + 2) / 5). */
  function RoundToFive(x: int): (r: int)
    ensures r % 5 == 0
    ensures x - 2 <= r <= x + 2
  {
    5 * ((x + 2) / 5)
  }

  /** The nearest multiple of five is unique: any multiple of five within two
      minutes of x is the rounded value. */
  lemma NearestMultipleIsUnique(x: int, m: int)
    requires m % 5 == 0 && x - 2 <= m <= x + 2
    ensures m == RoundToFive(x)
  {
    var r := RoundToFive(x);
    assert (m - r) % 5 == 0 by {
      assert m == 5 * (m / 5);
      assert r == 5 * ((x + 2) / 5);
      assert m - r == 5 * (m / 5 - (x + 2) / 5);
    }
  }

  /** Rounding leaves a multiple of five alone, so it is idempotent. */
  lemma RoundingIdempotent(x: int)
    ensures x % 5 == 0 ==> RoundToFive(x) == x
    ensures RoundToFive(RoundToFive(x)) == RoundToFive(x)
  {
    if x % 5 == 0 {
      NearestMultipleIsUnique(x, x);
    }
    NearestMultipleIsUnique(RoundToFive(x), RoundToFive(x));
  }

  /** What the "current timeout" label shows. */
  datatype TimeoutLabel = NoTimeoutSet | Minutes(n: int)

  function Label(currentTimeout: int): (r: TimeoutLabel)
    ensures r.NoTimeoutSet? <==> currentTimeout == 0
    ensures r.Minutes? ==> r.n == currentTimeout
  {
    if currentTimeout != 0 then Minutes(currentTimeout) else NoTimeoutSet
  }

  class Settings {
    var timeoutValue: int     // the slider
    var currentTimeout: int   // the committed timeout

    constructor ()
      ensures timeoutValue == 15 && currentTimeout == 30
      ensures Shown() == Minutes(30)
    {
      timeoutValue := 15;
      currentTimeout := 30;
    }

    function Shown(): TimeoutLabel
      reads this
    {
      Label(currentTimeout)
    }

    /** The data effect: when the query returned data, both the current
        timeout and the slider take the rounded value. */
    method Loaded(data: Option<int>)
      modifies this
      ensures data.Some? ==> currentTimeout == timeoutValue == RoundToFive(data.value)
      ensures data.None? ==> currentTimeout == old(currentTimeout) && timeoutValue == old(timeoutValue)
    {
      if data.Some? {
        var rounded := RoundToFive(data.value);
        currentTimeout := rounded;
        timeoutValue := rounded;
      }
    }

    /** Moving the slider changes only the slider value. */
    method SlideTo(value: int)
      modifies this`timeoutValue
      ensures timeoutValue == value
    {
      timeoutValue := value;
    }

    /** `handleUpdateTimeout`: the mutation is sent with the slider value;
        only a truthy result commits it as the current timeout. */
    method Update(result: Outcome) returns (sent: int)
      modifies this`currentTimeout
      ensures sent == timeoutValue
      ensures currentTimeout == if result.Succeeded() then timeoutValue else old(currentTimeout)
    {
      sent := timeoutValue;
      if result.Succeeded() {
        currentTimeout := timeoutValue;
      }
    }
  }

  /** A loaded 30 stays 30, a loaded 0 shows "no timeout set", and a loaded
      33 is shown as 35 minutes. */
  method LoadingScenario()
  {
    var s := new Settings();
    s.Loaded(Some(30));
    assert s.Shown() == Minutes(30);
    s.Loaded(Some(0));
    assert s.Shown() == NoTimeoutSet;
    s.Loaded(Some(33));
    assert s.currentTimeout == 35 by {
      NearestMultipleIsUnique(33, 35);
    }
  }
}
