/** The sleep interval of the loop: minutes, as parsed into a `u64`,
    times 60 seconds. */
module Schedule {
  import opened Wrappers

  const U64_LIMIT: int := 0x1_0000_0000_0000_0000

  newtype u64 = x: int | 0 <= x < U64_LIMIT

  const SECONDS_PER_MINUTE: int := 60

  /** `minutes * 60` in `u64` arithmetic; `None` is the overflow that makes a
      checked build panic. */
  function SleepSeconds(minutes: u64): (r: Option<u64>)
    ensures r.Some? <==> minutes as int <= (U64_LIMIT - 1) / SECONDS_PER_MINUTE
    // the interval is a whole number of minutes, and that number is `minutes`
    ensures r.Some? ==>
      r.value as int % SECONDS_PER_MINUTE == 0 && r.value as int / SECONDS_PER_MINUTE == minutes as int
  {
    var product := minutes as int * SECONDS_PER_MINUTE;
    if product < U64_LIMIT then Some(product as u64) else None
  }

  /** The interval, when it fits, is exactly `minutes * 60` seconds. */
  lemma SleepSecondsExact(minutes: u64)
    requires SleepSeconds(minutes).Some?
    ensures SleepSeconds(minutes).value as int == minutes as int * SECONDS_PER_MINUTE
  {
  }
}
