/** Reconnection backoff of server.go, in nanoseconds. */
module Backoff {
  import opened Options

  /** MinBackoff and MaxBackoff of the configuration. */
  datatype Config = Config(minBackoff: int, maxBackoff: int)

  /** Bounds under which every margin is positive, as rand.Int demands of its limit. */
  predicate ValidConfig(cfg: Config) {
    10 <= cfg.minBackoff <= cfg.maxBackoff
  }

  const STABLE_CONN_DURATION: int := 10 * 60 * 1000000000

  function Doubled(curr: int, max: int): int {
    if 2 * curr > max then max else 2 * curr
  }

  /** computeNextBackoff. The number that rand.Int returns is discarded, so the wiggle is the whole
      margin; only a failing random source matters. */
  function ComputeNextBackoff(curr: int, max: int, randFails: bool): int
    requires Doubled(curr, max) >= 10
  {
    var next := Doubled(curr, max);
    var margin := next / 10;
    if randFails then next else next + (margin - margin / 2)
  }

  /** nextPeerBackoff; `lasted` is the time since the peer started, if it started at all. */
  function NextPeerBackoff(cfg: Config, previous: Option<int>, lasted: Option<nat>, randFails: bool): int
    requires previous.Some? ==> Doubled(previous.value, cfg.maxBackoff) >= 10
  {
    if previous.None? then cfg.minBackoff
    else
      var next := ComputeNextBackoff(previous.value, cfg.maxBackoff, randFails);
      if lasted.None? || lasted.value < STABLE_CONN_DURATION then next
      else if next - lasted.value > cfg.minBackoff then next - lasted.value
      else cfg.minBackoff
  }

  /** The range of stored backoffs: up to a twentieth above the maximum. */
  predicate InRange(cfg: Config, b: int) {
    cfg.minBackoff <= b <= cfg.maxBackoff + (cfg.maxBackoff / 10 - cfg.maxBackoff / 10 / 2)
  }

  lemma NextInRange(cfg: Config, previous: Option<int>, lasted: Option<nat>, randFails: bool)
    requires ValidConfig(cfg) && (previous.Some? ==> InRange(cfg, previous.value))
    ensures previous.Some? ==> Doubled(previous.value, cfg.maxBackoff) >= 10
    ensures InRange(cfg, NextPeerBackoff(cfg, previous, lasted, randFails))
  {
    if previous.Some? {
      var next := Doubled(previous.value, cfg.maxBackoff);
      MarginMonotone(next, cfg.maxBackoff);
    }
  }

  lemma MarginMonotone(a: int, b: int)
    requires 0 <= a <= b
    ensures 0 <= a / 10 - a / 10 / 2 <= b / 10 - b / 10 / 2
  {}

  /** What the next backoff has to do with the previous one. Without one it is the minimum. A peer that never started
      or did not last ten minutes has twice the previous backoff, at most the maximum, and a twentieth on top unless no random
      number could be drawn. A peer that lasted has the time it did taken off, down to the minimum. */
  ghost predicate NextIs(cfg: Config, previous: Option<int>, lasted: Option<nat>, randFails: bool, next: int) {
    match previous
    case None => next == cfg.minBackoff
    case Some(b) =>
      exists full: int ::
        && Grown(cfg, b, randFails, full)
        && next == if lasted.None? || lasted.value < 600_000_000_000 then full
                   else if full - lasted.value > cfg.minBackoff then full - lasted.value else cfg.minBackoff
  }

  /** full is the capped double of b, and about a twentieth more if a random number could be drawn. */
  ghost predicate Grown(cfg: Config, b: int, randFails: bool, full: int) {
    exists doubled: int ::
      && (doubled == 2 * b || doubled == cfg.maxBackoff) && doubled <= 2 * b && doubled <= cfg.maxBackoff
      && Wiggled(doubled, randFails, full)
  }

  /** A twentieth, up to the rounding of two divisions. */
  ghost predicate Wiggled(doubled: int, randFails: bool, full: int) {
    if randFails then full == doubled else 20 * doubled + doubled - 20 < 20 * full < 20 * doubled + doubled + 20
  }

  lemma NextIsNext(cfg: Config, previous: Option<int>, lasted: Option<nat>, randFails: bool)
    requires ValidConfig(cfg) && (previous.Some? ==> InRange(cfg, previous.value))
    ensures previous.Some? ==> Doubled(previous.value, cfg.maxBackoff) >= 10
    ensures NextIs(cfg, previous, lasted, randFails, NextPeerBackoff(cfg, previous, lasted, randFails))
  {
    NextInRange(cfg, previous, lasted, randFails);
    if previous.Some? {
      var doubled := Doubled(previous.value, cfg.maxBackoff);
      var full := ComputeNextBackoff(previous.value, cfg.maxBackoff, randFails);
      assert Wiggled(doubled, randFails, full);
      assert Grown(cfg, previous.value, randFails, full);
    }
  }
}
