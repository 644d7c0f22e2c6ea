/** Configuration, command URLs, timing arithmetic and the transport's success rule
    of the Z-Way Velux window-covering accessory. */
module Commands {

  datatype Option<T> = None | Some(value: T)

  /** A blind position in percent: 0 is fully closed, 100 fully open. */
  type Percent = x: int | 0 <= x <= 100

  /** HomeKit PositionState codes, as stored in currentPositionState. */
  const DECREASING: int := 0
  const INCREASING: int := 1
  const STOPPED: int := 2

  /** Codes of the main power supply, as stored in powerState. */
  const POWER_OFF: int := 0
  const POWER_ON: int := 1

  /** The accessory's configuration: six command URLs, the HTTP method, three
      durations in milliseconds and the debug flag. */
  datatype Config = Config(
    powerOnUrl: string,
    powerOffUrl: string,
    openStartUrl: string,
    openStopUrl: string,
    closeStartUrl: string,
    closeStopUrl: string,
    httpMethod: string,
    durationPerPercent: nat,
    startDelay: nat,
    endPositionDelay: nat,
    debugMode: bool)

  /** The first argument of operateBlinds: 1 starts the motor, 0 stops it. */
  datatype Operation = Start | Stop

  /** The URL operateBlinds requests: the open URLs when the position state is
      INCREASING, the close URLs for any other state. */
  function BlindsUrl(cfg: Config, op: Operation, state: int): (url: string)
  {
    match op
    case Start => if state == INCREASING then cfg.openStartUrl else cfg.closeStartUrl
    case Stop => if state == INCREASING then cfg.openStopUrl else cfg.closeStopUrl
  }

  /** Opening uses the two open URLs and every other state, STOPPED included,
      the two close URLs; the operation picks start or stop within the pair. */
  lemma BlindsUrlChoice(cfg: Config, op: Operation, state: int)
    ensures state == INCREASING ==>
      BlindsUrl(cfg, op, state) == (if op == Start then cfg.openStartUrl else cfg.openStopUrl)
    ensures state != INCREASING ==>
      BlindsUrl(cfg, op, state) == (if op == Start then cfg.closeStartUrl else cfg.closeStopUrl)
  {
  }

  /** The URL setPowerState requests. */
  function PowerUrl(cfg: Config, state: int): (url: string)
    ensures state == POWER_ON ==> url == cfg.powerOnUrl
    ensures state != POWER_ON ==> url == cfg.powerOffUrl
  {
    if state == POWER_ON then cfg.powerOnUrl else cfg.powerOffUrl
  }

  /** How far the blind travels between two positions, in percent. */
  function Distance(from: Percent, to: Percent): (d: nat)
    ensures d <= 100
    ensures d == 0 <==> from == to
    ensures from + d == to || to + d == from
  {
    if to >= from then to - from else from - to
  }

  /** Only the two extremes need the extra end-position delay. */
  predicate NeedsEndPositionDelay(to: Percent)
  {
    to == 0 || to == 100
  }

  /** The longest motion any move can take under this configuration. */
  function MaxDuration(cfg: Config): (ms: nat)
  {
    cfg.startDelay + 100 * cfg.durationPerPercent + cfg.endPositionDelay
  }

  /** How long the motor runs for a move from `from` to `to`. */
  function Duration(cfg: Config, from: Percent, to: Percent): (ms: nat)
    ensures cfg.startDelay <= ms <= MaxDuration(cfg)
    ensures !NeedsEndPositionDelay(to) ==> ms == cfg.startDelay + cfg.durationPerPercent * Distance(from, to)
    ensures NeedsEndPositionDelay(to) ==>
      ms == cfg.startDelay + cfg.durationPerPercent * Distance(from, to) + cfg.endPositionDelay
    ensures Distance(from, to) == 100 ==> ms == MaxDuration(cfg)
  {
    MulMonotone(cfg.durationPerPercent, Distance(from, to), 100);
    cfg.startDelay + cfg.durationPerPercent * Distance(from, to)
      + (if NeedsEndPositionDelay(to) then cfg.endPositionDelay else 0)
  }

  lemma MulMonotone(k: nat, a: nat, b: nat)
    requires a <= b
    ensures k * a <= k * b
  {
    assert k * b == k * a + k * (b - a);
  }

  /** For a fixed target, a longer distance never gives a shorter motion. */
  lemma DurationGrowsWithDistance(cfg: Config, a: Percent, b: Percent, to: Percent)
    requires Distance(a, to) <= Distance(b, to)
    ensures Duration(cfg, a, to) <= Duration(cfg, b, to)
  {
    MulMonotone(cfg.durationPerPercent, Distance(a, to), Distance(b, to));
  }

  /** Away from the two extremes a move takes as long as the move back. */
  lemma DurationSymmetricAwayFromEnds(cfg: Config, a: Percent, b: Percent)
    requires !NeedsEndPositionDelay(a) && !NeedsEndPositionDelay(b)
    ensures Duration(cfg, a, b) == Duration(cfg, b, a)
  {
    assert Distance(a, b) == Distance(b, a);
  }

  /** The end-position delay is added exactly for a move to 0 or 100: of two moves
      over the same distance, the one ending at an extreme takes endPositionDelay longer. */
  lemma DurationEndDelay(cfg: Config, a: Percent, t: Percent, b: Percent, u: Percent)
    requires Distance(a, t) == Distance(b, u)
    requires NeedsEndPositionDelay(t) && !NeedsEndPositionDelay(u)
    ensures Duration(cfg, a, t) == Duration(cfg, b, u) + cfg.endPositionDelay
  {
  }

  /** With a 1000 ms start delay, 20 ms per percent and a 500 ms end delay:
      30 to 100 takes 2900 ms and 30 to 90 takes 2200 ms. */
  lemma DurationExamples()
    ensures var cfg := Config("", "", "", "", "", "", "GET", 20, 1000, 500, false);
      Duration(cfg, 30, 100) == 2900 && Duration(cfg, 30, 90) == 2200
  {
  }

  /** What the transport reports back: whether the request failed outright and
      the status code of the response. */
  datatype Reply = Reply(failed: bool, statusCode: int)

  /** Only a response with status 200 and no error counts as success. */
  predicate Succeeded(reply: Reply): (ok: bool)
    ensures ok ==> reply.statusCode == 200
    ensures reply.failed ==> !ok
    ensures !reply.failed && reply.statusCode == 200 ==> ok
  {
    !reply.failed && reply.statusCode == 200
  }
}
