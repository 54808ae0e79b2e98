/** The behaviour engine of the rollouts demo service: how the configured
    behaviour mode turns the random draws of one request into a status code
    and an injected delay, the narrower rule of the health route, and the
    per-mode message table. Every `rand.Float32()` is a real in [0, 1) and
    every `rand.Intn(n)` a natural below `n`, passed in by the caller. */
module Behavior {

  const Normal := "normal"
  const Slow := "slow"
  const ErrorProne := "error-prone"
  const Chaotic := "chaotic"

  const StatusOK := 200
  const StatusInternalServerError := 500
  const StatusServiceUnavailable := 503

  /** The four modes the service recognises; any other value behaves as normal. */
  predicate IsKnownMode(behavior: string) {
    behavior == Normal || behavior == Slow || behavior == ErrorProne || behavior == Chaotic
  }

  /** The draws one call of `applyBehavior` may consume:
      - `errorDraw`: the float of error-prone mode, or chaotic mode's second float;
      - `delayDraw`: chaotic mode's first float;
      - `slowJitter`: slow mode's `rand.Intn(800)`;
      - `chaosJitter`: chaotic mode's `rand.Intn(1000)`. */
  datatype Draws = Draws(errorDraw: real, delayDraw: real, slowJitter: nat, chaosJitter: nat)

  predicate ValidDraws(d: Draws) {
    && 0.0 <= d.errorDraw < 1.0
    && 0.0 <= d.delayDraw < 1.0
    && d.slowJitter < 800
    && d.chaosJitter < 1000
  }

  /** What the engine decides for one request: the status to answer with and
      the pause (in milliseconds) taken before answering. */
  datatype Decision = Decision(status: int, delayMs: nat)

  /** `applyBehavior`. */
  function ApplyBehavior(behavior: string, d: Draws): (r: Decision)
    requires ValidDraws(d)
    ensures r.status == StatusOK || r.status == StatusInternalServerError
    ensures r.delayMs < 1500
    ensures r.status == StatusInternalServerError ==> behavior == ErrorProne || behavior == Chaotic
    ensures r.delayMs != 0 ==> behavior == Slow || behavior == Chaotic
  {
    if behavior == Normal then
      Decision(StatusOK, 0)
    else if behavior == Slow then
      Decision(StatusOK, 200 + d.slowJitter)
    else if behavior == ErrorProne then
      if d.errorDraw < 0.5 then Decision(StatusInternalServerError, 0) else Decision(StatusOK, 0)
    else if behavior == Chaotic then
      var delay := if d.delayDraw < 0.3 then 500 + d.chaosJitter else 0;
      if d.errorDraw < 0.4 then Decision(StatusInternalServerError, delay) else Decision(StatusOK, delay)
    else
      Decision(StatusOK, 0)
  }

  /** Normal mode and every unrecognised mode: always 200, never a pause. */
  lemma QuietModes(behavior: string, d: Draws)
    requires ValidDraws(d)
    requires behavior != Slow && behavior != ErrorProne && behavior != Chaotic
    ensures ApplyBehavior(behavior, d) == Decision(StatusOK, 0)
  {
  }

  /** Slow mode: always 200, after a pause of 200 + k ms with k < 800. */
  lemma SlowMode(d: Draws)
    requires ValidDraws(d)
    ensures ApplyBehavior(Slow, d).status == StatusOK
    ensures ApplyBehavior(Slow, d).delayMs == 200 + d.slowJitter
    ensures 200 <= ApplyBehavior(Slow, d).delayMs <= 999
  {
  }

  /** Error-prone mode: 500 exactly when the draw is below 0.5, and no pause. */
  lemma ErrorProneMode(d: Draws)
    requires ValidDraws(d)
    ensures ApplyBehavior(ErrorProne, d).status == StatusInternalServerError <==> d.errorDraw < 0.5
    ensures ApplyBehavior(ErrorProne, d).status == StatusOK <==> 0.5 <= d.errorDraw
    ensures ApplyBehavior(ErrorProne, d).delayMs == 0
  {
  }

  /** Chaotic mode: a pause in [500, 1499] ms exactly when the first draw is
      below 0.3, and a 500 exactly when the second draw is below 0.4. */
  lemma ChaoticMode(d: Draws)
    requires ValidDraws(d)
    ensures ApplyBehavior(Chaotic, d).delayMs != 0 <==> d.delayDraw < 0.3
    ensures d.delayDraw < 0.3 ==> ApplyBehavior(Chaotic, d).delayMs == 500 + d.chaosJitter
    ensures ApplyBehavior(Chaotic, d).delayMs != 0 ==> 500 <= ApplyBehavior(Chaotic, d).delayMs <= 1499
    ensures ApplyBehavior(Chaotic, d).status == StatusInternalServerError <==> d.errorDraw < 0.4
  {
  }

  /** The two chaotic decisions are independent: the status depends on the
      second draw alone and the pause on the first draw and its jitter alone. */
  lemma ChaoticIndependence(d1: Draws, d2: Draws)
    requires ValidDraws(d1) && ValidDraws(d2)
    ensures d1.errorDraw == d2.errorDraw ==>
      ApplyBehavior(Chaotic, d1).status == ApplyBehavior(Chaotic, d2).status
    ensures d1.delayDraw == d2.delayDraw && d1.chaosJitter == d2.chaosJitter ==>
      ApplyBehavior(Chaotic, d1).delayMs == ApplyBehavior(Chaotic, d2).delayMs
  {
  }

  /** The chaotic rules are not an if/else: every combination of "paused or
      not" and "failed or not" is reachable. */
  lemma ChaoticOutcomesCombine(delayed: bool, failed: bool)
    ensures exists d ::
              && ValidDraws(d)
              && (ApplyBehavior(Chaotic, d).delayMs != 0) == delayed
              && (ApplyBehavior(Chaotic, d).status == StatusInternalServerError) == failed
  {
    var d := Draws(if failed then 0.0 else 0.5, if delayed then 0.0 else 0.5, 0, 0);
    assert ValidDraws(d);
    assert (ApplyBehavior(Chaotic, d).delayMs != 0) == delayed;
  }

  /** The health route's rule: 503 only in error-prone mode and only when the
      draw is below 0.3. */
  function HealthStatus(behavior: string, draw: real): (status: int)
    requires 0.0 <= draw < 1.0
    ensures status == StatusOK || status == StatusServiceUnavailable
    ensures status == StatusServiceUnavailable <==> behavior == ErrorProne && draw < 0.3
  {
    if behavior == ErrorProne && draw < 0.3 then StatusServiceUnavailable else StatusOK
  }

  /** Thresholds compared: the health route's failure band [0, 0.3) lies
      inside error-prone mode's 500 band [0, 0.5). The two routes take
      separate draws; the lemma compares the bands, not one request. */
  lemma HealthNarrowerThanContent(behavior: string, d: Draws)
    requires ValidDraws(d)
    ensures HealthStatus(behavior, d.errorDraw) == StatusServiceUnavailable ==>
      ApplyBehavior(behavior, d).status == StatusInternalServerError
  {
  }

  /** The message table of `getMessage`; a mode it does not list has no messages. */
  function Messages(behavior: string): (ms: seq<string>)
    ensures |ms| == 0 || |ms| == 3
    ensures |ms| != 0 <==> IsKnownMode(behavior)
    ensures forall i :: 0 <= i < |ms| ==> ms[i] != ""
  {
    if behavior == Normal then
      ["Service operating normally", "All systems functional", "Request processed successfully"]
    else if behavior == Slow then
      ["Service is experiencing delays", "Processing taking longer than usual", "High latency detected"]
    else if behavior == ErrorProne then
      ["Service unstable", "Errors may occur", "Degraded performance"]
    else if behavior == Chaotic then
      ["Unpredictable behavior", "System under stress", "Erratic performance"]
    else
      []
  }

  /** `getMessage`: one of the mode's messages, chosen by `pick`
      (`rand.Intn(len(msgs))`), or "Unknown state" for a mode with none. */
  function GetMessage(behavior: string, pick: nat): (m: string)
    requires |Messages(behavior)| != 0 ==> pick < |Messages(behavior)|
    ensures m != ""
    ensures IsKnownMode(behavior) ==> m in Messages(behavior)
    ensures !IsKnownMode(behavior) ==> m == "Unknown state"
  {
    var msgs := Messages(behavior);
    if |msgs| == 0 then "Unknown state" else msgs[pick]
  }

  /** Every message of the table can be drawn, so the choice covers the set. */
  lemma EveryMessageReachable(behavior: string, m: string)
    requires m in Messages(behavior)
    ensures exists pick: nat :: pick < |Messages(behavior)| && GetMessage(behavior, pick) == m
  {
    var msgs := Messages(behavior);
    var i :| 0 <= i < |msgs| && msgs[i] == m;
    assert GetMessage(behavior, i) == m;
  }
}
