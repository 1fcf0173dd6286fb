/** When a certificate is renewed: the window, the halving timer and the cooldown,
    internal/controller/certificate_controller.go. Instants and durations are
    nanoseconds; a duration is an int64, as time.Duration is. */
module Renewal {
  import opened Text
  import opened Duration

  const SECOND := 1_000_000_000
  const HOUR := 3600 * SECOND
  const MAX_CHECK_INTERVAL := 12 * HOUR
  const MIN_COOLDOWN := HOUR
  const SHORT_INTERVAL := 5 * SECOND
  const DEFAULT_RENEW_BEFORE := 60 * 24 * 3600 * SECOND

  /** time.Time.Sub: the difference, saturated. */
  function Sub(a: int, b: int): (d: int)
    ensures IsInt64(d)
  {
    if a - b > MAX_INT64 then MAX_INT64 else if a - b < MIN_INT64 then MIN_INT64 else a - b
  }

  // ---------- the window ----------

  function RenewBefore(text: string): int {
    if text == "" then DEFAULT_RENEW_BEFORE
    else match ParseDurationToSeconds(text)
      case Seconds(v) => if v <= 0 then DEFAULT_RENEW_BEFORE else Wrap64(v * SECOND)
      case _ => DEFAULT_RENEW_BEFORE
  }

  /** No text, a text that does not parse and a number that is not positive all mean sixty
      days. */
  lemma DefaultWindow(text: string)
    ensures RenewBefore("") == 5_184_000_000_000_000
    ensures !ParseDurationToSeconds(text).Seconds? ==> RenewBefore(text) == 5_184_000_000_000_000
    ensures forall v :: ParseDurationToSeconds(text) == Seconds(v) && v <= 0 ==>
      RenewBefore(text) == 5_184_000_000_000_000
  {
    if text != "" && ParseDurationToSeconds(text).Seconds? {
      assert exists v :: ParseDurationToSeconds(text) == Seconds(v);
    }
  }

  function RenewalTime(notAfter: int, renewBefore: int): int {
    notAfter + Wrap64(-renewBefore)
  }

  const LONGEST_WINDOW := 9223372036

  /** The window has the length that was asked for exactly up to 9223372036 seconds. */
  lemma RenewBeforeExactIff(left: string, n: int, unit: char, right: string)
    requires Blank(left) && Blank(right) && IsUnit(unit)
    requires n > 0 && IsInt64(n * Factor(unit))
    ensures RenewBefore(left + (Decimal(n) + [unit]) + right) == n * Factor(unit) * SECOND
       <==> n * Factor(unit) <= LONGEST_WINDOW
  {
    var text := left + (Decimal(n) + [unit]) + right;
    assert |text| > 0;
    DurationExactIff(left, n, unit, right);
    assert n * Factor(unit) >= n;
    WrapExact(n * Factor(unit) * SECOND);
  }

  /** Where the renewal lands for any number of seconds that parses: what is left of the
      product modulo 2^64 decides, so ever longer windows go round and round. */
  lemma RenewalTimeWraps(text: string, v: int, notAfter: int)
    requires text != "" && ParseDurationToSeconds(text) == Seconds(v) && v > 0
    ensures var left := v * SECOND % TWO_TO_64; var at := RenewalTime(notAfter, RenewBefore(text));
      && (at == notAfter - v * SECOND <==> v <= LONGEST_WINDOW)
      && (at > notAfter <==> left > MAX_INT64 + 1)
      && (at == notAfter <==> left == 0)
      && (at < notAfter <==> 0 < left <= MAX_INT64 + 1)
  {
    var product := v * SECOND;
    var left := product % TWO_TO_64;
    WindowLeft(left, notAfter);
    if v <= LONGEST_WINDOW {
      assert 0 < product <= MAX_INT64;
      assert left == product;
    } else {
      assert product > MAX_INT64 + 1;
    }
  }

  lemma WindowLeft(left: int, notAfter: int)
    requires 0 <= left < TWO_TO_64
    ensures var d := if left <= MAX_INT64 then left else left - TWO_TO_64;
      RenewalTime(notAfter, d) == if left == MAX_INT64 + 1 then notAfter - left else notAfter - d
  {
    var d := if left <= MAX_INT64 then left else left - TWO_TO_64;
    if left == MAX_INT64 + 1 {
      assert -d == MAX_INT64 + 1;
    } else {
      WrapExact(-d);
    }
  }

  /** The first window past the limit puts the renewal after the expiry. */
  lemma LongWindowOpensAfterExpiry(text: string, v: int, notAfter: int)
    requires ParseDurationToSeconds(text) == Seconds(v) && text != ""
    requires LONGEST_WINDOW < v <= 2 * LONGEST_WINDOW + 1
    ensures RenewalTime(notAfter, RenewBefore(text)) > notAfter
  {
    RenewalTimeWraps(text, v, notAfter);
    assert MAX_INT64 + 1 < v * SECOND < TWO_TO_64;
  }

  // ---------- the cooldown ----------

  /** The annotation holds whole seconds. */
  predicate WithinCooldown(annotation: Option<int>, now: int) {
    annotation.Some? && Sub(now, annotation.value * SECOND) < MIN_COOLDOWN
  }

  predicate RenewalDue(notAfter: Option<int>, renewBefore: int, annotation: Option<int>, now: int) {
    notAfter.Some? && now >= RenewalTime(notAfter.value, renewBefore) && !WithinCooldown(annotation, now)
  }

  /** One Certificate's renewals; `due` says a pass has found renewal due and has not
      ended, `recorded` lists the instants of the cooldown writes. */
  datatype State = State(
    now: int, notAfter: Option<int>, renewBefore: int, annotation: Option<int>, due: bool, recorded: seq<int>)

  predicate Checked(s: State, s': State) {
    RenewalDue(s.notAfter, s.renewBefore, s.annotation, s.now) && s' == s.(due := true)
  }

  /** The endpoint has answered: the cooldown is written, then status and Secret. */
  predicate Recorded(s: State, s': State) {
    s.due && s' == s.(due := false, annotation := Some(s.now / SECOND), recorded := s.recorded + [s.now])
  }

  predicate Abandoned(s: State, s': State) {
    s' == s.(due := false)
  }

  /** Time passes; the spec is edited; a new certificate brings a new expiry. */
  predicate Changed(s: State, s': State) {
    s' == s.(now := s'.now, notAfter := s'.notAfter, renewBefore := s'.renewBefore) && s.now <= s'.now
  }

  predicate Next(s: State, s': State) {
    Checked(s, s') || Recorded(s, s') || Abandoned(s, s') || Changed(s, s')
  }

  predicate Apart(times: seq<int>) {
    forall i :: 0 <= i < |times| - 1 ==> times[i + 1] - times[i] > MIN_COOLDOWN - SECOND
  }

  predicate Inv(s: State) {
    && Apart(s.recorded)
    && (s.recorded != [] ==>
          var last := s.recorded[|s.recorded| - 1];
          && last <= s.now && s.annotation == Some(last / SECOND)
          && (s.due ==> s.now - last > MIN_COOLDOWN - SECOND))
  }

  predicate Init(s: State) {
    !s.due && s.recorded == []
  }

  lemma NextKeepsInv(s: State, s': State)
    requires Inv(s) && Next(s, s')
    ensures Inv(s')
  {
  }

  ghost predicate IsRun(run: seq<State>) {
    && |run| >= 1 && Init(run[0])
    && forall i :: 0 <= i < |run| - 1 ==> Next(run[i], run[i + 1])
  }

  lemma {:induction false} RunsKeepInv(run: seq<State>, i: nat)
    requires IsRun(run) && i < |run|
    ensures Inv(run[i])
  {
    if i > 0 {
      RunsKeepInv(run, i - 1);
      NextKeepsInv(run[i - 1], run[i]);
    }
  }

  /** Whatever the window and the lifetimes are, two renewals recorded in a row are more
      than an hour less one second apart. */
  lemma RenewalsKeepApart(run: seq<State>, i: nat, k: nat)
    requires IsRun(run) && i < |run| && k + 1 < |run[i].recorded|
    ensures run[i].recorded[k + 1] - run[i].recorded[k] > 3_599_000_000_000
  {
    RunsKeepInv(run, i);
  }

  /** Renewal is due exactly from the opening of the window on, except while the recorded
      second of the last renewal is less than an hour ago. */
  lemma DueIff(notAfter: int, renewBefore: int, annotation: Option<int>, now: int)
    requires forall last :: annotation == Some(last) ==> IsInt64(now - last * SECOND)
    ensures RenewalDue(Some(notAfter), renewBefore, annotation, now) <==>
      && now >= RenewalTime(notAfter, renewBefore)
      && forall last :: annotation == Some(last) ==> now - last * SECOND >= 3_600_000_000_000
    ensures !RenewalDue(None, renewBefore, annotation, now)
  {
    if annotation.Some? { assert annotation == Some(annotation.value); }
  }

  /** So with the window open and no renewal in the last hour a pass finds renewal due,
      at every moment of every run. */
  lemma OpenWindowIsDue(run: seq<State>, i: nat, notAfter: int)
    requires IsRun(run) && i < |run| && run[i].notAfter == Some(notAfter)
    requires run[i].now >= RenewalTime(notAfter, run[i].renewBefore) && run[i].recorded != []
    requires 3_600_000_000_000 <= run[i].now - run[i].recorded[|run[i].recorded| - 1] < MAX_INT64 - SECOND
    ensures Checked(run[i], run[i].(due := true))
  {
    RunsKeepInv(run, i);
    var s := run[i];
    var last := s.recorded[|s.recorded| - 1];
    assert last - SECOND < last / SECOND * SECOND <= last;
  }

  /** The second is lost to the annotation: with a window longer than the lifetime two
      renewals one nanosecond more than that apart are possible. */
  lemma SlackIsReal() returns (run: seq<State>)
    ensures IsRun(run)
    ensures run[|run| - 1].recorded == [SECOND - 1, HOUR]
  {
    var s := State(SECOND - 1, Some(0), 0, None, false, []);
    var t := s.(due := true);
    var u := t.(due := false, annotation := Some(0), recorded := [SECOND - 1]);
    var v := u.(now := HOUR);
    var w := v.(due := true);
    var x := w.(due := false, annotation := Some(HOUR / SECOND), recorded := [SECOND - 1, HOUR]);
    run := [s, t, u, v, w, x];
  }

  // ---------- the timer ----------

  /** scheduleRenewalCheck's RequeueAfter; 0 is no requeue at all. */
  function RequeueAfter(now: int, notAfter: Option<int>, renewBefore: int, annotation: Option<int>): int {
    if notAfter.None? then SHORT_INTERVAL
    else
      var left := Sub(RenewalTime(notAfter.value, renewBefore), now);
      if left <= 0 then if WithinCooldown(annotation, now) then MIN_COOLDOWN else SHORT_INTERVAL
      else Delay(left)
  }

  function Delay(left: nat): nat {
    if left / 2 < MAX_CHECK_INTERVAL then left / 2 else MAX_CHECK_INTERVAL
  }

  /** A requeue is asked for except at one nanosecond before the window, and a wake that
      is on time comes before the window opens. */
  lemma WakesBeforeTheWindow(now: int, notAfter: int, renewBefore: int, annotation: Option<int>)
    ensures var left := RenewalTime(notAfter, renewBefore) - now;
      var d := RequeueAfter(now, Some(notAfter), renewBefore, annotation);
      && (d > 0 <==> left != 1)
      && (left >= 2 ==> now + d < RenewalTime(notAfter, renewBefore))
      && 0 <= d <= 43_200_000_000_000
      && (left > 0 ==> left - 2 * d in {0, 1} || (d == 43_200_000_000_000 && left >= 2 * d))
      && (left <= 0 && WithinCooldown(annotation, now) ==> d == 3_600_000_000_000)
      && (left <= 0 && !WithinCooldown(annotation, now) ==> d == 5_000_000_000)
    ensures RequeueAfter(now, None, renewBefore, annotation) == 5_000_000_000
  {
  }

  /** The remaining times at successive wakes, each no earlier than scheduled. */
  ghost predicate Wakes(left: seq<int>) {
    && (forall i :: 0 <= i < |left| ==> left[i] >= 2)
    && (forall i :: 0 <= i < |left| - 1 ==> left[i + 1] <= left[i] - Delay(left[i]))
  }

  function Pow2(k: nat): nat {
    if k == 0 then 1 else 2 * Pow2(k - 1)
  }

  lemma PowerOfSumWith8(k: nat)
    ensures Pow2(k + 8) == 256 * Pow2(k)
  {
    assert Pow2(k + 8) == 16 * Pow2(k + 4) by { assert Pow2(k + 8) == 4 * Pow2(k + 6) && Pow2(k + 6) == 4 * Pow2(k + 4); }
    assert Pow2(k + 4) == 16 * Pow2(k) by { assert Pow2(k + 4) == 4 * Pow2(k + 2) && Pow2(k + 2) == 4 * Pow2(k); }
  }

  lemma ADayIsBelowPow47()
    ensures 2 * MAX_CHECK_INTERVAL < Pow2(47)
  {
    assert Pow2(7) == 128;
    PowerOfSumWith8(7);
    PowerOfSumWith8(15);
    PowerOfSumWith8(23);
    PowerOfSumWith8(31);
    PowerOfSumWith8(39);
  }

  lemma LaterWakes(left: seq<int>)
    requires Wakes(left) && |left| > 1
    ensures Wakes(left[1..])
  {
  }

  /** Below a day every wake halves what is left. */
  lemma {:induction false} HalvingWakes(left: seq<int>, k: nat)
    requires Wakes(left) && left != []
    requires left[0] < 2 * MAX_CHECK_INTERVAL && left[0] <= Pow2(k)
    ensures |left| <= k
  {
    if |left| > 1 {
      var rest := left[1..];
      LaterWakes(left);
      HalvingWakes(rest, k - 1);
    }
  }

  lemma LastDayWakes(left: seq<int>)
    requires Wakes(left) && left != [] && left[0] < 2 * MAX_CHECK_INTERVAL
    ensures |left| <= 47
  {
    ADayIsBelowPow47();
    HalvingWakes(left, 47);
  }

  lemma OneIntervalLess(a: int, b: int)
    requires b <= a - MAX_CHECK_INTERVAL
    ensures b / MAX_CHECK_INTERVAL + 1 <= a / MAX_CHECK_INTERVAL
  {
  }

  /** At most t/12h + 47 wakes before the window opens or the timer stops. */
  lemma {:induction false} WakesAreFew(left: seq<int>)
    requires Wakes(left) && left != []
    ensures |left| <= left[0] / MAX_CHECK_INTERVAL + 47
  {
    if left[0] < 2 * MAX_CHECK_INTERVAL {
      LastDayWakes(left);
    } else if |left| > 1 {
      var rest := left[1..];
      LaterWakes(left);
      WakesAreFew(rest);
      OneIntervalLess(left[0], rest[0]);
    }
  }

  /** What is left after n wakes that are exactly on time. */
  function Punctual(left: nat, n: nat): nat {
    if n == 0 then left else Punctual(left - Delay(left), n - 1)
  }

  /** Exact wakes come to one nanosecond before the window, and stop there. */
  lemma {:induction false} PunctualWakesStop(left: nat) returns (n: nat)
    requires left >= 1
    ensures Punctual(left, n) == 1 && Delay(1) == 0
    ensures forall m: nat :: Punctual(left, m) >= 1
    decreases left
  {
    if left == 1 {
      n := 0;
      forall m: nat ensures Punctual(1, m) == 1 { PunctualFromOne(m); }
    } else {
      var rest := PunctualWakesStop(left - Delay(left));
      n := rest + 1;
      forall m: nat ensures Punctual(left, m) >= 1 {
        if m > 0 { assert Punctual(left, m) == Punctual(left - Delay(left), m - 1); }
      }
    }
  }

  lemma {:induction false} PunctualFromOne(m: nat)
    ensures Punctual(1, m) == 1
  {
    if m > 0 { PunctualFromOne(m - 1); }
  }
}
