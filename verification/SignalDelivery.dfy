/** Age-based retry decisions for signals waiting for a compatible node. Times and
    delays are milliseconds. */
module SignalDelivery {
  import opened Wrappers

  datatype Tier = Tier(name: string, until: int, delay: int)

  datatype Policy = Policy(tiers: seq<Tier>, expiresAfter: int)

  datatype Decision = Decision(phase: string, retryAt: int, expiresAt: int, age: int, delay: int)

  function Age(queuedAt: int, now: int): int {
    if now < queuedAt then 0 else now - queuedAt
  }

  function FirstTier(tiers: seq<Tier>, age: int): Option<Tier> {
    if tiers == [] then None
    else if age < tiers[0].until then Some(tiers[0])
    else FirstTier(tiers[1..], age)
  }

  /** The next delivery of a signal admitted at `queuedAt`, or `None` once it has
      expired or no tier covers its age. */
  function Decide(policy: Policy, queuedAt: int, now: int): Option<Decision> {
    var age := Age(queuedAt, now);
    if age >= policy.expiresAfter then None
    else
      match FirstTier(policy.tiers, age)
      case None => None
      case Some(tier) => Some(Decision(tier.name, now + tier.delay, queuedAt + policy.expiresAfter, age, tier.delay))
  }

  const SECOND := 1000
  const MINUTE := 60 * SECOND
  const HOUR := 60 * MINUTE

  const DEFAULT_POLICY := Policy(
    [Tier("immediate", 10 * SECOND, 250),
     Tier("short", 3 * MINUTE, 3 * SECOND),
     Tier("medium", 13 * MINUTE, 30 * SECOND),
     Tier("long", HOUR, 2 * MINUTE),
     Tier("extended", 26 * HOUR, 5 * MINUTE)],
    26 * HOUR)

  // ---- How often a signal can be deferred ----

  /** Tiers in order of age from `from` on, each with a positive delay. */
  predicate Ordered(tiers: seq<Tier>, from: int) {
    tiers == [] || (from <= tiers[0].until && tiers[0].delay > 0 && Ordered(tiers[1..], tiers[0].until))
  }

  /** How many delays of `step` are needed to cover `width`. */
  function Ceil(width: int, step: int): nat
    requires step > 0
    decreases width
  {
    if width <= 0 then 0 else 1 + Ceil(width - step, step)
  }

  function DeferralBound(tiers: seq<Tier>, from: int): nat
    requires Ordered(tiers, from)
  {
    if tiers == [] then 0
    else Ceil(tiers[0].until - from, tiers[0].delay) + DeferralBound(tiers[1..], tiers[0].until)
  }

  /** Times at which one signal was deferred: each decision postpones the next delivery. */
  ghost predicate Deferrals(policy: Policy, queuedAt: int, times: seq<int>) {
    && (forall i :: 0 <= i < |times| ==> times[i] >= queuedAt && Decide(policy, queuedAt, times[i]).Some?)
    && (forall i :: 0 < i < |times| ==> times[i] >= Decide(policy, queuedAt, times[i - 1]).value.retryAt)
  }

  ghost predicate Spaced(tiers: seq<Tier>, from: int, ages: seq<int>) {
    && (forall i :: 0 <= i < |ages| ==> ages[i] >= from && FirstTier(tiers, ages[i]).Some?)
    && (forall i :: 0 < i < |ages| ==> ages[i] >= ages[i - 1] + FirstTier(tiers, ages[i - 1]).value.delay)
  }

  lemma {:induction false} TierDelay(tiers: seq<Tier>, from: int, age: int)
    requires Ordered(tiers, from) && FirstTier(tiers, age).Some?
    ensures FirstTier(tiers, age).value.delay > 0
  {
    if age >= tiers[0].until {
      TierDelay(tiers[1..], tiers[0].until, age);
    }
  }

  lemma {:induction false} SpacedGrow(tiers: seq<Tier>, from: int, ages: seq<int>, i: nat)
    requires Ordered(tiers, from) && Spaced(tiers, from, ages) && i < |ages|
    ensures ages[i] >= ages[0]
  {
    if i > 0 {
      SpacedGrow(tiers, from, ages, i - 1);
      TierDelay(tiers, from, ages[i - 1]);
    }
  }

  /** Ages past the first tier are governed by the remaining tiers alone. */
  lemma PastFirstTier(tiers: seq<Tier>, from: int, ages: seq<int>)
    requires tiers != [] && Ordered(tiers, from) && Spaced(tiers, from, ages)
    requires ages != [] ==> ages[0] >= tiers[0].until
    ensures Spaced(tiers[1..], tiers[0].until, ages)
  {
    forall i | 0 <= i < |ages| ensures ages[i] >= tiers[0].until {
      SpacedGrow(tiers, from, ages, i);
    }
  }

  lemma {:induction false} SpacedBound(tiers: seq<Tier>, from: int, ages: seq<int>)
    requires Ordered(tiers, from) && Spaced(tiers, from, ages)
    ensures |ages| <= DeferralBound(tiers, from)
    decreases |tiers|, |ages|
  {
    if ages == [] || FirstTier(tiers, ages[0]).None? {
    } else if ages[0] >= tiers[0].until {
      PastFirstTier(tiers, from, ages);
      SpacedBound(tiers[1..], tiers[0].until, ages);
    } else {
      var delay := tiers[0].delay;
      var rest := ages[1..];
      assert FirstTier(tiers, ages[0]).value.delay == delay;
      forall i | 0 <= i < |rest| ensures rest[i] >= ages[0] + delay && FirstTier(tiers, rest[i]).Some? {
        SpacedLater(tiers, from, ages, i + 1);
      }
      if from + delay <= tiers[0].until {
        assert Spaced(tiers, from + delay, rest);
        SpacedBound(tiers, from + delay, rest);
      } else {
        assert Spaced(tiers, from, rest);
        PastFirstTier(tiers, from, rest);
        SpacedBound(tiers[1..], tiers[0].until, rest);
      }
    }
  }

  lemma {:induction false} SpacedLater(tiers: seq<Tier>, from: int, ages: seq<int>, i: nat)
    requires Ordered(tiers, from) && Spaced(tiers, from, ages) && 0 < i < |ages|
    ensures ages[i] >= ages[0] + FirstTier(tiers, ages[0]).value.delay
  {
    if i > 1 {
      SpacedLater(tiers, from, ages, i - 1);
      TierDelay(tiers, from, ages[i - 1]);
    }
  }

  /** With ordered tiers and positive delays a signal is deferred at most once per delay
      that fits into each tier. */
  lemma DeferralsBounded(policy: Policy, queuedAt: int, times: seq<int>)
    requires Ordered(policy.tiers, 0) && Deferrals(policy, queuedAt, times)
    ensures |times| <= DeferralBound(policy.tiers, 0)
  {
    var ages := seq(|times|, i requires 0 <= i < |times| => times[i] - queuedAt);
    SpacedBound(policy.tiers, 0, ages);
  }

  // ---- Deferrals that an operator hurried ----

  /** Decision times of one signal, in order, whether or not each waited for the retry time before it. */
  ghost predicate Decisions(policy: Policy, queuedAt: int, times: seq<int>) {
    && (forall i :: 0 <= i < |times| ==> times[i] >= queuedAt && Decide(policy, queuedAt, times[i]).Some?)
    && (forall i :: 0 < i < |times| ==> times[i - 1] <= times[i])
  }

  /** How many decisions came before the retry time set by the decision before them. */
  ghost function Hurried(policy: Policy, queuedAt: int, times: seq<int>): nat
    requires forall i :: 0 <= i < |times| ==> Decide(policy, queuedAt, times[i]).Some?
  {
    if |times| < 2 then 0
    else
      Hurried(policy, queuedAt, times[..|times| - 1])
      + (if times[|times| - 1] < Decide(policy, queuedAt, times[|times| - 2]).value.retryAt then 1 else 0)
  }

  /** Dropping the decision before each hurried one leaves decisions that all waited. */
  lemma {:induction false} Unhurried(policy: Policy, queuedAt: int, times: seq<int>) returns (kept: seq<int>)
    requires Decisions(policy, queuedAt, times)
    ensures Deferrals(policy, queuedAt, kept) && |kept| + Hurried(policy, queuedAt, times) == |times|
    ensures times != [] ==> kept != [] && kept[|kept| - 1] == times[|times| - 1]
  {
    kept := times;
    if |times| >= 2 {
      var front, last := times[..|times| - 1], times[|times| - 1];
      assert Decisions(policy, queuedAt, front);
      kept := Unhurried(policy, queuedAt, front);
      if last < Decide(policy, queuedAt, front[|front| - 1]).value.retryAt {
        kept := kept[..|kept| - 1] + [last];
      } else {
        kept := kept + [last];
      }
    }
  }

  /** Each hurried decision adds at most one deferral to the bound. */
  lemma HurriedBounded(policy: Policy, queuedAt: int, times: seq<int>)
    requires Ordered(policy.tiers, 0) && Decisions(policy, queuedAt, times)
    ensures |times| <= DeferralBound(policy.tiers, 0) + Hurried(policy, queuedAt, times)
  {
    var kept := Unhurried(policy, queuedAt, times);
    DeferralsBounded(policy, queuedAt, kept);
  }

  lemma {:induction false} CeilIs(width: int, step: int, k: nat)
    requires step > 0 && width <= k * step && (k > 0 ==> width > (k - 1) * step) && (k == 0 ==> width <= 0)
    ensures Ceil(width, step) == k
  {
    if k > 0 {
      assert (k - 1) * step == k * step - step;
      if k > 1 {
        assert (k - 2) * step == (k - 1) * step - step;
      }
      assert 0 <= (k - 1) * step;
      CeilIs(width - step, step, k - 1);
    }
  }

  lemma DefaultBound()
    ensures Ordered(DEFAULT_POLICY.tiers, 0) && DeferralBound(DEFAULT_POLICY.tiers, 0) == 441
  {
    var t := DEFAULT_POLICY.tiers;
    CeilIs(10 * SECOND, 250, 40);
    CeilIs(3 * MINUTE - 10 * SECOND, 3 * SECOND, 57);
    CeilIs(13 * MINUTE - 3 * MINUTE, 30 * SECOND, 20);
    CeilIs(HOUR - 13 * MINUTE, 2 * MINUTE, 24);
    CeilIs(26 * HOUR - HOUR, 5 * MINUTE, 300);
    var t1, t2, t3, t4 := t[1..], t[1..][1..], t[1..][1..][1..], t[1..][1..][1..][1..];
    assert t4[1..] == [];
    assert Ordered(t4, HOUR) && DeferralBound(t4, HOUR) == 300;
    assert Ordered(t3, 13 * MINUTE) && DeferralBound(t3, 13 * MINUTE) == 324;
    assert Ordered(t2, 3 * MINUTE) && DeferralBound(t2, 3 * MINUTE) == 344;
    assert Ordered(t1, 10 * SECOND) && DeferralBound(t1, 10 * SECOND) == 401;
  }

  /** The age at which the default policy makes its `i`-th decision when every delivery is prompt. */
  function PromptAge(i: nat): int {
    if i < 40 then 250 * i
    else if i < 97 then 10_000 + 3_000 * (i - 40)
    else if i < 117 then 181_000 + 30_000 * (i - 97)
    else if i < 141 then 781_000 + 120_000 * (i - 117)
    else 3_661_000 + 300_000 * (i - 141)
  }

  lemma PromptStep(queuedAt: int, i: nat)
    requires i < 441
    ensures var d := Decide(DEFAULT_POLICY, queuedAt, queuedAt + PromptAge(i));
            d.Some? && (i < 440 ==> d.value.retryAt == queuedAt + PromptAge(i + 1))
  {
    var t := DEFAULT_POLICY.tiers;
    var age := PromptAge(i);
    assert FirstTier(t, age) == Some(if i < 40 then t[0] else if i < 97 then t[1] else if i < 117 then t[2] else if i < 141 then t[3] else t[4]) by {
      var t1, t2, t3, t4 := t[1..], t[1..][1..], t[1..][1..][1..], t[1..][1..][1..][1..];
      assert age >= HOUR ==> FirstTier(t4, age) == Some(t[4]);
      assert age >= 13 * MINUTE ==> FirstTier(t3, age) == Some(if age < HOUR then t[3] else t[4]);
      assert age >= 3 * MINUTE ==> FirstTier(t2, age) == if age < 13 * MINUTE then Some(t[2]) else FirstTier(t3, age);
      assert age >= 10 * SECOND ==> FirstTier(t1, age) == if age < 3 * MINUTE then Some(t[1]) else FirstTier(t2, age);
    }
  }

  /** Under the default policy a signal is deferred at most 441 times, and prompt
      deliveries reach that number. */
  lemma DefaultDeferrals(queuedAt: int)
    ensures forall times: seq<int> :: Deferrals(DEFAULT_POLICY, queuedAt, times) ==> |times| <= 441
    ensures exists times: seq<int> :: Deferrals(DEFAULT_POLICY, queuedAt, times) && |times| == 441
  {
    DefaultBound();
    forall times: seq<int> | Deferrals(DEFAULT_POLICY, queuedAt, times) ensures |times| <= 441 {
      DeferralsBounded(DEFAULT_POLICY, queuedAt, times);
    }
    var prompt := seq(441, (i: nat) => queuedAt + PromptAge(i));
    forall i | 0 <= i < 441 ensures Decide(DEFAULT_POLICY, queuedAt, prompt[i]).Some? && prompt[i] >= queuedAt {
      PromptStep(queuedAt, i);
    }
    forall i | 0 < i < 441 ensures prompt[i] >= Decide(DEFAULT_POLICY, queuedAt, prompt[i - 1]).value.retryAt {
      PromptStep(queuedAt, i - 1);
    }
    assert Deferrals(DEFAULT_POLICY, queuedAt, prompt);
  }
}
