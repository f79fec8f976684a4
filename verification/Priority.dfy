/** Scores: four scaled factors, weighted, and when their arithmetic fits its word. */
module Priority {
  import opened Domain
  import opened FairShares
  import opened Placement

  datatype Weights = Weights(age: u32, qos: u32, fairshare: u32, size: u32)

  /** The scheduler's settings. */
  datatype Config = Config(
    weights: Weights,
    ageHorizon: u64,
    largestCpu: u32,
    halfLife: u64,
    budget: Budget,
    maxCandidates: nat,
    minClass: Option<PriorityClass>,
    maxPreemptions: u8,
    grace: u64)

  /** `value` as a fraction of `max`, at most the whole; no maximum, no factor. */
  function FactorOf(value: nat, max: nat): (r: nat)
    ensures r <= FACTOR_SCALE
  {
    if max == 0 then 0
    else
      FactorBound(Min(value, max), max);
      Min(value, max) * FACTOR_SCALE / max
  }

  lemma FactorBound(v: nat, max: nat)
    requires 0 < max && v <= max
    ensures v * FACTOR_SCALE / max <= FACTOR_SCALE
  {
    var q := v * FACTOR_SCALE / max;
    assert q * max <= v * FACTOR_SCALE <= max * FACTOR_SCALE;
    CancelRight(q, FACTOR_SCALE, max);
  }

  function ScoreOf(job: Job, now: u64, c: Config, fairshare: nat): Score {
    Weighted(FactorOf(Monus(now, job.submitTime), c.ageHorizon), FactorOf(job.priorityClass.Ordinal(), 3),
             Min(fairshare, FACTOR_SCALE), FactorOf(job.request.cpu, c.largestCpu), c.weights)
  }

  function Weighted(age: nat, qos: nat, fair: nat, size: nat, w: Weights): Score
    requires age <= FACTOR_SCALE && qos <= FACTOR_SCALE && fair <= FACTOR_SCALE && size <= FACTOR_SCALE
  {
    ScoreFits(age, qos, fair, size, w);
    age * w.age + qos * w.qos + fair * w.fairshare + size * w.size
  }

  /** Four terms of at most `FACTOR_SCALE * u32::MAX` each stay well inside `u64`. */
  lemma ScoreFits(age: nat, qos: nat, fair: nat, size: nat, w: Weights)
    requires age <= FACTOR_SCALE && qos <= FACTOR_SCALE && fair <= FACTOR_SCALE && size <= FACTOR_SCALE
    ensures age * w.age + qos * w.qos + fair * w.fairshare + size * w.size <= U64_MAX
  {
    ProductAtMost(age, FACTOR_SCALE, w.age, U32_MAX);
    ProductAtMost(qos, FACTOR_SCALE, w.qos, U32_MAX);
    ProductAtMost(fair, FACTOR_SCALE, w.fairshare, U32_MAX);
    ProductAtMost(size, FACTOR_SCALE, w.size, U32_MAX);
  }

  // ---- the arithmetic as 64-bit words compute it ----

  /** `None` where the product leaves the word. */
  function CheckedFactor(value: nat, max: nat): Option<nat> {
    if max == 0 then Some(0)
    else if Min(value, max) * FACTOR_SCALE > U64_MAX then None
    else Some(Min(value, max) * FACTOR_SCALE / max)
  }

  function CheckedScore(job: Job, now: u64, c: Config, fairshare: nat): Option<int> {
    var age := CheckedFactor(Monus(now, job.submitTime), c.ageHorizon);
    var qos := CheckedFactor(job.priorityClass.Ordinal(), 3);
    var size := CheckedFactor(job.request.cpu, c.largestCpu);
    if age == None || qos == None || size == None then None
    else Some(age.value * c.weights.age + qos.value * c.weights.qos + Min(fairshare, FACTOR_SCALE) * c.weights.fairshare
              + size.value * c.weights.size)
  }

  lemma CheckedFactorFits(value: nat, max: nat)
    requires max <= U64_MAX / FACTOR_SCALE
    ensures CheckedFactor(value, max) == Some(FactorOf(value, max))
  {
    ProductAtMost(Min(value, max), U64_MAX / FACTOR_SCALE, FACTOR_SCALE, FACTOR_SCALE);
  }

  const OLD_JOB: Job := Job(0, Low, 0, Vec(0, 0, 0), 0, [], [], JobState.Submitted, 0)

  /** Every score a cycle asks for stays inside its word exactly when the age horizon is at most
      `u64::MAX / FACTOR_SCALE`; beyond that, a job as old as the horizon overflows it. */
  lemma ScoresFitIff(c: Config)
    ensures (forall job, now: u64, fairshare: nat :: CheckedScore(job, now, c, fairshare)
              == Some(ScoreOf(job, now, c, fairshare)))
            <==> c.ageHorizon <= U64_MAX / FACTOR_SCALE
  {
    if c.ageHorizon <= U64_MAX / FACTOR_SCALE {
      forall job, now: u64, fairshare: nat ensures CheckedScore(job, now, c, fairshare)
          == Some(ScoreOf(job, now, c, fairshare)) {
        CheckedFactorFits(Monus(now, job.submitTime), c.ageHorizon);
        CheckedFactorFits(job.priorityClass.Ordinal(), 3);
        CheckedFactorFits(job.request.cpu, c.largestCpu);
      }
    } else {
      assert CheckedFactor(Monus(c.ageHorizon, OLD_JOB.submitTime), c.ageHorizon) == None;
      assert CheckedScore(OLD_JOB, c.ageHorizon, c, 0) == None;
    }
  }
}
