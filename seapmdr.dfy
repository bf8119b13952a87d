/**
 * The SEAPMDR compartmental model: initial-state estimation, rate derivation,
 * the right-hand side of the differential equations and the post-processing
 * of the integrated trajectory.
 *
 * Compartments: S susceptible, E0 exposed latent, E1 exposed pre-symptomatic,
 * I0 asymptomatic, I1 mild, I2 severe, I3 critical, R recovered, D deaths.
 */
module Seapmdr {
  import opened Common
  import opened Frames

  /** Place-specific fatality ratio and severity mix. */
  datatype PlaceParams = PlaceParams(
    fatalityRatio: real,
    i0: real, i1: real, i2: real, i3: real,
    nosocomialProportion: Option<real>)

  /** Fixed epidemiological parameters (durations in days). */
  datatype DiseaseParams = DiseaseParams(
    presymptomaticPeriod: real,
    incubationPeriod: real,
    asymptomaticDuration: real,
    mildDuration: real,
    severeDuration: real,
    criticalDuration: real,
    asymptomaticProportion: real,
    infectedHealthCareProportion: real)

  /** The explicit population parameters: population, infected, recovered, deaths. */
  datatype Observed = Observed(N: real, I: real, R: real, D: real)

  datatype Exposed = Exposed(total: real, latent: real, presymptomatic: real)

  datatype Compartments = Compartments(
    S: real, E0: real, E1: real, I0: real, I1: real, I2: real, I3: real, R: real, D: real)

  datatype Rates = Rates(
    sigma0: real, sigma1: real, phi: real, gamma0: real,
    gamma1: real, p1: real, gamma2: real, p2: real, gamma3: real, mu: real,
    betaE: real, beta0: real, beta1: real, beta2: real, beta3: real)

  function Total(c: Compartments): real {
    c.S + c.E0 + c.E1 + c.I0 + c.I1 + c.I2 + c.I3 + c.R + c.D
  }

  predicate NonNegative(c: Compartments) {
    c.S >= 0.0 && c.E0 >= 0.0 && c.E1 >= 0.0 && c.I0 >= 0.0 && c.I1 >= 0.0
    && c.I2 >= 0.0 && c.I3 >= 0.0 && c.R >= 0.0 && c.D >= 0.0
  }

  predicate FractionsNonNegative(place: PlaceParams) {
    place.i0 >= 0.0 && place.i1 >= 0.0 && place.i2 >= 0.0 && place.i3 >= 0.0
  }

  // ---------------------------------------------------------------------------
  // Average infectious period

  /** Severity-weighted time from becoming infectious to leaving the infectious stages. */
  function AvgTime(place: PlaceParams, disease: DiseaseParams): (t: real)
    ensures FractionsNonNegative(place)
            && (place.i0 > 0.0 || place.i1 > 0.0 || place.i2 > 0.0 || place.i3 > 0.0)
            && disease.presymptomaticPeriod > 0.0 && disease.asymptomaticDuration > 0.0
            && disease.mildDuration > 0.0 && disease.severeDuration > 0.0
            && disease.criticalDuration > 0.0
            ==> t > 0.0
  {
    var tE1 := disease.presymptomaticPeriod;
    var tI0 := disease.asymptomaticDuration;
    var tI1 := disease.mildDuration;
    var tI2 := disease.severeDuration;
    var tI3 := disease.criticalDuration;
    var a := place.i0 * (tE1 + tI0);
    var b := place.i1 * (tE1 + tI1);
    var c := place.i2 * (tE1 + tI1 + tI2);
    var d := place.i3 * (tE1 + tI1 + tI2 + tI3);
    ProductSigns(place.i0, tE1 + tI0);
    ProductSigns(place.i1, tE1 + tI1);
    ProductSigns(place.i2, tE1 + tI1 + tI2);
    ProductSigns(place.i3, tE1 + tI1 + tI2 + tI3);
    a + b + c + d
  }

  lemma ProductSigns(x: real, y: real)
    ensures x >= 0.0 && y >= 0.0 ==> x * y >= 0.0
    ensures x > 0.0 && y > 0.0 ==> x * y > 0.0
  {
  }

  /**
   * When the fractions sum to one, the average period is the pre-symptomatic
   * period plus each later stage's duration weighted by the share of cases
   * that pass through it.
   */
  lemma AvgTimeByStage(place: PlaceParams, disease: DiseaseParams)
    requires place.i0 + place.i1 + place.i2 + place.i3 == 1.0
    ensures AvgTime(place, disease)
            == disease.presymptomaticPeriod
               + place.i0 * disease.asymptomaticDuration
               + (place.i1 + place.i2 + place.i3) * disease.mildDuration
               + (place.i2 + place.i3) * disease.severeDuration
               + place.i3 * disease.criticalDuration
  {
    var tE1 := disease.presymptomaticPeriod;
    assert place.i0 * tE1 + place.i1 * tE1 + place.i2 * tE1 + place.i3 * tE1
           == (place.i0 + place.i1 + place.i2 + place.i3) * tE1;
  }

  // ---------------------------------------------------------------------------
  // Exposed population

  /**
   * Exposed individuals back-projected from the infectious asymptomatic and
   * mild cases. `growth` stands for `2 ** (1 / doubling_time)` with
   * `doubling_time = log(2) / (Rt / t_avg)`, the one transcendental step.
   */
  function CalculateExposed(obs: Observed, place: PlaceParams, disease: DiseaseParams, growth: real): (e: Exposed)
    requires disease.presymptomaticPeriod != 0.0
    requires disease.incubationPeriod - disease.presymptomaticPeriod != 0.0
    ensures e.total == e.latent + e.presymptomatic
    ensures e.presymptomatic
            == (growth - 1.0) * (obs.I * (place.i0 + place.i1)) * disease.presymptomaticPeriod
    ensures e.latent
            == (growth - 1.0) * e.presymptomatic * (disease.incubationPeriod - disease.presymptomaticPeriod)
  {
    var asymptomatic := obs.I * place.i0;
    var mild := obs.I * place.i1;
    var presymptomatic := (growth - 1.0) * (asymptomatic + mild) / (1.0 / disease.presymptomaticPeriod);
    var latent := (growth - 1.0) * presymptomatic
                  / (1.0 / (disease.incubationPeriod - disease.presymptomaticPeriod));
    DivideByReciprocal((growth - 1.0) * (asymptomatic + mild), disease.presymptomaticPeriod);
    DivideByReciprocal((growth - 1.0) * presymptomatic,
                       disease.incubationPeriod - disease.presymptomaticPeriod);
    Exposed(latent + presymptomatic, latent, presymptomatic)
  }

  lemma DivideByReciprocal(x: real, d: real)
    requires d != 0.0
    ensures x / (1.0 / d) == x * d
  {
  }

  /** With growth at least one and non-negative inputs, both exposed groups are non-negative. */
  lemma ExposedNonNegative(obs: Observed, place: PlaceParams, disease: DiseaseParams, growth: real)
    requires disease.presymptomaticPeriod > 0.0
    requires disease.incubationPeriod > disease.presymptomaticPeriod
    requires growth >= 1.0 && obs.I >= 0.0 && place.i0 >= 0.0 && place.i1 >= 0.0
    ensures CalculateExposed(obs, place, disease, growth).presymptomatic >= 0.0
    ensures CalculateExposed(obs, place, disease, growth).latent >= 0.0
    ensures CalculateExposed(obs, place, disease, growth).total >= 0.0
  {
    var e := CalculateExposed(obs, place, disease, growth);
    ProductSigns(obs.I, place.i0 + place.i1);
    ProductSigns(growth - 1.0, obs.I * (place.i0 + place.i1));
    ProductSigns((growth - 1.0) * (obs.I * (place.i0 + place.i1)), disease.presymptomaticPeriod);
    ProductSigns(growth - 1.0, e.presymptomatic);
    ProductSigns((growth - 1.0) * e.presymptomatic, disease.incubationPeriod - disease.presymptomaticPeriod);
  }

  // ---------------------------------------------------------------------------
  // Initial state

  /** Splits the infected by severity and takes Susceptible as the residual. */
  function PrepareStates(obs: Observed, place: PlaceParams, disease: DiseaseParams, growth: real): (c: Compartments)
    requires disease.presymptomaticPeriod != 0.0
    requires disease.incubationPeriod - disease.presymptomaticPeriod != 0.0
    ensures c.R == obs.R && c.D == obs.D
    ensures c.I0 == obs.I * place.i0 && c.I1 == obs.I * place.i1
    ensures c.I2 == obs.I * place.i2 && c.I3 == obs.I * place.i3
    ensures c.S == obs.N - obs.R - obs.D - obs.I - CalculateExposed(obs, place, disease, growth).total
    ensures c.E0 == CalculateExposed(obs, place, disease, growth).latent
    ensures c.E1 == CalculateExposed(obs, place, disease, growth).presymptomatic
    ensures c.I0 + c.I1 + c.I2 + c.I3 == obs.I * (place.i0 + place.i1 + place.i2 + place.i3)
    ensures Total(c) == obs.N - obs.I * (1.0 - (place.i0 + place.i1 + place.i2 + place.i3))
  {
    var exposed := CalculateExposed(obs, place, disease, growth);
    var c := Compartments(
      obs.N - obs.R - obs.D - obs.I - exposed.total,
      exposed.latent,
      exposed.presymptomatic,
      obs.I * place.i0,
      obs.I * place.i1,
      obs.I * place.i2,
      obs.I * place.i3,
      obs.R,
      obs.D);
    assert obs.I * place.i0 + obs.I * place.i1 + obs.I * place.i2 + obs.I * place.i3
           == obs.I * (place.i0 + place.i1 + place.i2 + place.i3);
    c
  }

  /** Population conservation of the initial state. */
  lemma PrepareStatesConserves(obs: Observed, place: PlaceParams, disease: DiseaseParams, growth: real)
    requires disease.presymptomaticPeriod != 0.0
    requires disease.incubationPeriod - disease.presymptomaticPeriod != 0.0
    requires place.i0 + place.i1 + place.i2 + place.i3 == 1.0
    ensures Total(PrepareStates(obs, place, disease, growth)) == obs.N
  {
    var s := place.i0 + place.i1 + place.i2 + place.i3;
    assert 1.0 - s == 0.0;
    assert obs.I * (1.0 - s) == 0.0;
  }

  // ---------------------------------------------------------------------------
  // Progression and transmission rates

  /** The nosocomial share, defaulting to the health-care share, kept away from zero. */
  function NosocomialProportion(place: PlaceParams, disease: DiseaseParams): (p: real)
    ensures p >= 0.000001
    ensures p >= place.nosocomialProportion.GetOr(disease.infectedHealthCareProportion)
    ensures p == 0.000001 || p == place.nosocomialProportion.GetOr(disease.infectedHealthCareProportion)
  {
    var q := place.nosocomialProportion.GetOr(disease.infectedHealthCareProportion);
    if 0.000001 >= q then 0.000001 else q
  }

  /** The population the betas are divided by: S and I0..I3 (E0, E1, R and D are excluded). */
  function BetaPopulation(c: Compartments): (n: real)
    ensures n == Total(c) - c.E0 - c.E1 - c.R - c.D
    ensures NonNegative(c) ==> n <= Total(c)
  {
    c.S + c.I0 + c.I1 + c.I2 + c.I3
  }

  /** Every denominator of the rate derivation is non-zero. */
  predicate Derivable(obs: Observed, place: PlaceParams, disease: DiseaseParams, growth: real) {
    && disease.presymptomaticPeriod != 0.0
    && disease.incubationPeriod - disease.presymptomaticPeriod != 0.0
    && disease.asymptomaticDuration != 0.0
    && disease.mildDuration != 0.0
    && disease.severeDuration != 0.0
    && disease.criticalDuration != 0.0
    && place.i1 + place.i2 != 0.0
    && place.i2 + place.i3 != 0.0
    && place.i3 != 0.0
    && AvgTime(place, disease) != 0.0
    && var c := PrepareStates(obs, place, disease, growth);
       && c.I2 + c.I3 != 0.0
       && c.E1 + c.I0 + c.I1 != 0.0
       && BetaPopulation(c) != 0.0
  }

  /**
   * The transmission coefficients (community, hospitalised) back-solved from
   * Rt: the community group (E1, I0, I1) and the hospitalised group (I2, I3)
   * transmit in the ratio (1 - p) : p and together cause
   * (E1 + I1 + I2 + I3) * Rt / t_avg infections per unit of time.
   */
  function BackSolveBetas(c: Compartments, rt: real, tAvg: real, p: real): (b: (real, real))
    requires c.I2 + c.I3 != 0.0 && c.E1 + c.I0 + c.I1 != 0.0 && tAvg != 0.0 && p > 0.0
    ensures (c.E1 + c.I0 + c.I1) * b.0 == ((1.0 - p) / p) * (c.I2 + c.I3) * b.1
    ensures b.0 * (c.E1 + c.I0 + c.I1) + b.1 * (c.I2 + c.I3) == (c.E1 + c.I1 + c.I2 + c.I3) * rt / tAvg
  {
    var beta2 := (c.E1 + c.I1 + c.I2 + c.I3) * rt
                 / (tAvg * (c.I2 + c.I3) * (1.0 + (1.0 - p) / p));
    var beta3 := beta2;
    var betaE := ((1.0 - p) / p) * (c.I2 * beta2 + c.I3 * beta3) / (c.E1 + c.I0 + c.I1);
    BetaAlgebra(c.E1 + c.I1 + c.I2 + c.I3, c.I2, c.I3, c.E1 + c.I0 + c.I1, rt, tAvg, p);
    (betaE, beta2)
  }

  /** The algebra of the back-solve on plain numbers: x = E1+I1+I2+I3, community size m. */
  lemma BetaAlgebra(x: real, i2: real, i3: real, m: real, rt: real, t: real, p: real)
    requires i2 + i3 != 0.0 && m != 0.0 && t != 0.0 && p > 0.0
    ensures var b2 := x * rt / (t * (i2 + i3) * (1.0 + (1.0 - p) / p));
            var bE := ((1.0 - p) / p) * (i2 * b2 + i3 * b2) / m;
            && m * bE == ((1.0 - p) / p) * (i2 + i3) * b2
            && bE * m + b2 * (i2 + i3) == x * rt / t
  {
    var h := i2 + i3;
    var w := (1.0 - p) / p;
    var b2 := x * rt / (t * h * (1.0 + w));
    var q := b2 * h;
    HospitalShare(x * rt, t, h, p);
    var bE := w * (i2 * b2 + i3 * b2) / m;
    assert i2 * b2 + i3 * b2 == q;
    DivMul(w * q, m);
    assert bE * m == w * q;
    CommunityShare(x * rt, t, q, p);
  }

  /** The hospital group's share: b2 * (i2 + i3) * t == big * p. */
  lemma HospitalShare(big: real, t: real, h: real, p: real)
    requires t != 0.0 && h != 0.0 && p > 0.0
    ensures big / (t * h * (1.0 + (1.0 - p) / p)) * h * t == big * p
  {
    var k := 1.0 + (1.0 - p) / p;
    DivMul(1.0 - p, p);
    assert k * p == 1.0;
    NonZeroProduct(t, h, k, p);
    var b2 := big / (t * h * k);
    DivMul(big, t * h * k);
    var q := b2 * h;
    assert q * t * (k * p) == big * p;
  }

  /** Adding the community share w * q to q gives all of big / t. */
  lemma CommunityShare(big: real, t: real, q: real, p: real)
    requires t != 0.0 && p > 0.0 && q * t == big * p
    ensures ((1.0 - p) / p) * q + q == big / t
  {
    var w := (1.0 - p) / p;
    var k := 1.0 + w;
    DivMul(1.0 - p, p);
    assert k * p == 1.0;
    assert (w * q + q) * t == big by {
      assert (w * q + q) * t == k * (q * t);
      assert k * (q * t) == (k * p) * big;
    }
    Cancel(w * q + q, t, big);
  }

  lemma DivMul(a: real, b: real)
    requires b != 0.0
    ensures (a / b) * b == a
  {
  }

  lemma Cancel(a: real, b: real, c: real)
    requires b != 0.0 && a * b == c
    ensures a == c / b
  {
  }

  lemma NonZeroProduct(t: real, h: real, k: real, p: real)
    requires t != 0.0 && h != 0.0 && p > 0.0 && k == 1.0 + (1.0 - p) / p
    ensures k == 1.0 / p && t * h * k != 0.0
  {
    assert (1.0 - p) / p == 1.0 / p - 1.0;
  }

  /** Dividing both coefficients by the same population keeps both equations, scaled. */
  lemma PerCapita(m: real, h: real, w: real, bE: real, b2: real, total: real, n: real)
    requires n != 0.0
    requires m * bE == w * h * b2 && bE * m + b2 * h == total
    ensures m * (bE / n) == w * h * (b2 / n)
    ensures (bE / n) * m + (b2 / n) * h == total / n
  {
    assert m * (bE / n) == (m * bE) / n;
    assert w * h * (b2 / n) == (w * h * b2) / n;
    assert (bE / n) * m + (b2 / n) * h == (bE * m + b2 * h) / n;
  }

  /**
   * The community coefficient `betaE` (for E1, I0, I1) and the hospital
   * coefficient `beta2` (for I2, I3) transmit in the ratio (1 - p) : p.
   */
  predicate Apportioned(c: Compartments, betaE: real, beta2: real, p: real)
    requires p > 0.0
  {
    (c.E1 + c.I0 + c.I1) * betaE == ((1.0 - p) / p) * (c.I2 + c.I3) * beta2
  }

  /**
   * Together the coefficients cause (E1 + I1 + I2 + I3) * Rt / t_avg new
   * infections per unit of time, per head of the beta population.
   */
  predicate ReproducesRt(c: Compartments, betaE: real, beta2: real, rt: real, tAvg: real)
    requires tAvg != 0.0 && BetaPopulation(c) != 0.0
  {
    betaE * (c.E1 + c.I0 + c.I1) + beta2 * (c.I2 + c.I3)
    == (c.E1 + c.I1 + c.I2 + c.I3) * rt / tAvg / BetaPopulation(c)
  }

  /** The back-solved betas divided by the beta population `BetaPopulation(c)`. */
  function PerCapitaBetas(c: Compartments, rt: real, tAvg: real, p: real): (b: (real, real))
    requires c.I2 + c.I3 != 0.0 && c.E1 + c.I0 + c.I1 != 0.0 && tAvg != 0.0 && p > 0.0
    requires BetaPopulation(c) != 0.0
    ensures Apportioned(c, b.0, b.1, p)
    ensures ReproducesRt(c, b.0, b.1, rt, tAvg)
  {
    var raw := BackSolveBetas(c, rt, tAvg, p);
    var n := BetaPopulation(c);
    PerCapita(c.E1 + c.I0 + c.I1, c.I2 + c.I3, (1.0 - p) / p, raw.0, raw.1,
              (c.E1 + c.I1 + c.I2 + c.I3) * rt / tAvg, n);
    (raw.0 / n, raw.1 / n)
  }

  /**
   * Derives the SEAPMDR rates: each stage's exit rate is split between its
   * two destinations, and the per-capita betas are back-solved from Rt.
   */
  function PrepareDiseaseParams(obs: Observed, place: PlaceParams, disease: DiseaseParams, rt: real, growth: real): (r: Rates)
    requires Derivable(obs, place, disease, growth)
    ensures r.sigma0 == 1.0 / (disease.incubationPeriod - disease.presymptomaticPeriod)
    ensures r.sigma1 == 1.0 / disease.presymptomaticPeriod
    ensures r.gamma0 == 1.0 / disease.asymptomaticDuration
    ensures r.phi == disease.asymptomaticProportion
    ensures r.gamma1 + r.p1 == 1.0 / disease.mildDuration
    ensures r.gamma2 + r.p2 == 1.0 / disease.severeDuration
    ensures r.gamma3 + r.mu == 1.0 / disease.criticalDuration
    ensures r.p1 * disease.mildDuration == place.i2 / (place.i1 + place.i2)
    ensures r.p2 * disease.severeDuration == place.i3 / (place.i2 + place.i3)
    ensures r.mu * disease.criticalDuration == place.fatalityRatio / place.i3
    ensures r.betaE == r.beta0 == r.beta1 && r.beta2 == r.beta3
    ensures Apportioned(PrepareStates(obs, place, disease, growth), r.betaE, r.beta2,
                        NosocomialProportion(place, disease))
    ensures ReproducesRt(PrepareStates(obs, place, disease, growth), r.betaE, r.beta2,
                         rt, AvgTime(place, disease))
  {
    var c := PrepareStates(obs, place, disease, growth);
    var fracMildToSevere := place.i2 / (place.i1 + place.i2);
    var fracSevereToCritical := place.i3 / (place.i2 + place.i3);
    var fracCriticalToDeath := place.fatalityRatio / place.i3;
    var mild := SplitExit(fracMildToSevere, disease.mildDuration);
    var severe := SplitExit(fracSevereToCritical, disease.severeDuration);
    var critical := SplitExit(fracCriticalToDeath, disease.criticalDuration);
    var betas := PerCapitaBetas(c, rt, AvgTime(place, disease), NosocomialProportion(place, disease));
    Rates(
      1.0 / (disease.incubationPeriod - disease.presymptomaticPeriod),
      1.0 / disease.presymptomaticPeriod,
      disease.asymptomaticProportion,
      1.0 / disease.asymptomaticDuration,
      mild.0, mild.1, severe.0, severe.1, critical.0, critical.1,
      betas.0, betas.0, betas.0, betas.1, betas.1)
  }

  /**
   * A stage left after `duration` on average, a fraction `f` of it to the
   * next stage: (leaving to recovery, leaving to the next stage).
   */
  function SplitExit(f: real, duration: real): (r: (real, real))
    requires duration != 0.0
    ensures r.0 + r.1 == 1.0 / duration
    ensures r.1 * duration == f
  {
    ((1.0 - f) / duration, f / duration)
  }

  // ---------------------------------------------------------------------------
  // Differential equations

  /** Force of infection: the per-capita rate at which susceptibles are exposed. */
  function ExpositionRate(y: Compartments, r: Rates): (e: real)
    ensures NonNegative(y) && RatesNonNegative(r) ==> e >= 0.0
  {
    ProductSigns(r.betaE, y.E1);
    ProductSigns(r.beta0, y.I0);
    ProductSigns(r.beta1, y.I1);
    ProductSigns(r.beta2, y.I2);
    ProductSigns(r.beta3, y.I3);
    r.betaE * y.E1 + r.beta0 * y.I0 + r.beta1 * y.I1 + r.beta2 * y.I2 + r.beta3 * y.I3
  }

  /**
   * The right-hand side of the SEAPMDR equations. The time `t` and the
   * `initial` flag are accepted and ignored. Every flow leaves one
   * compartment and enters another, so the derivatives sum to zero.
   */
  function Derivatives(y: Compartments, t: real, r: Rates, initial: bool): (d: Compartments)
    ensures Total(d) == 0.0
  {
    var exposition := ExpositionRate(y, r);
    Compartments(
      -exposition * y.S,
      exposition * y.S - r.sigma0 * y.E0,
      r.sigma0 * y.E0 - r.sigma1 * y.E1,
      r.sigma1 * y.E1 * r.phi - r.gamma0 * y.I0,
      r.sigma1 * y.E1 * (1.0 - r.phi) - (r.gamma1 + r.p1) * y.I1,
      r.p1 * y.I1 - (r.gamma2 + r.p2) * y.I2,
      r.p2 * y.I2 - (r.gamma3 + r.mu) * y.I3,
      r.gamma0 * y.I0 + r.gamma1 * y.I1 + r.gamma2 * y.I2 + r.gamma3 * y.I3,
      r.mu * y.I3)
  }

  predicate RatesNonNegative(r: Rates) {
    r.sigma0 >= 0.0 && r.sigma1 >= 0.0 && r.gamma0 >= 0.0 && r.gamma1 >= 0.0 && r.p1 >= 0.0
    && r.gamma2 >= 0.0 && r.p2 >= 0.0 && r.gamma3 >= 0.0 && r.mu >= 0.0
    && r.betaE >= 0.0 && r.beta0 >= 0.0 && r.beta1 >= 0.0 && r.beta2 >= 0.0 && r.beta3 >= 0.0
  }

  /**
   * With non-negative rates and compartments, deaths and recoveries never
   * decrease and susceptibles never increase; neither the time nor the
   * `initial` flag changes the result.
   */
  lemma DerivativeSigns(y: Compartments, t: real, r: Rates, initial: bool)
    requires NonNegative(y) && RatesNonNegative(r)
    ensures Derivatives(y, t, r, initial).D >= 0.0
    ensures Derivatives(y, t, r, initial).R >= 0.0
    ensures Derivatives(y, t, r, initial).S <= 0.0
    ensures forall t', b :: Derivatives(y, t', r, b) == Derivatives(y, t, r, initial)
  {
    var d := Derivatives(y, t, r, initial);
    ProductSigns(r.mu, y.I3);
    assert d.D >= 0.0;
    ProductSigns(r.gamma0, y.I0);
    ProductSigns(r.gamma1, y.I1);
    ProductSigns(r.gamma2, y.I2);
    ProductSigns(r.gamma3, y.I3);
    assert d.R >= 0.0;
    ProductSigns(ExpositionRate(y, r), y.S);
    assert d.S <= 0.0;
  }

  /**
   * At the initial state the derived betas make the force of infection
   * (E1 + I1 + I2 + I3) * Rt / t_avg / N', N' being the beta population.
   */
  lemma InitialExpositionRate(obs: Observed, place: PlaceParams, disease: DiseaseParams, rt: real, growth: real)
    requires Derivable(obs, place, disease, growth)
    ensures var c := PrepareStates(obs, place, disease, growth);
            ExpositionRate(c, PrepareDiseaseParams(obs, place, disease, rt, growth))
            == (c.E1 + c.I1 + c.I2 + c.I3) * rt / AvgTime(place, disease) / BetaPopulation(c)
  {
    var c := PrepareStates(obs, place, disease, growth);
    var r := PrepareDiseaseParams(obs, place, disease, rt, growth);
    GroupedSum(r.betaE, r.beta2, c.E1, c.I0, c.I1, c.I2, c.I3);
  }

  /** Shared coefficients factor out of the force of infection. */
  lemma GroupedSum(bE: real, b2: real, e1: real, i0: real, i1: real, i2: real, i3: real)
    ensures bE * e1 + bE * i0 + bE * i1 + b2 * i2 + b2 * i3 == bE * (e1 + i0 + i1) + b2 * (i2 + i3)
  {
  }

  // ---------------------------------------------------------------------------
  // Time grid and the result table

  /** numpy's `linspace(start, stop, num)`: `num` evenly spaced points, both ends included. */
  function Linspace(start: real, stop: real, num: nat): (g: seq<real>)
    ensures |g| == num
    ensures num > 0 ==> g[0] == start
  {
    seq(num, i requires 0 <= i < num =>
      if num == 1 then start else start + (i as real) * (stop - start) / ((num - 1) as real))
  }

  /** The integration grid `linspace(0, n_days, n_days + 1)` is the days 0, 1, ..., n_days. */
  lemma GridIsDays(nDays: nat)
    ensures var g := Linspace(0.0, nDays as real, nDays + 1);
            |g| == nDays + 1 && forall i :: 0 <= i <= nDays ==> g[i] == i as real
  {
    var g := Linspace(0.0, nDays as real, nDays + 1);
    forall i | 0 <= i <= nDays
      ensures g[i] == i as real
    {
      if nDays > 0 {
        assert g[i] == 0.0 + (i as real) * (nDays as real - 0.0) / (nDays as real);
      }
    }
  }

  function Field(c: Compartments, name: string): real {
    if name == "S" then c.S
    else if name == "E0" then c.E0
    else if name == "E1" then c.E1
    else if name == "I0" then c.I0
    else if name == "I1" then c.I1
    else if name == "I2" then c.I2
    else if name == "I3" then c.I3
    else if name == "R" then c.R
    else c.D
  }

  function Column(rows: seq<Compartments>, name: string): (col: seq<real>)
    ensures |col| == |rows|
    ensures forall i :: 0 <= i < |rows| ==> col[i] == Field(rows[i], name)
  {
    seq(|rows|, i requires 0 <= i < |rows| => Field(rows[i], name))
  }

  const FrameColumns: set<string> := {"S", "E0", "E1", "I0", "I1", "I2", "I3", "R", "D", "N", "E"}

  /** Column `name` of the result table: a compartment, the row sum N or the exposed sum E. */
  function ResultColumn(rows: seq<Compartments>, name: string): (col: seq<real>)
    ensures |col| == |rows|
    ensures name == "N" ==> forall i :: 0 <= i < |rows| ==> col[i] == Total(rows[i])
    ensures name == "E" ==> forall i :: 0 <= i < |rows| ==> col[i] == rows[i].E0 + rows[i].E1
    ensures name != "N" && name != "E" ==> col == Column(rows, name)
  {
    if name == "N" then seq(|rows|, i requires 0 <= i < |rows| => Total(rows[i]))
    else if name == "E" then seq(|rows|, i requires 0 <= i < |rows| => rows[i].E0 + rows[i].E1)
    else Column(rows, name)
  }

  /**
   * The solver's rows as a table with the nine compartment columns, the
   * row-sum column N, the exposed column E and the scenario tag.
   */
  function PostProcess(rows: seq<Compartments>, scenario: string): (f: Frame)
    ensures WellFormed(f)
    ensures f.index == Range(0, |rows|)
    ensures f.numeric.Keys == FrameColumns
    ensures f.labels == map["scenario" := scenario]
    ensures forall c :: c in FrameColumns ==> f.numeric[c] == ResultColumn(rows, c)
  {
    Frame(Range(0, |rows|), map c | c in FrameColumns :: ResultColumn(rows, c), map["scenario" := scenario])
  }

  /**
   * Row by row, the table holds the solver's compartments, N is the sum of
   * the nine compartment columns and E is E0 + E1.
   */
  lemma PostProcessRows(rows: seq<Compartments>, scenario: string, i: nat)
    requires i < |rows|
    ensures var f := PostProcess(rows, scenario);
            && f.numeric["S"][i] == rows[i].S && f.numeric["E0"][i] == rows[i].E0
            && f.numeric["E1"][i] == rows[i].E1 && f.numeric["I0"][i] == rows[i].I0
            && f.numeric["I1"][i] == rows[i].I1 && f.numeric["I2"][i] == rows[i].I2
            && f.numeric["I3"][i] == rows[i].I3 && f.numeric["R"][i] == rows[i].R
            && f.numeric["D"][i] == rows[i].D
            && f.numeric["N"][i]
               == f.numeric["S"][i] + f.numeric["E0"][i] + f.numeric["E1"][i] + f.numeric["I0"][i]
                  + f.numeric["I1"][i] + f.numeric["I2"][i] + f.numeric["I3"][i]
                  + f.numeric["R"][i] + f.numeric["D"][i]
            && f.numeric["E"][i] == f.numeric["E0"][i] + f.numeric["E1"][i]
  {
  }

  /** If every solver row keeps the population `n`, the N column is `n` throughout. */
  lemma PostProcessConstantN(rows: seq<Compartments>, scenario: string, n: real)
    requires forall i :: 0 <= i < |rows| ==> Total(rows[i]) == n
    ensures forall i :: 0 <= i < |rows| ==> PostProcess(rows, scenario).numeric["N"][i] == n
  {
  }

  // ---------------------------------------------------------------------------
  // The caller's population dictionary and the model entry point

  /** One key/value pair of an insertion-ordered Python dict. */
  datatype Item = Item(key: string, value: real)

  predicate DistinctKeys(items: seq<Item>) {
    forall i, j :: 0 <= i < j < |items| ==> items[i].key != items[j].key
  }

  function Lookup(items: seq<Item>, k: string): (v: Option<real>)
    ensures v.Some? <==> exists i :: 0 <= i < |items| && items[i].key == k
    ensures v.Some? ==> exists i :: 0 <= i < |items| && items[i] == Item(k, v.value)
  {
    if items == [] then None
    else if items[0].key == k then Some(items[0].value)
    else
      var v := Lookup(items[1..], k);
      assert v.Some? ==> exists i :: 0 <= i < |items| - 1 && items[1..][i] == Item(k, v.value);
      v
  }

  /** `del d[k]`: the remaining items in their original order. */
  function Without(items: seq<Item>, k: string): (rest: seq<Item>)
    ensures forall it :: it in rest <==> it in items && it.key != k
    ensures DistinctKeys(items) ==> DistinctKeys(rest)
    ensures (forall i :: 0 <= i < |items| ==> items[i].key != k) ==> rest == items
    ensures DistinctKeys(items) ==>
              forall i :: 0 <= i < |items| && items[i].key == k ==> rest == items[..i] + items[i + 1..]
  {
    if items == [] then []
    else
      var tail := Without(items[1..], k);
      if items[0].key == k then
        DropHead(items, k, tail);
        tail
      else
        KeepHeadMembers(items, k, tail);
        KeepHeadOrder(items, k, tail);
        [items[0]] + tail
  }

  /** Deleting the first key: the rest of distinct keys no longer holds it. */
  lemma DropHead(items: seq<Item>, k: string, tail: seq<Item>)
    requires |items| > 0 && items[0].key == k
    requires (forall i :: 0 <= i < |items[1..]| ==> items[1..][i].key != k) ==> tail == items[1..]
    requires forall it :: it in tail <==> it in items[1..] && it.key != k
    requires DistinctKeys(items[1..]) ==> DistinctKeys(tail)
    ensures forall it :: it in tail <==> it in items && it.key != k
    ensures DistinctKeys(items) ==> DistinctKeys(tail)
    ensures DistinctKeys(items) ==>
              forall i :: 0 <= i < |items| && items[i].key == k ==> tail == items[..i] + items[i + 1..]
  {
    assert items == [items[0]] + items[1..];
    if DistinctKeys(items) {
      TailDistinct(items);
      forall i | 0 <= i < |items[1..]|
        ensures items[1..][i].key != k
      {
        assert items[1..][i] == items[i + 1];
      }
      forall i | 0 <= i < |items| && items[i].key == k
        ensures tail == items[..i] + items[i + 1..]
      {
        assert i == 0;
      }
    }
  }

  /** Keeping the first item: the rest's items and their distinct keys carry over. */
  lemma KeepHeadMembers(items: seq<Item>, k: string, tail: seq<Item>)
    requires |items| > 0 && items[0].key != k
    requires forall it :: it in tail <==> it in items[1..] && it.key != k
    requires DistinctKeys(items[1..]) ==> DistinctKeys(tail)
    ensures forall it :: it in [items[0]] + tail <==> it in items && it.key != k
    ensures DistinctKeys(items) ==> DistinctKeys([items[0]] + tail)
  {
    assert items == [items[0]] + items[1..];
    if DistinctKeys(items) {
      TailDistinct(items);
      forall j | 0 <= j < |tail|
        ensures tail[j].key != items[0].key
      {
        assert tail[j] in items[1..];
      }
    }
  }

  /** Keeping the first item: a deletion further on happens inside the rest. */
  lemma KeepHeadOrder(items: seq<Item>, k: string, tail: seq<Item>)
    requires |items| > 0 && items[0].key != k
    requires (forall i :: 0 <= i < |items[1..]| ==> items[1..][i].key != k) ==> tail == items[1..]
    requires DistinctKeys(items[1..]) ==>
               forall i :: 0 <= i < |items[1..]| && items[1..][i].key == k ==>
                 tail == items[1..][..i] + items[1..][i + 1..]
    ensures (forall i :: 0 <= i < |items| ==> items[i].key != k) ==> [items[0]] + tail == items
    ensures DistinctKeys(items) ==>
              forall i :: 0 <= i < |items| && items[i].key == k ==> [items[0]] + tail == items[..i] + items[i + 1..]
  {
    if forall i :: 0 <= i < |items| ==> items[i].key != k {
      forall i | 0 <= i < |items[1..]|
        ensures items[1..][i].key != k
      {
        assert items[1..][i] == items[i + 1];
      }
    }
    if DistinctKeys(items) {
      TailDistinct(items);
      forall i | 0 <= i < |items| && items[i].key == k
        ensures [items[0]] + tail == items[..i] + items[i + 1..]
      {
        assert i > 0;
        assert items[1..][i - 1] == items[i];
        assert tail == items[1..][..i - 1] + items[1..][i..];
        assert items[..i] == [items[0]] + items[1..][..i - 1];
        assert items[i + 1..] == items[1..][i..];
      }
    }
  }

  lemma TailDistinct(items: seq<Item>)
    requires |items| > 0 && DistinctKeys(items)
    ensures DistinctKeys(items[1..])
  {
    forall i, j | 0 <= i < j < |items[1..]|
      ensures items[1..][i].key != items[1..][j].key
    {
      assert items[1..][i] == items[i + 1] && items[1..][j] == items[j + 1];
    }
  }

  function Values(items: seq<Item>): (vs: seq<real>)
    ensures |vs| == |items| && forall i :: 0 <= i < |items| ==> vs[i] == items[i].value
  {
    seq(|items|, i requires 0 <= i < |items| => items[i].value)
  }

  /** A Python dict (keys in insertion order) that the entry point may change. */
  class PopulationDict {
    var items: seq<Item>

    constructor (initial: seq<Item>)
      requires DistinctKeys(initial)
      ensures items == initial
    {
      items := initial;
    }

    function Get(k: string): Option<real>
      reads this
    {
      Lookup(items, k)
    }

    /** `del population_params[k]`. */
    method Delete(k: string)
      requires DistinctKeys(items) && Get(k).Some?
      modifies this
      ensures items == Without(old(items), k) && DistinctKeys(items)
      ensures Get(k) == None
    {
      items := Without(items, k);
    }
  }

  datatype EntryError =
    | KeyError(key: string)      // a population key read by the estimation is missing
    | UnpackError(count: nat)    // the state handed to the equations does not have nine values

  /**
   * The population parameters read by the estimation, in the order the code
   * reads them (I first, for the exposed estimate, then N, R and D).
   */
  function ObservedFrom(items: seq<Item>): (o: Result<Observed, EntryError>)
    ensures o.Success? <==> Lookup(items, "I").Some? && Lookup(items, "N").Some?
                            && Lookup(items, "R").Some? && Lookup(items, "D").Some?
    ensures o.Success? ==> o.value == Observed(Lookup(items, "N").value, Lookup(items, "I").value,
                                                Lookup(items, "R").value, Lookup(items, "D").value)
  {
    match (Lookup(items, "I"), Lookup(items, "N"), Lookup(items, "R"), Lookup(items, "D"))
    case (None, _, _, _) => Failure(KeyError("I"))
    case (_, None, _, _) => Failure(KeyError("N"))
    case (_, _, None, _) => Failure(KeyError("R"))
    case (_, _, _, None) => Failure(KeyError("D"))
    case (Some(i), Some(n), Some(r), Some(d)) => Success(Observed(n, i, r, d))
  }

  function FromValues(vs: seq<real>): Compartments
    requires |vs| == 9
  {
    Compartments(vs[0], vs[1], vs[2], vs[3], vs[4], vs[5], vs[6], vs[7], vs[8])
  }

  /** Scenario name, reproduction number and number of days of one run. */
  datatype Phase = Phase(scenario: string, R0: real, nDays: nat)

  /**
   * Runs the model for one phase. With `initial` the full state is estimated
   * from the observed population; otherwise the caller's dict already holds
   * a state, its "N" entry is deleted and its remaining values, in order, are
   * the starting point. The solver `odeint`, handed `Derivatives`, gives one row per grid point.
   */
  method Entrypoint(
    pop: PopulationDict, place: PlaceParams, disease: DiseaseParams, phase: Phase,
    initial: bool, growth: real,
    odeint: ((Compartments, real, Rates, bool) -> Compartments, Compartments, seq<real>, Rates, bool) -> seq<Compartments>)
    returns (r: Result<Frame, EntryError>)
    requires DistinctKeys(pop.items)
    requires forall f, y, t, p, b :: |odeint(f, y, t, p, b)| == |t|
    requires ObservedFrom(pop.items).Success? ==>
               Derivable(ObservedFrom(pop.items).value, place, disease, growth)
    modifies pop
    ensures ObservedFrom(old(pop.items)).Failure? ==>
              r == Failure(ObservedFrom(old(pop.items)).error) && pop.items == old(pop.items)
    ensures ObservedFrom(old(pop.items)).Success? ==>
              pop.items == (if initial then old(pop.items) else Without(old(pop.items), "N"))
    ensures ObservedFrom(old(pop.items)).Success? && !initial && |pop.items| != 9 ==>
              r == Failure(UnpackError(|pop.items|))
    ensures r.Success? ==>
              var obs := ObservedFrom(old(pop.items)).value;
              var y0 := if initial then PrepareStates(obs, place, disease, growth)
                        else FromValues(Values(pop.items));
              var rates := PrepareDiseaseParams(obs, place, disease, phase.R0, growth);
              r.value == PostProcess(odeint(Derivatives, y0, Linspace(0.0, phase.nDays as real, phase.nDays + 1), rates, initial),
                                     phase.scenario)
    ensures r.Success? ==> |r.value.index| == phase.nDays + 1 && r.value.index[0] == 0
    ensures r.Failure? ==> ObservedFrom(old(pop.items)).Failure? || (!initial && |pop.items| != 9)
  {
    var observed := ObservedFrom(pop.items);
    if observed.Failure? {
      return Failure(observed.error);
    }
    var obs := observed.value;
    var rates := PrepareDiseaseParams(obs, place, disease, phase.R0, growth);
    var y0: Compartments;
    if initial {
      y0 := PrepareStates(obs, place, disease, growth);
    } else {
      pop.Delete("N");
      var vs := Values(pop.items);
      if |vs| != 9 {
        return Failure(UnpackError(|vs|));
      }
      y0 := FromValues(vs);
    }
    var grid := Linspace(0.0, phase.nDays as real, phase.nDays + 1);
    var rows := odeint(Derivatives, y0, grid, rates, initial);
    r := Success(PostProcess(rows, phase.scenario));
  }
}
