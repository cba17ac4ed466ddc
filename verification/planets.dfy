/** The planet table of `data/planets.ts` and the unlock queries over it.
    A planet is unlocked when it is unlocked by default or the learner's
    star count has reached its requirement. */
module Planets {
  import opened Optional
  import opened Seqs
  import opened LearningTypes

  const EARTH := PlanetConfig(Earth, "Earth", "地球", "🌍", "可爱的动物朋友们",
                              0, "#4A90E2", "#2ECC71", true, 1)
  const MOON := PlanetConfig(Moon, "Moon", "月球", "🌙", "美丽的颜色世界",
                             15, "#9B59B6", "#E74C3C", false, 2)
  const MARS := PlanetConfig(Mars, "Mars", "火星", "🔴", "神奇的数字王国",
                             30, "#E67E22", "#F39C12", false, 3)

  /** The planets in table order, Earth first and unlocked from the start. */
  const PLANET_CONFIGS: seq<PlanetConfig> := [EARTH, MOON, MARS]

  /** The unlock rule, shared by the list of unlocked planets and the
      single-planet check. */
  predicate UnlockedAt(config: PlanetConfig, userStars: int) {
    config.isDefaultUnlocked || userStars >= config.requiredStars
  }

  /** Earning stars never locks a planet again. */
  lemma UnlockingIsMonotone(config: PlanetConfig, s1: int, s2: int)
    requires s1 <= s2 && UnlockedAt(config, s1)
    ensures UnlockedAt(config, s2)
  {
  }

  /** The filters and sort keys the queries pass to the array operations. */
  function OfType(planetType: PlanetType): PlanetConfig -> bool {
    (c: PlanetConfig) => c.planetType == planetType
  }

  function UnlockedBy(userStars: int): PlanetConfig -> bool {
    (c: PlanetConfig) => UnlockedAt(c, userStars)
  }

  function LockedBy(userStars: int): PlanetConfig -> bool {
    (c: PlanetConfig) => !c.isDefaultUnlocked && userStars < c.requiredStars
  }

  predicate DefaultUnlocked(c: PlanetConfig) { c.isDefaultUnlocked }

  predicate NotDefaultUnlocked(c: PlanetConfig) { !c.isDefaultUnlocked }

  function RequiredStarsOf(c: PlanetConfig): int { c.requiredStars }

  function OrderOf(c: PlanetConfig): int { c.order }

  /** No two entries of the table are for the same planet. */
  lemma PlanetTypesAreDistinct()
    ensures forall i, j :: 0 <= i < j < |PLANET_CONFIGS| ==>
              PLANET_CONFIGS[i].planetType != PLANET_CONFIGS[j].planetType
  {
  }

  /** The position of a planet's entry in the table. */
  function IndexOf(planetType: PlanetType): (i: nat)
    ensures i < |PLANET_CONFIGS| && PLANET_CONFIGS[i].planetType == planetType
  {
    match planetType
    case Earth => 0
    case Moon => 1
    case Mars => 2
  }

  /** The table entry for a planet type. Every type has exactly one entry. */
  function GetPlanetConfig(planetType: PlanetType): (r: Option<PlanetConfig>)
    ensures r.Some? && r.value in PLANET_CONFIGS && r.value.planetType == planetType
    ensures forall i :: 0 <= i < |PLANET_CONFIGS| && PLANET_CONFIGS[i].planetType == planetType ==>
              r == Some(PLANET_CONFIGS[i])
  {
    assert OfType(planetType)(PLANET_CONFIGS[IndexOf(planetType)]);
    PlanetTypesAreDistinct();
    Find(PLANET_CONFIGS, OfType(planetType))
  }

  /** The unlocked planets, in table order. */
  function GetUnlockedPlanets(userStars: int): (r: seq<PlanetConfig>)
    ensures forall c :: c in r <==> c in PLANET_CONFIGS && UnlockedAt(c, userStars)
    ensures IsSubsequence(r, PLANET_CONFIGS)
  {
    Filter(PLANET_CONFIGS, UnlockedBy(userStars))
  }

  /** `Filter` over the table, one entry at a time. */
  lemma FilterTable(p: PlanetConfig -> bool)
    ensures Filter(PLANET_CONFIGS, p) ==
              (if p(EARTH) then [EARTH] else []) + Filter([MOON, MARS], p)
    ensures Filter([MOON, MARS], p) == (if p(MOON) then [MOON] else []) + Filter([MARS], p)
    ensures Filter([MARS], p) == if p(MARS) then [MARS] else []
  {
    FilterUnfold(PLANET_CONFIGS, p);
    assert PLANET_CONFIGS[1..] == [MOON, MARS];
    FilterUnfold([MOON, MARS], p);
    assert [MOON, MARS][1..] == [MARS];
    FilterSingleton(MARS, p);
  }

  lemma OnlyEarthBelow15(userStars: int)
    requires userStars < 15
    ensures GetUnlockedPlanets(userStars) == [EARTH]
  {
    var p := UnlockedBy(userStars);
    assert p(EARTH) && !p(MOON) && !p(MARS);
    FilterTable(p);
  }

  lemma EarthAndMoonFrom15(userStars: int)
    requires 15 <= userStars < 30
    ensures GetUnlockedPlanets(userStars) == [EARTH, MOON]
  {
    var p := UnlockedBy(userStars);
    assert p(EARTH) && p(MOON) && !p(MARS);
    FilterTable(p);
  }

  lemma AllPlanetsFrom30(userStars: int)
    requires 30 <= userStars
    ensures GetUnlockedPlanets(userStars) == PLANET_CONFIGS
  {
    var p := UnlockedBy(userStars);
    assert forall i :: 0 <= i < |PLANET_CONFIGS| ==> p(PLANET_CONFIGS[i]);
    FilterKeepsAll(PLANET_CONFIGS, p);
  }

  /** What the unlocked list is for each range of star counts. */
  lemma UnlockedPlanetsByStars(userStars: int)
    ensures userStars < 15 ==> GetUnlockedPlanets(userStars) == [EARTH]
    ensures 15 <= userStars < 30 ==> GetUnlockedPlanets(userStars) == [EARTH, MOON]
    ensures 30 <= userStars ==> GetUnlockedPlanets(userStars) == PLANET_CONFIGS
  {
    if userStars < 15 {
      OnlyEarthBelow15(userStars);
    } else if userStars < 30 {
      EarthAndMoonFrom15(userStars);
    } else {
      AllPlanetsFrom30(userStars);
    }
  }

  /** Whether a planet is unlocked: exactly when its entry is in the
      unlocked list. */
  function IsPlanetUnlocked(planetType: PlanetType, userStars: int): (r: bool)
    ensures r <==> exists c :: c in GetUnlockedPlanets(userStars) && c.planetType == planetType
  {
    match GetPlanetConfig(planetType)
    case None => false
    case Some(config) => UnlockedAt(config, userStars)
  }

  /** A planet unlocked at some star count stays unlocked at every higher
      one, and Earth is unlocked at every star count. */
  lemma PlanetUnlockIsMonotone(planetType: PlanetType, s1: int, s2: int)
    requires s1 <= s2 && IsPlanetUnlocked(planetType, s1)
    ensures IsPlanetUnlocked(planetType, s2)
    ensures IsPlanetUnlocked(Earth, s1)
  {
    UnlockingIsMonotone(GetPlanetConfig(planetType).value, s1, s2);
  }

  /** Among the planets of `table` that `userStars` leaves locked, the one
      with the smallest requirement, or `None` when
      none is locked. */
  function LeastLocked(table: seq<PlanetConfig>, userStars: int): (r: Option<PlanetConfig>)
    ensures r.None? <==> forall c :: c in table ==> UnlockedAt(c, userStars)
    ensures r.Some? ==> r.value in table && !UnlockedAt(r.value, userStars)
    ensures r.Some? ==> forall c :: c in table && !UnlockedAt(c, userStars) ==>
                          r.value.requiredStars <= c.requiredStars
  {
    var locked := Filter(table, LockedBy(userStars));
    var sorted := SortByKey(locked, RequiredStarsOf);
    if |sorted| == 0 then
      assert forall c :: c in table ==> UnlockedAt(c, userStars) by {
        forall c | c in table
          ensures UnlockedAt(c, userStars)
        {
          assert multiset(locked)[c] == 0;
        }
      }
      None
    else
      var next := sorted[0];
      assert next in multiset(locked);
      assert forall c :: c in table && !UnlockedAt(c, userStars) ==> next.requiredStars <= c.requiredStars by {
        forall c | c in table && !UnlockedAt(c, userStars)
          ensures next.requiredStars <= c.requiredStars
        {
          assert c in multiset(locked);
          assert c in multiset(sorted);
          SortedHeadIsLeast(sorted, RequiredStarsOf, c);
        }
      }
      Some(next)
  }

  /** The next planet to unlock: among the locked planets, the one with the
      smallest requirement, or `None` once every planet is unlocked. */
  function GetNextLockedPlanet(userStars: int): (r: Option<PlanetConfig>)
    ensures r.None? <==> forall c :: c in PLANET_CONFIGS ==> UnlockedAt(c, userStars)
    ensures r.Some? ==> r.value in PLANET_CONFIGS && !UnlockedAt(r.value, userStars)
    ensures r.Some? ==> !IsPlanetUnlocked(r.value.planetType, userStars)
    ensures r.Some? ==> forall c :: c in PLANET_CONFIGS && !UnlockedAt(c, userStars) ==>
                          r.value.requiredStars <= c.requiredStars
  {
    var r := LeastLocked(PLANET_CONFIGS, userStars);
    if r.Some? then
      assert GetPlanetConfig(r.value.planetType) == Some(r.value);
      r
    else
      r
  }

  /** Every planet that is not unlocked by default needs at least one star. */
  lemma LockedPlanetsNeedStars()
    ensures forall c :: c in PLANET_CONFIGS && !c.isDefaultUnlocked ==> c.requiredStars > 0
  {
  }

  /** For a positive requirement, the stars-to-requirement ratio reaches 1
      exactly when the requirement is met, is never negative for a
      non-negative star count, and grows with the star count. */
  lemma RatioFacts(s: int, s': int, required: int)
    requires required > 0
    ensures s as real / required as real >= 1.0 <==> s >= required
    ensures 0 <= s ==> 0.0 <= s as real / required as real
    ensures s <= s' ==> s as real / required as real <= s' as real / required as real
  {
    var d := required as real;
    assert s as real / d * d == s as real;
    assert s' as real / d - s as real / d == (s' as real - s as real) / d;
  }

  /** `Math.min(ratio, 1)`: the larger value that is at most both. */
  function Capped(ratio: real): (r: real)
    ensures r <= 1.0 && r <= ratio
    ensures r == ratio || r == 1.0
  {
    if ratio <= 1.0 then ratio else 1.0
  }

  /** How far the learner is towards unlocking a planet, as a fraction:
      the stars earned over the stars required, capped at 1, and 1 for a
      planet unlocked by default. For a non-negative star count the value
      lies between 0 and 1 and reaches 1 exactly when the planet is
      unlocked. */
  function GetPlanetUnlockProgress(planetType: PlanetType, userStars: int): (r: real)
    ensures GetPlanetConfig(planetType).value.isDefaultUnlocked ==> r == 1.0
    ensures var config := GetPlanetConfig(planetType).value;
            !config.isDefaultUnlocked && userStars <= config.requiredStars ==>
              r * config.requiredStars as real == userStars as real
    ensures var config := GetPlanetConfig(planetType).value;
            !config.isDefaultUnlocked && userStars >= config.requiredStars ==> r == 1.0
    ensures 0 <= userStars ==> 0.0 <= r <= 1.0
    ensures 0 <= userStars ==> (r == 1.0 <==> IsPlanetUnlocked(planetType, userStars))
  {
    match GetPlanetConfig(planetType)
    case None => 0.0
    case Some(config) =>
      if config.isDefaultUnlocked then 1.0
      else
        LockedPlanetsNeedStars();
        RatioFacts(userStars, userStars, config.requiredStars);
        Capped(userStars as real / config.requiredStars as real)
  }

  /** More stars never mean less progress. */
  lemma ProgressIsMonotone(planetType: PlanetType, s1: int, s2: int)
    requires s1 <= s2
    ensures GetPlanetUnlockProgress(planetType, s1) <= GetPlanetUnlockProgress(planetType, s2)
  {
    LockedPlanetsNeedStars();
    var config := GetPlanetConfig(planetType).value;
    if !config.isDefaultUnlocked {
      RatioFacts(s1, s2, config.requiredStars);
    }
  }

  /** The planets in unlock order: a permutation of the table sorted by
      `order`. The table is already in that order, so it comes back as is. */
  function GetPlanetsByOrder(): (r: seq<PlanetConfig>)
    ensures multiset(r) == multiset(PLANET_CONFIGS)
    ensures SortedBy(r, OrderOf)
    ensures r == PLANET_CONFIGS
  {
    TableIsInOrder();
    SortOfSortedIsIdentity(PLANET_CONFIGS, OrderOf);
    SortByKey(PLANET_CONFIGS, OrderOf)
  }

  /** The table lists the planets by increasing `order`. */
  lemma TableIsInOrder()
    ensures SortedBy(PLANET_CONFIGS, OrderOf)
  {
    assert forall i :: 0 <= i < |PLANET_CONFIGS| ==> OrderOf(PLANET_CONFIGS[i]) == i + 1;
  }

  datatype PlanetStats = PlanetStats(
    total: nat,
    defaultUnlocked: nat,
    requiresUnlock: nat,
    maxStarsRequired: int,
    minStarsRequired: int
  )

  const PLANET_STATS := PlanetStats(
    |PLANET_CONFIGS|,
    |Filter(PLANET_CONFIGS, DefaultUnlocked)|,
    |Filter(PLANET_CONFIGS, NotDefaultUnlocked)|,
    MaxOf(Map(PLANET_CONFIGS, RequiredStarsOf)),
    MinOf(Map(Filter(PLANET_CONFIGS, NotDefaultUnlocked), RequiredStarsOf))
  )

  /** The statistics agree with the table and the unlock rule: the default
      and the locked-by-default planets together make up the table; at
      `maxStarsRequired` stars every planet is unlocked; below
      `minStarsRequired` only the default planets are. */
  lemma PlanetStatsAreConsistent(userStars: int)
    ensures PLANET_STATS.defaultUnlocked + PLANET_STATS.requiresUnlock == PLANET_STATS.total
    ensures forall c :: c in PLANET_CONFIGS ==> c.requiredStars <= PLANET_STATS.maxStarsRequired
    ensures userStars >= PLANET_STATS.maxStarsRequired ==> GetUnlockedPlanets(userStars) == PLANET_CONFIGS
    ensures userStars < PLANET_STATS.minStarsRequired ==>
              forall c :: c in GetUnlockedPlanets(userStars) <==> c in PLANET_CONFIGS && c.isDefaultUnlocked
  {
    PlanetStatsValues();
    UnlockedPlanetsByStars(userStars);
  }

  /** The statistics of the table as it stands. */
  lemma PlanetStatsValues()
    ensures PLANET_STATS == PlanetStats(3, 1, 2, 30, 15)
  {
    DefaultUnlockedCount();
    LockedByDefault();
    RequirementBounds();
  }

  lemma DefaultUnlockedCount()
    ensures Filter(PLANET_CONFIGS, DefaultUnlocked) == [EARTH]
  {
    FilterTable(DefaultUnlocked);
  }

  lemma LockedByDefault()
    ensures Filter(PLANET_CONFIGS, NotDefaultUnlocked) == [MOON, MARS]
  {
    FilterTable(NotDefaultUnlocked);
  }

  lemma RequirementBounds()
    ensures MaxOf(Map(PLANET_CONFIGS, RequiredStarsOf)) == 30
    ensures MinOf(Map([MOON, MARS], RequiredStarsOf)) == 15
  {
    assert Map(PLANET_CONFIGS, RequiredStarsOf) == [0, 15, 30];
    assert Map([MOON, MARS], RequiredStarsOf) == [15, 30];
  }
}
