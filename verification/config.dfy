/** The application configuration of `data/config.ts`: the production and
    development presets, the environment switch between them, and the
    scoring rules built on them (star rating, rewards, mastery). */
module Config {
  import opened Optional
  import opened Seqs
  import opened LearningTypes

  /** The confidence cut points of the three star bands. */
  datatype Thresholds = Thresholds(oneStar: real, twoStar: real, threeStar: real)

  predicate Ascending(t: Thresholds) {
    t.oneStar <= t.twoStar <= t.threeStar
  }

  datatype VoiceRecognitionConfig = VoiceRecognitionConfig(
    language: string,
    maxRecordingDuration: int,
    minRecordingDuration: int,
    confidenceThresholds: Thresholds
  )

  /** A `Record<StarRating, number>`: one amount per star rating. */
  datatype PerStar = PerStar(one: int, two: int, three: int) {
    function At(rating: StarRating): int {
      if rating == 1 then one else if rating == 2 then two else three
    }
  }

  datatype RewardConfig = RewardConfig(fuelPerStar: PerStar, pointsPerStar: PerStar)

  datatype UiConfig = UiConfig(animationDuration: int, autoPlayInterval: int, hapticFeedback: bool)

  datatype AppConfig = AppConfig(
    voiceRecognition: VoiceRecognitionConfig,
    rewards: RewardConfig,
    ui: UiConfig
  )

  /** A `Partial<AppConfig>`: an absent section is `None`. */
  datatype PartialAppConfig = PartialAppConfig(
    voiceRecognition: Option<VoiceRecognitionConfig>,
    rewards: Option<RewardConfig>,
    ui: Option<UiConfig>
  )

  /** The production preset. */
  const APP_CONFIG := AppConfig(
    VoiceRecognitionConfig("en-US", 5000, 500, Thresholds(50.0, 70.0, 90.0)),
    RewardConfig(PerStar(1, 2, 3), PerStar(1, 2, 3)),
    UiConfig(300, 2000, true)
  )

  /** The development overrides: lower thresholds and faster animations,
      every other field of the two sections copied from production. */
  const DEV_CONFIG := PartialAppConfig(
    Some(APP_CONFIG.voiceRecognition.(confidenceThresholds := Thresholds(30.0, 50.0, 70.0))),
    None,
    Some(APP_CONFIG.ui.(animationDuration := 150, autoPlayInterval := 1000))
  )

  const VOICE_CONFIG := APP_CONFIG.voiceRecognition
  const REWARD_CONFIG := APP_CONFIG.rewards
  const UI_CONFIG := APP_CONFIG.ui

  /** Mastery: three attempts in a row ... */
  const MASTERY_REQUIRED_COUNT: nat := 3
  /** ... each rated three stars. */
  const MASTERY_REQUIRED_RATING: StarRating := 3
  const MAX_ATTEMPTS_DISPLAY: nat := 99
  const LEARNING_RECORD_RETENTION_DAYS: nat := 30
  const STATS_UPDATE_INTERVAL: nat := 1000

  /** `{...base, ...overrides}` with each section merged one level deep
      as well: a section the overrides lack keeps the base's value. */
  function Merge(base: AppConfig, overrides: PartialAppConfig): (r: AppConfig)
    ensures overrides.voiceRecognition.None? ==> r.voiceRecognition == base.voiceRecognition
    ensures overrides.rewards.None? ==> r.rewards == base.rewards
    ensures overrides.ui.None? ==> r.ui == base.ui
    ensures overrides.voiceRecognition.Some? ==> r.voiceRecognition == overrides.voiceRecognition.value
    ensures overrides.rewards.Some? ==> r.rewards == overrides.rewards.value
    ensures overrides.ui.Some? ==> r.ui == overrides.ui.value
  {
    AppConfig(
      overrides.voiceRecognition.OverridesOr(base.voiceRecognition),
      overrides.rewards.OverridesOr(base.rewards),
      overrides.ui.OverridesOr(base.ui)
    )
  }

  /** The configuration for the environment: production unchanged, or
      production with the development overrides merged in, which changes
      the thresholds, the animation duration and the auto-play interval
      and nothing else. */
  function GetAppConfig(isDev: bool): (r: AppConfig)
    ensures !isDev ==> r == APP_CONFIG
    ensures isDev ==> r.voiceRecognition.confidenceThresholds == Thresholds(30.0, 50.0, 70.0)
    ensures isDev ==> r.ui.animationDuration == 150 && r.ui.autoPlayInterval == 1000
    ensures isDev ==> r == APP_CONFIG.(
                             voiceRecognition := APP_CONFIG.voiceRecognition.(
                               confidenceThresholds := r.voiceRecognition.confidenceThresholds),
                             ui := APP_CONFIG.ui.(
                               animationDuration := r.ui.animationDuration,
                               autoPlayInterval := r.ui.autoPlayInterval))
    ensures Ascending(r.voiceRecognition.confidenceThresholds)
  {
    if isDev then Merge(APP_CONFIG, DEV_CONFIG) else APP_CONFIG
  }

  /** The star rating for a confidence under thresholds `t`: three stars at
      or above `threeStar`, else two at or above `twoStar`, else one. The
      `oneStar` cut point only separates two branches that both give one
      star, so every confidence earns at least one star. */
  function RatingFor(confidence: real, t: Thresholds): (r: StarRating)
    ensures confidence >= t.threeStar ==> r == 3
    ensures t.twoStar <= confidence < t.threeStar ==> r == 2
    ensures confidence < t.twoStar && confidence < t.threeStar ==> r == 1
  {
    if confidence >= t.threeStar then 3
    else if confidence >= t.twoStar then 2
    else if confidence >= t.oneStar then 1
    else 1
  }

  /** The rating the application computes: always under the production
      thresholds 50/70/90, since the configuration is read with the
      default `isDev = false`. */
  function CalculateStarRating(confidence: real): (r: StarRating)
    ensures confidence >= 90.0 ==> r == 3
    ensures 70.0 <= confidence < 90.0 ==> r == 2
    ensures confidence < 70.0 ==> r == 1
  {
    RatingFor(confidence, GetAppConfig(false).voiceRecognition.confidenceThresholds)
  }

  /** The `oneStar` threshold never changes a rating. */
  lemma OneStarThresholdIsIrrelevant(confidence: real, t: Thresholds, oneStar: real)
    ensures RatingFor(confidence, t.(oneStar := oneStar)) == RatingFor(confidence, t)
  {
  }

  /** More confidence never earns fewer stars, whatever the thresholds:
      when `twoStar` exceeds `threeStar` the two-star band is simply empty. */
  lemma RatingIsMonotone(c1: real, c2: real, t: Thresholds)
    requires c1 <= c2
    ensures RatingFor(c1, t) <= RatingFor(c2, t)
  {
  }

  /** The development thresholds never rate an attempt lower than the
      production ones. */
  lemma DevRatingIsNeverLower(confidence: real)
    ensures RatingFor(confidence, GetAppConfig(true).voiceRecognition.confidenceThresholds)
         >= RatingFor(confidence, GetAppConfig(false).voiceRecognition.confidenceThresholds)
  {
  }

  datatype Reward = Reward(fuel: int, points: int, stars: StarRating)

  /** The fuel and points for a rating, looked up in the production reward
      tables, where each star is worth one unit of either. */
  function CalculateRewards(rating: StarRating): (r: Reward)
    ensures r.stars == rating
    ensures r.fuel == rating && r.points == rating
  {
    var rewards := GetAppConfig(false).rewards;
    Reward(rewards.fuelPerStar.At(rating), rewards.pointsPerStar.At(rating), rating)
  }

  /** The development environment keeps the production reward tables, so
      the environment does not change any reward. */
  lemma RewardsDoNotDependOnEnvironment(rating: StarRating)
    ensures GetAppConfig(true).rewards == GetAppConfig(false).rewards
    ensures GetAppConfig(true).rewards.fuelPerStar.At(rating) == CalculateRewards(rating).fuel
    ensures GetAppConfig(true).rewards.pointsPerStar.At(rating) == CalculateRewards(rating).points
  {
  }

  /** Whether the learner has mastered an item, given its attempts most
      recent first: there are at least `masteryCount` attempts and the
      first `masteryCount` of them (`slice(0, masteryCount)`) are all rated
      three stars. A negative count makes `slice` drop that many attempts
      from the end instead. */
  function CheckMastery(recentAttempts: seq<LearningAttempt>, masteryCount: int): (r: bool)
    ensures |recentAttempts| < masteryCount ==> !r
    ensures 0 <= masteryCount <= |recentAttempts| ==>
              (r <==> forall i :: 0 <= i < masteryCount ==> recentAttempts[i].rating == 3)
    ensures masteryCount < 0 ==>
              (r <==> forall i :: 0 <= i < |recentAttempts| + masteryCount ==> recentAttempts[i].rating == 3)
  {
    if |recentAttempts| < masteryCount then false
    else
      var window := SlicePrefix(recentAttempts, masteryCount);
      forall i :: 0 <= i < |window| ==> window[i].rating == 3
  }

  /** Mastery with the default count is the rule `CONFIG_CONSTANTS` states:
      the last `MASTERY_REQUIRED_COUNT` attempts all earned
      `MASTERY_REQUIRED_RATING`. */
  lemma DefaultMasteryMatchesConstants(recentAttempts: seq<LearningAttempt>)
    ensures CheckMastery(recentAttempts, 3) <==>
              |recentAttempts| >= MASTERY_REQUIRED_COUNT &&
              forall i :: 0 <= i < MASTERY_REQUIRED_COUNT ==> recentAttempts[i].rating == MASTERY_REQUIRED_RATING
  {
  }

  /** Attempts older than the window never affect mastery. */
  lemma {:induction false} MasteryIgnoresOlderAttempts(recent: seq<LearningAttempt>, older: seq<LearningAttempt>, masteryCount: int)
    requires 0 <= masteryCount <= |recent|
    ensures CheckMastery(recent + older, masteryCount) == CheckMastery(recent, masteryCount)
  {
    assert forall i :: 0 <= i < masteryCount ==> (recent + older)[i] == recent[i];
  }

  /** A new three-star attempt keeps a mastered item mastered; any other
      rating on the newest attempt loses mastery. */
  lemma MasteryUnderNewAttempt(attempt: LearningAttempt, recentAttempts: seq<LearningAttempt>, masteryCount: int)
    requires 1 <= masteryCount
    ensures (attempt.rating == 3 && CheckMastery(recentAttempts, masteryCount)) ==>
              CheckMastery([attempt] + recentAttempts, masteryCount)
    ensures attempt.rating != 3 ==> !CheckMastery([attempt] + recentAttempts, masteryCount)
  {
    var s := [attempt] + recentAttempts;
    if attempt.rating == 3 && CheckMastery(recentAttempts, masteryCount) && masteryCount <= |s| {
      assert forall i :: 1 <= i < masteryCount ==> s[i] == recentAttempts[i - 1];
    }
    if attempt.rating != 3 && masteryCount <= |s| {
      assert s[0].rating != 3;
    }
  }

  /** The worked examples: ratings under both presets, rewards, and
      mastery over short histories. */
  lemma ScoringExamples(a3: LearningAttempt, a2: LearningAttempt)
    requires a3.rating == 3 && a2.rating == 2
    ensures CalculateStarRating(95.0) == 3 && CalculateStarRating(75.0) == 2
    ensures CalculateStarRating(55.0) == 1 && CalculateStarRating(10.0) == 1
    ensures RatingFor(55.0, GetAppConfig(true).voiceRecognition.confidenceThresholds) == 2
    ensures CalculateRewards(3) == Reward(3, 3, 3) && CalculateRewards(1) == Reward(1, 1, 1)
    ensures CheckMastery([a3, a3, a3], 3)
    ensures !CheckMastery([a3, a3, a2], 3)
    ensures !CheckMastery([a3, a3], 3)
  {
    assert [a3, a3, a2][2].rating == 2;
  }
}
