/** The animal catalogue of `data/animals.ts`: the Earth planet's five
    learning items and the look-up, filter and statistics queries over it. */
module Animals {
  import opened Optional
  import opened Seqs
  import opened LearningTypes

  const CAT := Animal("earth_cat", "Cat", "猫", "🐱", Earth, Beginner,
    "/assets/audio/animals/cat.mp3", Some("/assets/images/animals/cat.jpg"), Some("/kæt/"),
    Some("猫咪的叫声\"喵\"和Cat的发音很相似哦！"), 1, true, Mammal, Land, Small)
  const DOG := Animal("earth_dog", "Dog", "狗", "🐶", Earth, Beginner,
    "/assets/audio/animals/dog.mp3", Some("/assets/images/animals/dog.jpg"), Some("/dɔːg/"),
    Some("狗狗是人类最好的朋友，Dog读起来像\"道格\"！"), 2, true, Mammal, Land, Medium)
  const FISH := Animal("earth_fish", "Fish", "鱼", "🐟", Earth, Beginner,
    "/assets/audio/animals/fish.mp3", Some("/assets/images/animals/fish.jpg"), Some("/fɪʃ/"),
    Some("小鱼在水中游，Fish发音像\"费什\"！"), 3, true, Fish, Water, Small)
  const BIRD := Animal("earth_bird", "Bird", "鸟", "🐦", Earth, Intermediate,
    "/assets/audio/animals/bird.mp3", Some("/assets/images/animals/bird.jpg"), Some("/bɜːrd/"),
    Some("小鸟在天空飞翔，Bird发音要卷舌哦！"), 4, true, Bird, Air, Small)
  const COW := Animal("earth_cow", "Cow", "牛", "🐄", Earth, Beginner,
    "/assets/audio/animals/cow.mp3", Some("/assets/images/animals/cow.jpg"), Some("/kaʊ/"),
    Some("奶牛说\"哞\"，Cow发音像\"考\"！"), 5, true, Mammal, Land, Large)

  /** The catalogue, ordered by increasing pronunciation difficulty. */
  const EARTH_ANIMALS: seq<Animal> := [CAT, DOG, FISH, BIRD, COW]

  /** Each query below takes the catalogue it reads as its first argument;
      the application always passes `EARTH_ANIMALS`. */

  /** The filters and sort key the queries pass to the array operations. */
  function HasId(id: string): Animal -> bool {
    (a: Animal) => a.id == id
  }

  function WithDifficulty(difficulty: DifficultyLevel): Animal -> bool {
    (a: Animal) => a.difficulty == difficulty
  }

  function WithCategory(category: Category): Animal -> bool {
    (a: Animal) => a.category == category
  }

  function WithHabitat(habitat: Habitat): Animal -> bool {
    (a: Animal) => a.habitat == habitat
  }

  predicate IsEnabled(a: Animal) { a.enabled }

  function DifficultyOf(a: Animal): DifficultyLevel { a.difficulty }

  function CategoryOf(a: Animal): Category { a.category }

  function HabitatOf(a: Animal): Habitat { a.habitat }

  function OrderOf(a: Animal): int { a.order }

  /** No two entries of `catalogue` share an id. */
  ghost predicate DistinctIds(catalogue: seq<Animal>) {
    forall i, j :: 0 <= i < j < |catalogue| ==> catalogue[i].id != catalogue[j].id
  }

  /** The shipped catalogue has distinct ids. */
  lemma EarthAnimalIdsAreDistinct()
    ensures DistinctIds(EARTH_ANIMALS)
  {
  }

  /** The first entry with the given id, or `None` when no entry has it;
      with distinct ids, the only entry that has it. */
  function GetAnimalById(catalogue: seq<Animal>, id: string): (r: Option<Animal>)
    ensures r.Some? ==> r.value in catalogue && r.value.id == id
    ensures r.None? <==> forall a :: a in catalogue ==> a.id != id
    ensures DistinctIds(catalogue) ==>
              forall i :: 0 <= i < |catalogue| && catalogue[i].id == id ==> r == Some(catalogue[i])
  {
    Find(catalogue, HasId(id))
  }

  /** Looking up any shipped animal by its own id finds that animal. */
  lemma EveryEarthAnimalIsFoundById(a: Animal)
    requires a in EARTH_ANIMALS
    ensures GetAnimalById(EARTH_ANIMALS, a.id) == Some(a)
  {
    EarthAnimalIdsAreDistinct();
    var i :| 0 <= i < |EARTH_ANIMALS| && EARTH_ANIMALS[i] == a;
  }

  /** The entries of one difficulty, in catalogue order. */
  function GetAnimalsByDifficulty(catalogue: seq<Animal>, difficulty: DifficultyLevel): (r: seq<Animal>)
    ensures forall a :: a in r <==> a in catalogue && a.difficulty == difficulty
    ensures forall a :: multiset(r)[a] == if a.difficulty == difficulty then multiset(catalogue)[a] else 0
    ensures IsSubsequence(r, catalogue)
  {
    Filter(catalogue, WithDifficulty(difficulty))
  }

  /** The entries of one category, in catalogue order. */
  function GetAnimalsByCategory(catalogue: seq<Animal>, category: Category): (r: seq<Animal>)
    ensures forall a :: a in r <==> a in catalogue && a.category == category
    ensures forall a :: multiset(r)[a] == if a.category == category then multiset(catalogue)[a] else 0
    ensures IsSubsequence(r, catalogue)
  {
    Filter(catalogue, WithCategory(category))
  }

  /** The entries of one habitat, in catalogue order. */
  function GetAnimalsByHabitat(catalogue: seq<Animal>, habitat: Habitat): (r: seq<Animal>)
    ensures forall a :: a in r <==> a in catalogue && a.habitat == habitat
    ensures forall a :: multiset(r)[a] == if a.habitat == habitat then multiset(catalogue)[a] else 0
    ensures IsSubsequence(r, catalogue)
  {
    Filter(catalogue, WithHabitat(habitat))
  }

  /** The enabled entries, each as often as it occurs in the catalogue,
      sorted by `order`. */
  function GetEnabledAnimals(catalogue: seq<Animal>): (r: seq<Animal>)
    ensures forall a :: multiset(r)[a] == if a.enabled then multiset(catalogue)[a] else 0
    ensures forall a :: a in r <==> a in catalogue && a.enabled
    ensures SortedBy(r, OrderOf)
  {
    SortedFilterMembers(catalogue, IsEnabled, OrderOf);
    SortByKey(Filter(catalogue, IsEnabled), OrderOf)
  }

  /** The shipped catalogue lists the animals by increasing `order`. */
  lemma EarthAnimalsAreInOrder()
    ensures SortedBy(EARTH_ANIMALS, OrderOf)
  {
    assert forall i :: 0 <= i < |EARTH_ANIMALS| ==> OrderOf(EARTH_ANIMALS[i]) == i + 1;
  }

  /** Every shipped animal is enabled and the catalogue is already in
      `order`, so its enabled list is the catalogue itself. */
  lemma EnabledEarthAnimalsAreTheCatalogue()
    ensures GetEnabledAnimals(EARTH_ANIMALS) == EARTH_ANIMALS
  {
    assert Filter(EARTH_ANIMALS, IsEnabled) == EARTH_ANIMALS by {
      assert forall i :: 0 <= i < |EARTH_ANIMALS| ==> IsEnabled(EARTH_ANIMALS[i]);
      FilterKeepsAll(EARTH_ANIMALS, IsEnabled);
    }
    EarthAnimalsAreInOrder();
    SortOfSortedIsIdentity(EARTH_ANIMALS, OrderOf);
  }

  /** `count` animals drawn from the enabled ones (all of them when fewer
      are enabled). The shuffle is a parameter: `shuffled` is the enabled
      list in the order the random comparator left it. A negative count
      makes `slice` drop that many animals from the end instead. */
  function GetRandomAnimals(catalogue: seq<Animal>, count: int, shuffled: seq<Animal>): (r: seq<Animal>)
    requires multiset(shuffled) == multiset(GetEnabledAnimals(catalogue))
    ensures 0 <= count ==> |r| == Min(count, |GetEnabledAnimals(catalogue)|)
    ensures count < 0 ==> |r| == Max(|GetEnabledAnimals(catalogue)| + count, 0)
    ensures forall a :: a in r ==> a in catalogue && a.enabled
    ensures multiset(r) <= multiset(GetEnabledAnimals(catalogue))
  {
    var enabled := GetEnabledAnimals(catalogue);
    assert |shuffled| == |enabled| by {
      assert |multiset(shuffled)| == |multiset(enabled)|;
    }
    var r := SlicePrefix(shuffled, Min(count, |shuffled|));
    SubMultisetMembers(r, enabled);
    r
  }

  /** The sizes of the per-value selections of a catalogue, summed. */
  ghost function DifficultyTotal(s: seq<Animal>): int {
    |GetAnimalsByDifficulty(s, Beginner)| + |GetAnimalsByDifficulty(s, Intermediate)|
    + |GetAnimalsByDifficulty(s, Advanced)|
  }

  ghost function CategoryTotal(s: seq<Animal>): int {
    |GetAnimalsByCategory(s, Mammal)| + |GetAnimalsByCategory(s, Bird)|
    + |GetAnimalsByCategory(s, Fish)| + |GetAnimalsByCategory(s, Reptile)|
    + |GetAnimalsByCategory(s, Amphibian)| + |GetAnimalsByCategory(s, Insect)|
  }

  ghost function HabitatTotal(s: seq<Animal>): int {
    |GetAnimalsByHabitat(s, Land)| + |GetAnimalsByHabitat(s, Water)|
    + |GetAnimalsByHabitat(s, Air)| + |GetAnimalsByHabitat(s, Mixed)|
  }

  /** The first entry of a catalogue is counted under its own value and
      under no other. */
  lemma DifficultyStep(s: seq<Animal>, difficulty: DifficultyLevel)
    requires |s| > 0
    ensures |GetAnimalsByDifficulty(s, difficulty)| ==
              (if s[0].difficulty == difficulty then 1 else 0) + |GetAnimalsByDifficulty(s[1..], difficulty)|
  {
    FilterLengthUnfold(s, WithDifficulty(difficulty));
  }

  lemma CategoryStep(s: seq<Animal>, category: Category)
    requires |s| > 0
    ensures |GetAnimalsByCategory(s, category)| ==
              (if s[0].category == category then 1 else 0) + |GetAnimalsByCategory(s[1..], category)|
  {
    FilterLengthUnfold(s, WithCategory(category));
  }

  lemma HabitatStep(s: seq<Animal>, habitat: Habitat)
    requires |s| > 0
    ensures |GetAnimalsByHabitat(s, habitat)| ==
              (if s[0].habitat == habitat then 1 else 0) + |GetAnimalsByHabitat(s[1..], habitat)|
  {
    FilterLengthUnfold(s, WithHabitat(habitat));
  }

  /** Each entry adds exactly one to each grouping's sum. */
  lemma DifficultyTotalStep(s: seq<Animal>)
    requires |s| > 0
    ensures DifficultyTotal(s) == 1 + DifficultyTotal(s[1..])
  {
    DifficultyStep(s, Beginner);
    DifficultyStep(s, Intermediate);
    DifficultyStep(s, Advanced);
  }

  lemma CategoryTotalStep(s: seq<Animal>)
    requires |s| > 0
    ensures CategoryTotal(s) == 1 + CategoryTotal(s[1..])
  {
    CategoryStep(s, Mammal);
    CategoryStep(s, Bird);
    CategoryStep(s, Fish);
    CategoryStep(s, Reptile);
    CategoryStep(s, Amphibian);
    CategoryStep(s, Insect);
  }

  lemma HabitatTotalStep(s: seq<Animal>)
    requires |s| > 0
    ensures HabitatTotal(s) == 1 + HabitatTotal(s[1..])
  {
    HabitatStep(s, Land);
    HabitatStep(s, Water);
    HabitatStep(s, Air);
    HabitatStep(s, Mixed);
  }

  /** Difficulty, category and habitat each take one of a fixed set of
      values, so the per-value selections of any catalogue together have
      as many entries as the catalogue, for each of the three groupings. */
  lemma {:induction false} GroupsCoverCatalogue(s: seq<Animal>)
    ensures DifficultyTotal(s) == |s|
    ensures CategoryTotal(s) == |s|
    ensures HabitatTotal(s) == |s|
  {
    if |s| > 0 {
      GroupsCoverCatalogue(s[1..]);
      DifficultyTotalStep(s);
      CategoryTotalStep(s);
      HabitatTotalStep(s);
    }
  }

  datatype DifficultyCounts = DifficultyCounts(beginner: nat, intermediate: nat, advanced: nat)

  datatype CategoryCounts = CategoryCounts(
    mammal: nat, bird: nat, fish: nat, reptile: nat, amphibian: nat, insect: nat)

  datatype HabitatCounts = HabitatCounts(land: nat, water: nat, air: nat, mixed: nat)

  datatype AnimalStats = AnimalStats(
    total: nat,
    enabled: nat,
    byDifficulty: DifficultyCounts,
    byCategory: CategoryCounts,
    byHabitat: HabitatCounts
  )

  /** The count a summary books under one value of each grouping. */
  function DifficultyCount(c: DifficultyCounts, d: DifficultyLevel): nat {
    match d
    case Beginner => c.beginner
    case Intermediate => c.intermediate
    case Advanced => c.advanced
  }

  function CategoryCount(c: CategoryCounts, category: Category): nat {
    match category
    case Mammal => c.mammal
    case Bird => c.bird
    case Fish => c.fish
    case Reptile => c.reptile
    case Amphibian => c.amphibian
    case Insect => c.insect
  }

  function HabitatCount(c: HabitatCounts, h: Habitat): nat {
    match h
    case Land => c.land
    case Water => c.water
    case Air => c.air
    case Mixed => c.mixed
  }

  /** A selection by one value is as long as that value occurs among the
      entries' fields. */
  lemma DifficultySelectionCount(catalogue: seq<Animal>, d: DifficultyLevel)
    ensures |GetAnimalsByDifficulty(catalogue, d)| == multiset(Map(catalogue, DifficultyOf))[d]
  {
    assert forall x :: WithDifficulty(d)(x) == (DifficultyOf(x) == d);
    FilterCountsValue(catalogue, WithDifficulty(d), DifficultyOf, d);
  }

  lemma CategorySelectionCount(catalogue: seq<Animal>, category: Category)
    ensures |GetAnimalsByCategory(catalogue, category)| == multiset(Map(catalogue, CategoryOf))[category]
  {
    assert forall x :: WithCategory(category)(x) == (CategoryOf(x) == category);
    FilterCountsValue(catalogue, WithCategory(category), CategoryOf, category);
  }

  lemma HabitatSelectionCount(catalogue: seq<Animal>, h: Habitat)
    ensures |GetAnimalsByHabitat(catalogue, h)| == multiset(Map(catalogue, HabitatOf))[h]
  {
    assert forall x :: WithHabitat(h)(x) == (HabitatOf(x) == h);
    FilterCountsValue(catalogue, WithHabitat(h), HabitatOf, h);
  }

  /** Counts booked from the selections hold, under each value, the number
      of entries with that value. */
  lemma DifficultyBuckets(catalogue: seq<Animal>, c: DifficultyCounts)
    requires c.beginner == |GetAnimalsByDifficulty(catalogue, Beginner)|
    requires c.intermediate == |GetAnimalsByDifficulty(catalogue, Intermediate)|
    requires c.advanced == |GetAnimalsByDifficulty(catalogue, Advanced)|
    ensures forall d :: DifficultyCount(c, d) == multiset(Map(catalogue, DifficultyOf))[d]
  {
    forall d: DifficultyLevel
      ensures DifficultyCount(c, d) == multiset(Map(catalogue, DifficultyOf))[d]
    {
      DifficultySelectionCount(catalogue, d);
      DifficultyBucketIsSelection(catalogue, c, d);
    }
  }

  /** The bucket a value names is the one booked from that value's selection. */
  lemma DifficultyBucketIsSelection(catalogue: seq<Animal>, c: DifficultyCounts, d: DifficultyLevel)
    requires c.beginner == |GetAnimalsByDifficulty(catalogue, Beginner)|
    requires c.intermediate == |GetAnimalsByDifficulty(catalogue, Intermediate)|
    requires c.advanced == |GetAnimalsByDifficulty(catalogue, Advanced)|
    ensures DifficultyCount(c, d) == |GetAnimalsByDifficulty(catalogue, d)|
  {
    match d
    case Beginner =>
    case Intermediate =>
    case Advanced =>
  }

  lemma CategoryBuckets(catalogue: seq<Animal>, c: CategoryCounts)
    requires c.mammal == |GetAnimalsByCategory(catalogue, Mammal)|
    requires c.bird == |GetAnimalsByCategory(catalogue, Bird)|
    requires c.fish == |GetAnimalsByCategory(catalogue, Fish)|
    requires c.reptile == |GetAnimalsByCategory(catalogue, Reptile)|
    requires c.amphibian == |GetAnimalsByCategory(catalogue, Amphibian)|
    requires c.insect == |GetAnimalsByCategory(catalogue, Insect)|
    ensures forall category :: CategoryCount(c, category) == multiset(Map(catalogue, CategoryOf))[category]
  {
    forall category: Category
      ensures CategoryCount(c, category) == multiset(Map(catalogue, CategoryOf))[category]
    {
      CategorySelectionCount(catalogue, category);
      CategoryBucketIsSelection(catalogue, c, category);
    }
  }

  lemma CategoryBucketIsSelection(catalogue: seq<Animal>, c: CategoryCounts, category: Category)
    requires c.mammal == |GetAnimalsByCategory(catalogue, Mammal)|
    requires c.bird == |GetAnimalsByCategory(catalogue, Bird)|
    requires c.fish == |GetAnimalsByCategory(catalogue, Fish)|
    requires c.reptile == |GetAnimalsByCategory(catalogue, Reptile)|
    requires c.amphibian == |GetAnimalsByCategory(catalogue, Amphibian)|
    requires c.insect == |GetAnimalsByCategory(catalogue, Insect)|
    ensures CategoryCount(c, category) == |GetAnimalsByCategory(catalogue, category)|
  {
    match category
    case Mammal =>
    case Bird =>
    case Fish =>
    case Reptile =>
    case Amphibian =>
    case Insect =>
  }

  lemma HabitatBuckets(catalogue: seq<Animal>, c: HabitatCounts)
    requires c.land == |GetAnimalsByHabitat(catalogue, Land)|
    requires c.water == |GetAnimalsByHabitat(catalogue, Water)|
    requires c.air == |GetAnimalsByHabitat(catalogue, Air)|
    requires c.mixed == |GetAnimalsByHabitat(catalogue, Mixed)|
    ensures forall h :: HabitatCount(c, h) == multiset(Map(catalogue, HabitatOf))[h]
  {
    forall h: Habitat
      ensures HabitatCount(c, h) == multiset(Map(catalogue, HabitatOf))[h]
    {
      HabitatSelectionCount(catalogue, h);
      HabitatBucketIsSelection(catalogue, c, h);
    }
  }

  lemma HabitatBucketIsSelection(catalogue: seq<Animal>, c: HabitatCounts, h: Habitat)
    requires c.land == |GetAnimalsByHabitat(catalogue, Land)|
    requires c.water == |GetAnimalsByHabitat(catalogue, Water)|
    requires c.air == |GetAnimalsByHabitat(catalogue, Air)|
    requires c.mixed == |GetAnimalsByHabitat(catalogue, Mixed)|
    ensures HabitatCount(c, h) == |GetAnimalsByHabitat(catalogue, h)|
  {
    match h
    case Land =>
    case Water =>
    case Air =>
    case Mixed =>
  }

  /** The per-value counts of each grouping: each bucket holds the number
      of entries with that value, and the buckets add up to the catalogue
      size. */
  function DifficultyCountsOf(catalogue: seq<Animal>): (c: DifficultyCounts)
    ensures forall d :: DifficultyCount(c, d) == multiset(Map(catalogue, DifficultyOf))[d]
    ensures c.beginner + c.intermediate + c.advanced == |catalogue|
  {
    var c := DifficultyCounts(
      |GetAnimalsByDifficulty(catalogue, Beginner)|,
      |GetAnimalsByDifficulty(catalogue, Intermediate)|,
      |GetAnimalsByDifficulty(catalogue, Advanced)|);
    DifficultyBuckets(catalogue, c);
    GroupsCoverCatalogue(catalogue);
    c
  }

  function CategoryCountsOf(catalogue: seq<Animal>): (c: CategoryCounts)
    ensures forall category :: CategoryCount(c, category) == multiset(Map(catalogue, CategoryOf))[category]
    ensures c.mammal + c.bird + c.fish + c.reptile + c.amphibian + c.insect == |catalogue|
  {
    var c := CategoryCounts(
      |GetAnimalsByCategory(catalogue, Mammal)|,
      |GetAnimalsByCategory(catalogue, Bird)|,
      |GetAnimalsByCategory(catalogue, Fish)|,
      |GetAnimalsByCategory(catalogue, Reptile)|,
      |GetAnimalsByCategory(catalogue, Amphibian)|,
      |GetAnimalsByCategory(catalogue, Insect)|);
    CategoryBuckets(catalogue, c);
    GroupsCoverCatalogue(catalogue);
    c
  }

  function HabitatCountsOf(catalogue: seq<Animal>): (c: HabitatCounts)
    ensures forall h :: HabitatCount(c, h) == multiset(Map(catalogue, HabitatOf))[h]
    ensures c.land + c.water + c.air + c.mixed == |catalogue|
  {
    var c := HabitatCounts(
      |GetAnimalsByHabitat(catalogue, Land)|,
      |GetAnimalsByHabitat(catalogue, Water)|,
      |GetAnimalsByHabitat(catalogue, Air)|,
      |GetAnimalsByHabitat(catalogue, Mixed)|);
    HabitatBuckets(catalogue, c);
    GroupsCoverCatalogue(catalogue);
    c
  }

  /** The statistics of a catalogue: its size, its enabled count, and its
      size per difficulty, category and habitat. Each bucket holds the
      number of entries with its value, each grouping sums to the total, and
      the enabled count is the length of the enabled list. */
  function StatsOf(catalogue: seq<Animal>): (r: AnimalStats)
    ensures r.total == |catalogue|
    ensures r.byDifficulty.beginner + r.byDifficulty.intermediate + r.byDifficulty.advanced == r.total
    ensures r.byCategory.mammal + r.byCategory.bird + r.byCategory.fish + r.byCategory.reptile
          + r.byCategory.amphibian + r.byCategory.insect == r.total
    ensures r.byHabitat.land + r.byHabitat.water + r.byHabitat.air + r.byHabitat.mixed == r.total
    ensures r.enabled == |GetEnabledAnimals(catalogue)|
    ensures forall d :: DifficultyCount(r.byDifficulty, d) == multiset(Map(catalogue, DifficultyOf))[d]
    ensures forall c :: CategoryCount(r.byCategory, c) == multiset(Map(catalogue, CategoryOf))[c]
    ensures forall h :: HabitatCount(r.byHabitat, h) == multiset(Map(catalogue, HabitatOf))[h]
  {
    AnimalStats(
      |catalogue|,
      |Filter(catalogue, IsEnabled)|,
      DifficultyCountsOf(catalogue),
      CategoryCountsOf(catalogue),
      HabitatCountsOf(catalogue))
  }

  const ANIMAL_STATS := StatsOf(EARTH_ANIMALS)

  /** The fields of the shipped catalogue, entry by entry. */
  lemma EarthDifficulties()
    ensures Map(EARTH_ANIMALS, DifficultyOf) == [Beginner, Beginner, Beginner, Intermediate, Beginner]
  {
  }

  lemma EarthCategories()
    ensures Map(EARTH_ANIMALS, CategoryOf) == [Mammal, Mammal, Fish, Bird, Mammal]
  {
  }

  lemma EarthHabitats()
    ensures Map(EARTH_ANIMALS, HabitatOf) == [Land, Land, Water, Air, Land]
  {
  }

  /** How often each value occurs among those fields. */
  lemma EarthDifficultyTally(values: seq<DifficultyLevel>)
    requires values == [Beginner, Beginner, Beginner, Intermediate, Beginner]
    ensures multiset(values)[Beginner] == 4 && multiset(values)[Intermediate] == 1
    ensures multiset(values)[Advanced] == 0
  {
    assert multiset(values) == multiset{Beginner} + multiset{Beginner} + multiset{Beginner}
                               + multiset{Intermediate} + multiset{Beginner};
  }

  lemma EarthCategoryTally(values: seq<Category>)
    requires values == [Mammal, Mammal, Fish, Bird, Mammal]
    ensures multiset(values)[Mammal] == 3 && multiset(values)[Bird] == 1 && multiset(values)[Fish] == 1
    ensures multiset(values)[Reptile] == 0 && multiset(values)[Amphibian] == 0 && multiset(values)[Insect] == 0
  {
    assert multiset(values) == multiset{Mammal} + multiset{Mammal} + multiset{Fish}
                               + multiset{Bird} + multiset{Mammal};
  }

  lemma EarthHabitatTally(values: seq<Habitat>)
    requires values == [Land, Land, Water, Air, Land]
    ensures multiset(values)[Land] == 3 && multiset(values)[Water] == 1 && multiset(values)[Air] == 1
    ensures multiset(values)[Mixed] == 0
  {
    assert multiset(values) == multiset{Land} + multiset{Land} + multiset{Water}
                               + multiset{Air} + multiset{Land};
  }

  /** A catalogue whose difficulties are those of the shipped one has four
      beginner words and one intermediate. */
  lemma DifficultyCountsOfFields(catalogue: seq<Animal>)
    requires Map(catalogue, DifficultyOf) == [Beginner, Beginner, Beginner, Intermediate, Beginner]
    ensures DifficultyCountsOf(catalogue) == DifficultyCounts(4, 1, 0)
  {
    var c := DifficultyCountsOf(catalogue);
    EarthDifficultyTally(Map(catalogue, DifficultyOf));
    assert DifficultyCount(c, Beginner) == 4;
    assert DifficultyCount(c, Intermediate) == 1;
    assert DifficultyCount(c, Advanced) == 0;
  }

  /** Three mammals, a bird and a fish. */
  lemma CategoryCountsOfFields(catalogue: seq<Animal>)
    requires Map(catalogue, CategoryOf) == [Mammal, Mammal, Fish, Bird, Mammal]
    ensures CategoryCountsOf(catalogue) == CategoryCounts(3, 1, 1, 0, 0, 0)
  {
    var c := CategoryCountsOf(catalogue);
    EarthCategoryTally(Map(catalogue, CategoryOf));
    assert CategoryCount(c, Mammal) == 3;
    assert CategoryCount(c, Bird) == 1;
    assert CategoryCount(c, Fish) == 1;
    assert CategoryCount(c, Reptile) == 0;
    assert CategoryCount(c, Amphibian) == 0;
    assert CategoryCount(c, Insect) == 0;
  }

  /** Three land animals, one of the water and one of the air. */
  lemma HabitatCountsOfFields(catalogue: seq<Animal>)
    requires Map(catalogue, HabitatOf) == [Land, Land, Water, Air, Land]
    ensures HabitatCountsOf(catalogue) == HabitatCounts(3, 1, 1, 0)
  {
    var c := HabitatCountsOf(catalogue);
    EarthHabitatTally(Map(catalogue, HabitatOf));
    assert HabitatCount(c, Land) == 3;
    assert HabitatCount(c, Water) == 1;
    assert HabitatCount(c, Air) == 1;
    assert HabitatCount(c, Mixed) == 0;
  }

  /** The shipped catalogue has five animals, all enabled: four beginner
      words and one intermediate; three mammals, a bird and a fish; three
      land animals, one of the water and one of the air. */
  lemma AnimalStatsValues()
    ensures ANIMAL_STATS.total == 5
    ensures ANIMAL_STATS.enabled == 5
    ensures ANIMAL_STATS.byDifficulty.beginner == 4
    ensures ANIMAL_STATS.byDifficulty.intermediate == 1
    ensures ANIMAL_STATS.byDifficulty.advanced == 0
    ensures ANIMAL_STATS.byCategory.mammal == 3
    ensures ANIMAL_STATS.byCategory.bird == 1
    ensures ANIMAL_STATS.byCategory.fish == 1
    ensures ANIMAL_STATS.byCategory.reptile == 0
    ensures ANIMAL_STATS.byCategory.amphibian == 0
    ensures ANIMAL_STATS.byCategory.insect == 0
    ensures ANIMAL_STATS.byHabitat.land == 3
    ensures ANIMAL_STATS.byHabitat.water == 1
    ensures ANIMAL_STATS.byHabitat.air == 1
    ensures ANIMAL_STATS.byHabitat.mixed == 0
  {
    EnabledEarthAnimalsAreTheCatalogue();
    EarthDifficulties();
    EarthCategories();
    EarthHabitats();
    DifficultyCountsOfFields(EARTH_ANIMALS);
    CategoryCountsOfFields(EARTH_ANIMALS);
    HabitatCountsOfFields(EARTH_ANIMALS);
  }
}
