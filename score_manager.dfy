/**
 * Score and progress bookkeeping. The key/value store behind the score
 * manager is modelled as three maps, one per key family: `level_<id>_stats`,
 * `game_progress` and `completions_level_<id>`. A missing key reads as
 * `null`, which the manager replaces by a default value.
 *
 * Times are milliseconds. Stored times go through JavaScript truthiness
 * (`!stats.bestTime`), so a stored time of 0 counts as missing; `Truthy`
 * says exactly that.
 */
module ScoreManager {
  import opened Common

  datatype LevelStats = LevelStats(levelId: int, bestTime: Option<int>, totalAttempts: int,
                                   totalDeaths: int, completions: int, firstCompletionTime: Option<int>)

  datatype GameProgress = GameProgress(currentLevel: int, completedLevels: seq<int>, unlockedLevels: seq<int>)

  /**
   * The `gyroMode` slot of a stored completion record. It is declared as a
   * string, but JavaScript stores whatever the caller passes, so a number
   * can end up there too.
   */
  datatype ModeTag = ModeName(name: string) | ModeNumber(n: int)

  datatype CompletionRecord = CompletionRecord(levelId: int, petId: string, petName: string, petEmoji: string,
                                               completionTime: int, attempts: int, deaths: int,
                                               timestamp: int, gyroMode: ModeTag)

  datatype CompletionResult = CompletionResult(isNewRecord: bool, stats: LevelStats)

  /** A `number | null` that JavaScript treats as true: present and not 0. */
  predicate Truthy(t: Option<int>)
  {
    t.Some? && t.value != 0
  }

  /** The stats of a level that has no stored stats yet. */
  function DefaultStats(levelId: int): (s: LevelStats)
    ensures s.levelId == levelId && s.bestTime == None && s.firstCompletionTime == None
    ensures s.totalAttempts == 0 && s.totalDeaths == 0 && s.completions == 0
  {
    LevelStats(levelId, None, 0, 0, 0, None)
  }

  /** The progress of a player with no stored progress: level 1, unlocked. */
  function DefaultProgress(): (p: GameProgress)
    ensures p.currentLevel == 1 && p.completedLevels == [] && p.unlockedLevels == [1]
  {
    GameProgress(1, [], [1])
  }

  /**
   * The stats after one completion in `completionTime`: one more completion,
   * the first completion time written once, and a new record exactly when
   * there was no (truthy) best time or the new time is strictly smaller, in
   * which case it becomes the best time.
   */
  function Completed(s: LevelStats, completionTime: int): (r: CompletionResult)
    ensures r.stats.completions == s.completions + 1
    ensures r.stats.levelId == s.levelId && r.stats.totalAttempts == s.totalAttempts
    ensures r.stats.totalDeaths == s.totalDeaths
    ensures Truthy(s.firstCompletionTime) ==> r.stats.firstCompletionTime == s.firstCompletionTime
    ensures !Truthy(s.firstCompletionTime) ==> r.stats.firstCompletionTime == Some(completionTime)
    ensures r.isNewRecord <==> !Truthy(s.bestTime) || completionTime < s.bestTime.value
    ensures r.stats.bestTime == if r.isNewRecord then Some(completionTime) else s.bestTime
  {
    var first := if !Truthy(s.firstCompletionTime) then Some(completionTime) else s.firstCompletionTime;
    var isNewRecord := !Truthy(s.bestTime) || completionTime < s.bestTime.value;
    var best := if isNewRecord then Some(completionTime) else s.bestTime;
    CompletionResult(isNewRecord, s.(completions := s.completions + 1, firstCompletionTime := first, bestTime := best))
  }

  function SeqMin(s: seq<int>): (m: int)
    requires |s| > 0
    ensures m in s && forall i :: 0 <= i < |s| ==> m <= s[i]
  {
    if |s| == 1 then s[0] else Min(s[0], SeqMin(s[1..]))
  }

  /** A run of completions, one after the other. */
  function CompleteAll(s: LevelStats, times: seq<int>): LevelStats
    decreases |times|
  {
    if times == [] then s else CompleteAll(Completed(s, times[0]).stats, times[1..])
  }

  /**
   * With positive times, the best time is the minimum of all times seen, the
   * first completion time is the first time ever recorded, and each run adds
   * its length to the completion counter.
   */
  lemma {:induction false} BestTimeIsMinimum(s: LevelStats, times: seq<int>)
    decreases |times|
    requires forall i :: 0 <= i < |times| ==> times[i] > 0
    requires s.bestTime.Some? ==> s.bestTime.value > 0
    requires s.firstCompletionTime.Some? ==> s.firstCompletionTime.value > 0
    ensures var r := CompleteAll(s, times);
      && r.completions == s.completions + |times|
      && r.totalAttempts == s.totalAttempts && r.totalDeaths == s.totalDeaths
      && (times == [] ==> r.bestTime == s.bestTime)
      && (times != [] && s.bestTime.None? ==> r.bestTime == Some(SeqMin(times)))
      && (times != [] && s.bestTime.Some? ==> r.bestTime == Some(Min(s.bestTime.value, SeqMin(times))))
      && (s.firstCompletionTime.Some? ==> r.firstCompletionTime == s.firstCompletionTime)
      && (s.firstCompletionTime.None? && times != [] ==> r.firstCompletionTime == Some(times[0]))
  {
    if times != [] {
      var next := Completed(s, times[0]).stats;
      BestTimeIsMinimum(next, times[1..]);
      if |times| > 1 {
        assert SeqMin(times) == Min(times[0], SeqMin(times[1..]));
      }
    }
  }

  predicate NoDuplicates(s: seq<int>)
  {
    forall i, j :: 0 <= i < j < |s| ==> s[i] != s[j]
  }

  /** `if (!list.includes(x)) list.push(x)`. */
  function PushNew(s: seq<int>, x: int): (r: seq<int>)
    ensures x in r && forall y :: y in r <==> y in s || y == x
    ensures |s| <= |r| <= |s| + 1 && r[..|s|] == s
    ensures NoDuplicates(s) ==> NoDuplicates(r)
  {
    if x in s then s else s + [x]
  }

  /** The unlocked levels that are not completed, in order (`filter`). */
  function Uncompleted(unlocked: seq<int>, completed: seq<int>): (r: seq<int>)
    ensures forall l :: l in r <==> l in unlocked && l !in completed
  {
    if unlocked == [] then []
    else (if unlocked[0] in completed then [] else [unlocked[0]]) + Uncompleted(unlocked[1..], completed)
  }

  /**
   * `getNextUncompletedLevel`: the smallest level that is unlocked but not
   * completed, or the current level when there is none.
   */
  function NextUncompletedLevel(p: GameProgress): (r: int)
    ensures (exists l :: l in p.unlockedLevels && l !in p.completedLevels) ==>
      && r in p.unlockedLevels && r !in p.completedLevels
      && forall l :: l in p.unlockedLevels && l !in p.completedLevels ==> r <= l
    ensures (forall l :: l in p.unlockedLevels ==> l in p.completedLevels) ==> r == p.currentLevel
  {
    var open := Uncompleted(p.unlockedLevels, p.completedLevels);
    if |open| > 0 then
      var m := SeqMin(open);
      assert forall l :: l in open ==> m <= l by {
        forall l | l in open ensures m <= l {
          var i :| 0 <= i < |open| && open[i] == l;
        }
      }
      m
    else
      p.currentLevel
  }

  /**
   * `updateProgress`: the completed level joins the completed list and the
   * level after it the unlocked list, each only if absent, and the current
   * level moves to the next uncompleted level.
   */
  function AddProgress(p: GameProgress, completedLevelId: int): (r: GameProgress)
    ensures forall l :: l in r.completedLevels <==> l in p.completedLevels || l == completedLevelId
    ensures forall l :: l in r.unlockedLevels <==> l in p.unlockedLevels || l == completedLevelId + 1
    ensures |p.completedLevels| <= |r.completedLevels| && r.completedLevels[..|p.completedLevels|] == p.completedLevels
    ensures |p.unlockedLevels| <= |r.unlockedLevels| && r.unlockedLevels[..|p.unlockedLevels|] == p.unlockedLevels
    ensures NoDuplicates(p.completedLevels) ==> NoDuplicates(r.completedLevels)
    ensures NoDuplicates(p.unlockedLevels) ==> NoDuplicates(r.unlockedLevels)
    ensures r.currentLevel == NextUncompletedLevel(p.(completedLevels := r.completedLevels,
                                                      unlockedLevels := r.unlockedLevels))
  {
    var completed := PushNew(p.completedLevels, completedLevelId);
    var unlocked := PushNew(p.unlockedLevels, completedLevelId + 1);
    GameProgress(NextUncompletedLevel(p.(completedLevels := completed, unlockedLevels := unlocked)), completed, unlocked)
  }

  /** Completing the same level twice in a row leaves the progress as after the first time. */
  lemma AddProgressIdempotent(p: GameProgress, completedLevelId: int)
    ensures AddProgress(AddProgress(p, completedLevelId), completedLevelId) == AddProgress(p, completedLevelId)
  {
    var r := AddProgress(p, completedLevelId);
    assert PushNew(r.completedLevels, completedLevelId) == r.completedLevels;
    assert PushNew(r.unlockedLevels, completedLevelId + 1) == r.unlockedLevels;
  }

  predicate SortedByTime(s: seq<CompletionRecord>)
  {
    forall i, j :: 0 <= i < j < |s| ==> s[i].completionTime <= s[j].completionTime
  }

  /** Insert after every record that is not slower, as a stable sort places a newly pushed record. */
  function InsertByTime(s: seq<CompletionRecord>, x: CompletionRecord): (r: seq<CompletionRecord>)
    ensures |r| == |s| + 1 && multiset(r) == multiset(s) + multiset{x}
  {
    if s == [] then [x]
    else if x.completionTime < s[0].completionTime then [x] + s
    else
      assert s == [s[0]] + s[1..];
      [s[0]] + InsertByTime(s[1..], x)
  }

  lemma {:induction false} InsertKeepsSorted(s: seq<CompletionRecord>, x: CompletionRecord)
    requires SortedByTime(s)
    ensures SortedByTime(InsertByTime(s, x))
  {
    if s != [] && x.completionTime >= s[0].completionTime {
      var rest := InsertByTime(s[1..], x);
      InsertKeepsSorted(s[1..], x);
      forall i | 0 <= i < |rest| ensures s[0].completionTime <= rest[i].completionTime {
        assert rest[i] in multiset(rest);
        assert rest[i] in multiset(s[1..]) || rest[i] == x;
      }
    }
  }

  /** `sort((a, b) => a.completionTime - b.completionTime)`, stable, by insertion. */
  function SortByTime(s: seq<CompletionRecord>): (r: seq<CompletionRecord>)
    ensures |r| == |s| && SortedByTime(r) && multiset(r) == multiset(s)
  {
    if s == [] then []
    else
      assert s == s[..|s| - 1] + [s[|s| - 1]];
      InsertKeepsSorted(SortByTime(s[..|s| - 1]), s[|s| - 1]);
      InsertByTime(SortByTime(s[..|s| - 1]), s[|s| - 1])
  }

  /** The list after pushing `x` and sorting, as `recordCompletionWithDetails` stores it. */
  function SortedWith(s: seq<CompletionRecord>, x: CompletionRecord): (r: seq<CompletionRecord>)
    ensures SortedByTime(r) && multiset(r) == multiset(s) + multiset{x}
  {
    assert multiset(s + [x]) == multiset(s) + multiset{x};
    SortByTime(s + [x])
  }

  /** `slice(0, limit)`: a negative limit counts back from the end. */
  function SliceTo<T>(s: seq<T>, limit: int): (r: seq<T>)
    ensures limit >= 0 ==> |r| == Min(limit, |s|)
    ensures limit < 0 ==> |r| == Max(|s| + limit, 0)
    ensures r == s[..|r|]
    ensures limit >= |s| ==> r == s
  {
    if limit >= 0 then (if limit <= |s| then s[..limit] else s)
    else if |s| + limit > 0 then s[..|s| + limit] else []
  }

  /** The records stored with the given mode name. */
  function WithMode(s: seq<CompletionRecord>, mode: string): (r: seq<CompletionRecord>)
    ensures forall e :: e in r <==> e in s && e.gyroMode == ModeName(mode)
    ensures multiset(r) <= multiset(s)
    ensures forall e: CompletionRecord :: e.gyroMode == ModeName(mode) ==> multiset(r)[e] == multiset(s)[e]
  {
    if s == [] then []
    else
      assert s == [s[0]] + s[1..];
      (if s[0].gyroMode == ModeName(mode) then [s[0]] else []) + WithMode(s[1..], mode)
  }

  /** The records of the given pet. */
  function WithPet(s: seq<CompletionRecord>, petId: string): (r: seq<CompletionRecord>)
    ensures forall e :: e in r <==> e in s && e.petId == petId
    ensures multiset(r) <= multiset(s)
  {
    if s == [] then []
    else
      assert s == [s[0]] + s[1..];
      (if s[0].petId == petId then [s[0]] else []) + WithPet(s[1..], petId)
  }

  /** A non-empty string is truthy. */
  predicate ModeGiven(gyroMode: Option<string>)
  {
    gyroMode.Some? && gyroMode.value != ""
  }

  /** The records `getTopCompletions` keeps before sorting: all, or those of the given mode. */
  function ModeFiltered(s: seq<CompletionRecord>, gyroMode: Option<string>): seq<CompletionRecord>
  {
    if ModeGiven(gyroMode) then WithMode(s, gyroMode.value) else s
  }

  /**
   * `getTopCompletions`: nothing when nothing is stored; otherwise the
   * records of the given mode (all when no mode is given), fastest first,
   * cut to `limit`. Every record in the result is at least as fast as every
   * matching record left out.
   */
  function TopCompletions(stored: Option<seq<CompletionRecord>>, limit: int, gyroMode: Option<string>)
    : (r: seq<CompletionRecord>)
    ensures stored.None? ==> r == []
    ensures (limit >= 0 ==> |r| <= limit) && SortedByTime(r)
    ensures stored.Some? ==> multiset(r) <= multiset(ModeFiltered(stored.value, gyroMode))
    ensures stored.Some? ==> multiset(r) <= multiset(stored.value)
    ensures ModeGiven(gyroMode) ==> forall e :: e in r ==> e.gyroMode == ModeName(gyroMode.value)
    ensures stored.Some? && limit >= |ModeFiltered(stored.value, gyroMode)| ==>
      multiset(r) == multiset(ModeFiltered(stored.value, gyroMode))
    ensures stored.Some? ==> forall i, e :: 0 <= i < |r| && e in multiset(ModeFiltered(stored.value, gyroMode)) - multiset(r) ==>
      r[i].completionTime <= e.completionTime
  {
    if stored.None? then []
    else
      var filtered := ModeFiltered(stored.value, gyroMode);
      FastestFirst(filtered, limit);
      CutIsFastest(filtered, limit);
      assert multiset(filtered) <= multiset(stored.value);
      SliceTo(SortByTime(filtered), limit)
  }

  /** Sorting and cutting keep only records of the list, in order, at most `limit` of them. */
  lemma FastestFirst(s: seq<CompletionRecord>, limit: int)
    ensures var r := SliceTo(SortByTime(s), limit);
      && (limit >= 0 ==> |r| <= limit) && SortedByTime(r)
      && multiset(r) <= multiset(s)
      && (forall e :: e in r ==> e in s)
      && (limit >= |s| ==> multiset(r) == multiset(s))
  {
    var sorted := SortByTime(s);
    var r := SliceTo(sorted, limit);
    PrefixMultiset(sorted, |r|);
    CutKeepsMembers(sorted, s, r);
  }

  lemma PrefixMultiset<T>(s: seq<T>, k: int)
    requires 0 <= k <= |s|
    ensures multiset(s[..k]) <= multiset(s)
  {
    assert s == s[..k] + s[k..];
  }

  /** What the cut leaves out is no faster than what it keeps. */
  lemma CutIsFastest(s: seq<CompletionRecord>, limit: int)
    ensures var r := SliceTo(SortByTime(s), limit);
      forall i, e :: 0 <= i < |r| && e in multiset(s) - multiset(r) ==> r[i].completionTime <= e.completionTime
  {
    var sorted := SortByTime(s);
    TopPrefix(sorted, |SliceTo(sorted, limit)|);
  }

  lemma CutKeepsMembers(sorted: seq<CompletionRecord>, s: seq<CompletionRecord>, r: seq<CompletionRecord>)
    requires multiset(sorted) == multiset(s) && multiset(r) <= multiset(sorted)
    ensures forall e :: e in r ==> e in s
  {
    forall e | e in r ensures e in s {
      assert e in multiset(r);
    }
  }

  /** A prefix of a sorted list is no slower than anything after it. */
  lemma TopPrefix(s: seq<CompletionRecord>, k: int)
    requires SortedByTime(s) && 0 <= k <= |s|
    ensures multiset(s[..k]) <= multiset(s)
    ensures forall i, e :: 0 <= i < k && e in multiset(s) - multiset(s[..k]) ==> s[i].completionTime <= e.completionTime
  {
    assert s == s[..k] + s[k..];
    assert multiset(s) - multiset(s[..k]) == multiset(s[k..]);
    forall i, e | 0 <= i < k && e in multiset(s) - multiset(s[..k])
      ensures s[i].completionTime <= e.completionTime
    {
      assert e in s[k..];
      var j :| k <= j < |s| && s[j] == e;
    }
  }

  /**
   * `getPetCompletions` as written: the records of the pet. The mode filter
   * is computed and then discarded, so the result does not depend on it.
   */
  function PetCompletions(stored: Option<seq<CompletionRecord>>, petId: string, gyroMode: Option<string>)
    : (r: seq<CompletionRecord>)
    ensures stored.None? ==> r == []
    ensures stored.Some? ==> forall e :: e in r <==> e in stored.value && e.petId == petId
  {
    if stored.None? then [] else WithPet(stored.value, petId)
  }

  /** Asking for one mode still returns the pet's records of every mode. */
  lemma PetCompletionsIgnoreMode(stored: Option<seq<CompletionRecord>>, petId: string, m1: Option<string>, m2: Option<string>)
    ensures PetCompletions(stored, petId, m1) == PetCompletions(stored, petId, m2)
  {
  }

  /** A chaos-mode record comes back for a normal-mode request. */
  lemma PetCompletionsModeLeak()
    ensures var rec := CompletionRecord(1, "cat", "Smulan", "c", 5000, 1, 0, 0, ModeName("chaos"));
      PetCompletions(Some([rec]), "cat", Some("normal")) == [rec]
  {
    var rec := CompletionRecord(1, "cat", "Smulan", "c", 5000, 1, 0, 0, ModeName("chaos"));
    assert rec in PetCompletions(Some([rec]), "cat", Some("normal"));
  }

  /** `getPetCompletions` returning the mode-filtered list it builds, as its filter intends. */
  function PetCompletionsByMode(stored: Option<seq<CompletionRecord>>, petId: string, gyroMode: Option<string>)
    : (r: seq<CompletionRecord>)
    ensures stored.None? ==> r == []
    ensures stored.Some? ==> forall e :: e in r <==>
      e in stored.value && e.petId == petId && (ModeGiven(gyroMode) ==> e.gyroMode == ModeName(gyroMode.value))
  {
    if stored.None? then []
    else
      var filtered := WithPet(stored.value, petId);
      if ModeGiven(gyroMode) then WithMode(filtered, gyroMode.value) else filtered
  }

  /**
   * The store behind the score manager: level stats, progress and
   * completion lists, each a map from its key to the stored value.
   */
  class ScoreStore {
    var levelStats: map<int, LevelStats>
    var progress: Option<GameProgress>
    var completionLists: map<int, seq<CompletionRecord>>

    constructor ()
      ensures levelStats == map[] && progress == None && completionLists == map[]
    {
      levelStats := map[];
      progress := None;
      completionLists := map[];
    }

    /** `getLevelStats`: the stored stats, or the defaults. */
    function GetLevelStats(levelId: int): (s: LevelStats)
      reads this
      ensures levelId in levelStats ==> s == levelStats[levelId]
      ensures levelId !in levelStats ==> s == DefaultStats(levelId)
    {
      if levelId in levelStats then levelStats[levelId] else DefaultStats(levelId)
    }

    /** `getGameProgress`: the stored progress, or the defaults. */
    function GetGameProgress(): (p: GameProgress)
      reads this
      ensures progress.Some? ==> p == progress.value
      ensures progress.None? ==> p == DefaultProgress()
    {
      if progress.Some? then progress.value else DefaultProgress()
    }

    /** `getStartLevel`: the current level of the stored progress, level 1 without one. */
    function GetStartLevel(): (l: int)
      reads this
      ensures progress.None? ==> l == 1
      ensures progress.Some? ==> l == progress.value.currentLevel
    {
      GetGameProgress().currentLevel
    }

    /** `isLevelUnlocked`: membership in the unlocked list. */
    function IsLevelUnlocked(levelId: int): (b: bool)
      reads this
      ensures progress.None? ==> (b <==> levelId == 1)
      ensures progress.Some? ==> (b <==> levelId in progress.value.unlockedLevels)
    {
      levelId in GetGameProgress().unlockedLevels
    }

    /** `recordAttempt`: one more attempt, nothing else changes. */
    method RecordAttempt(levelId: int) returns (s: LevelStats)
      modifies this
      ensures s == old(GetLevelStats(levelId)).(totalAttempts := old(GetLevelStats(levelId)).totalAttempts + 1)
      ensures levelStats == old(levelStats)[levelId := s]
      ensures progress == old(progress) && completionLists == old(completionLists)
    {
      s := GetLevelStats(levelId);
      s := s.(totalAttempts := s.totalAttempts + 1);
      levelStats := levelStats[levelId := s];
    }

    /** `recordDeath`: one more death, nothing else changes. */
    method RecordDeath(levelId: int) returns (s: LevelStats)
      modifies this
      ensures s == old(GetLevelStats(levelId)).(totalDeaths := old(GetLevelStats(levelId)).totalDeaths + 1)
      ensures levelStats == old(levelStats)[levelId := s]
      ensures progress == old(progress) && completionLists == old(completionLists)
    {
      s := GetLevelStats(levelId);
      s := s.(totalDeaths := s.totalDeaths + 1);
      levelStats := levelStats[levelId := s];
    }

    /** `updateProgress`. */
    method UpdateProgress(completedLevelId: int)
      modifies this
      ensures progress == Some(AddProgress(old(GetGameProgress()), completedLevelId))
      ensures levelStats == old(levelStats) && completionLists == old(completionLists)
    {
      progress := Some(AddProgress(GetGameProgress(), completedLevelId));
    }

    /** `setCurrentLevel`: only the current level changes. */
    method SetCurrentLevel(levelId: int)
      modifies this
      ensures progress == Some(old(GetGameProgress()).(currentLevel := levelId))
      ensures levelStats == old(levelStats) && completionLists == old(completionLists)
    {
      progress := Some(GetGameProgress().(currentLevel := levelId));
    }

    /** `recordCompletion`: the stats of `Completed`, then the progress update. */
    method RecordCompletion(levelId: int, completionTime: int) returns (r: CompletionResult)
      modifies this
      ensures r == Completed(old(GetLevelStats(levelId)), completionTime)
      ensures levelStats == old(levelStats)[levelId := r.stats]
      ensures progress == Some(AddProgress(old(GetGameProgress()), levelId))
      ensures completionLists == old(completionLists)
    {
      r := Completed(GetLevelStats(levelId), completionTime);
      levelStats := levelStats[levelId := r.stats];
      UpdateProgress(levelId);
    }

    /**
     * `recordCompletionWithDetails`: `recordCompletion`, then the new record
     * is pushed onto the level's list and the list stored sorted by time.
     * `now` is the clock reading stored as the timestamp.
     */
    method RecordCompletionWithDetails(levelId: int, completionTime: int, petId: string, petName: string,
                                       petEmoji: string, attempts: int, deaths: int, gyroMode: ModeTag, now: int)
      returns (r: CompletionResult)
      modifies this
      ensures r == Completed(old(GetLevelStats(levelId)), completionTime)
      ensures levelStats == old(levelStats)[levelId := r.stats]
      ensures progress == Some(AddProgress(old(GetGameProgress()), levelId))
      ensures var rec := CompletionRecord(levelId, petId, petName, petEmoji, completionTime, attempts, deaths, now, gyroMode);
        var existing := if levelId in old(completionLists) then old(completionLists)[levelId] else [];
        && levelId in completionLists
        && completionLists == old(completionLists)[levelId := completionLists[levelId]]
        && SortedByTime(completionLists[levelId])
        && multiset(completionLists[levelId]) == multiset(existing) + multiset{rec}
    {
      r := RecordCompletion(levelId, completionTime);
      var rec := CompletionRecord(levelId, petId, petName, petEmoji, completionTime, attempts, deaths, now, gyroMode);
      var existing := if levelId in completionLists then completionLists[levelId] else [];
      var sorted := SortedWith(existing, rec);
      completionLists := completionLists[levelId := sorted];
    }

    /** `clearAllData`: every key deleted, so every read falls back to its default. */
    method ClearAllData()
      modifies this
      ensures levelStats == map[] && progress == None && completionLists == map[]
      ensures forall id :: GetLevelStats(id) == DefaultStats(id)
      ensures GetGameProgress() == DefaultProgress()
    {
      levelStats := map[];
      progress := None;
      completionLists := map[];
    }

    /** `getTopCompletions` on this store. */
    function GetTopCompletions(levelId: int, limit: int, gyroMode: Option<string>): (r: seq<CompletionRecord>)
      reads this
      ensures levelId !in completionLists ==> r == []
      ensures (limit >= 0 ==> |r| <= limit) && SortedByTime(r)
      ensures ModeGiven(gyroMode) ==> forall e :: e in r ==> e.gyroMode == ModeName(gyroMode.value)
      ensures levelId in completionLists ==> multiset(r) <= multiset(completionLists[levelId])
    {
      TopCompletions(if levelId in completionLists then Some(completionLists[levelId]) else None, limit, gyroMode)
    }

    /** `getPetCompletions` on this store, with its mode filter applied. */
    function GetPetCompletions(levelId: int, petId: string, gyroMode: Option<string>): (r: seq<CompletionRecord>)
      reads this
      ensures levelId !in completionLists ==> r == []
      ensures levelId in completionLists ==> forall e :: e in r <==>
        e in completionLists[levelId] && e.petId == petId && (ModeGiven(gyroMode) ==> e.gyroMode == ModeName(gyroMode.value))
    {
      PetCompletionsByMode(if levelId in completionLists then Some(completionLists[levelId]) else None, petId, gyroMode)
    }
  }
}
