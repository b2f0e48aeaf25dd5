/**
 * The one-shot outcome guards: `isGameWon` and `isDead`. Recording a win or
 * a death first checks its flag, sets it, and only then writes to the score
 * store, so one outcome is recorded at most once until the flags are reset.
 */
module GameAtoms {
  import opened Common
  import opened ScoreManager

  /** What the game screen hands to `recordWin`. */
  datatype WinData = WinData(currentLevelId: int, completionTime: int, petId: string, petDisplayName: string,
                             petEmoji: string, currentAttempt: int, totalDeaths: int, extraLivesUsed: int,
                             gyroMode: string)

  /**
   * The value the recorder's `gyroMode` parameter receives as the call is
   * written: nine arguments go to an eight-parameter recorder, so the eighth
   * slot, `gyroMode`, receives `extraLivesUsed` and the mode itself is dropped.
   */
  function RecordedModeAsWritten(win: WinData): (m: ModeTag)
    ensures m.ModeNumber? && m.n == win.extraLivesUsed
  {
    ModeNumber(win.extraLivesUsed)
  }

  /** The mode the call evidently means to store: the mode name of the game. */
  function RecordedMode(win: WinData): (m: ModeTag)
    ensures m.ModeName? && m.name == win.gyroMode
  {
    ModeName(win.gyroMode)
  }

  /** The completion record `recordCompletionWithDetails` builds for a win at clock reading `now`. */
  function WinRecord(win: WinData, mode: ModeTag, now: int): (rec: CompletionRecord)
    ensures rec.levelId == win.currentLevelId && rec.completionTime == win.completionTime
    ensures rec.petId == win.petId && rec.attempts == win.currentAttempt && rec.deaths == win.totalDeaths
    ensures rec.timestamp == now && rec.gyroMode == mode
  {
    CompletionRecord(win.currentLevelId, win.petId, win.petDisplayName, win.petEmoji, win.completionTime,
                     win.currentAttempt, win.totalDeaths, now, mode)
  }

  /**
   * As written, a recorded win never shows under its own mode: a top list
   * filtered by the game's mode leaves it out, however large the limit.
   */
  lemma AsWrittenWinHiddenFromModeList(win: WinData, now: int, limit: int)
    requires win.gyroMode != ""
    ensures var rec := WinRecord(win, RecordedModeAsWritten(win), now);
      TopCompletions(Some([rec]), limit, Some(win.gyroMode)) == []
  {
  }

  /** With the mode stored, the win is listed under its mode whenever the limit admits one record. */
  lemma WinListedUnderItsMode(win: WinData, now: int, limit: int)
    requires win.gyroMode != "" && limit >= 1
    ensures var rec := WinRecord(win, RecordedMode(win), now);
      TopCompletions(Some([rec]), limit, Some(win.gyroMode)) == [rec]
  {
    var rec := WinRecord(win, RecordedMode(win), now);
    assert WithMode([rec], win.gyroMode) == [rec];
    var r := TopCompletions(Some([rec]), limit, Some(win.gyroMode));
    assert multiset(r) == multiset([rec]);
    assert |r| == 1 by { assert |multiset(r)| == 1; }
    assert r[0] in multiset([rec]);
  }

  class GameFlags {
    var isGameWon: bool
    var isDead: bool

    constructor ()
      ensures !isGameWon && !isDead
    {
      isGameWon := false;
      isDead := false;
    }

    /**
     * `recordWinAtom`: when already won, nothing is recorded and the result
     * is `null`; otherwise the flag is set and the completion recorded with
     * its details at clock reading `now`. The record carries the game's mode
     * (see `RecordedModeAsWritten` for the call as written).
     */
    method RecordWin(store: ScoreStore, win: WinData, now: int) returns (r: Option<CompletionResult>)
      modifies this, store
      ensures isGameWon && isDead == old(isDead)
      ensures old(isGameWon) ==> r == None
      ensures old(isGameWon) ==> store.levelStats == old(store.levelStats) && store.progress == old(store.progress)
      ensures old(isGameWon) ==> store.completionLists == old(store.completionLists)
      ensures !old(isGameWon) ==>
        && r == Some(Completed(old(store.GetLevelStats(win.currentLevelId)), win.completionTime))
        && store.levelStats == old(store.levelStats)[win.currentLevelId := r.value.stats]
        && store.progress == Some(AddProgress(old(store.GetGameProgress()), win.currentLevelId))
      ensures !old(isGameWon) ==>
        var existing := if win.currentLevelId in old(store.completionLists)
          then old(store.completionLists)[win.currentLevelId] else [];
        && win.currentLevelId in store.completionLists
        && store.completionLists == old(store.completionLists)[win.currentLevelId := store.completionLists[win.currentLevelId]]
        && SortedByTime(store.completionLists[win.currentLevelId])
        && multiset(store.completionLists[win.currentLevelId]) == multiset(existing) + multiset{WinRecord(win, RecordedMode(win), now)}
    {
      if isGameWon {
        return None;
      }
      isGameWon := true;
      var result := store.RecordCompletionWithDetails(win.currentLevelId, win.completionTime, win.petId,
                                                      win.petDisplayName, win.petEmoji, win.currentAttempt,
                                                      win.totalDeaths, RecordedMode(win), now);
      r := Some(result);
    }

    /** `recordDeathAtom`: the same one-shot pattern on `isDead`. */
    method RecordDeath(store: ScoreStore, levelId: int) returns (r: Option<LevelStats>)
      modifies this, store
      ensures isDead && isGameWon == old(isGameWon)
      ensures old(isDead) ==> r == None && store.levelStats == old(store.levelStats)
      ensures !old(isDead) ==>
        && r == Some(old(store.GetLevelStats(levelId)).(totalDeaths := old(store.GetLevelStats(levelId)).totalDeaths + 1))
        && store.levelStats == old(store.levelStats)[levelId := r.value]
      ensures store.progress == old(store.progress) && store.completionLists == old(store.completionLists)
    {
      if isDead {
        return None;
      }
      isDead := true;
      var stats := store.RecordDeath(levelId);
      r := Some(stats);
    }

    /** `resetGameStateAtom`: the only way back to false for either flag. */
    method ResetGameState()
      modifies this
      ensures !isGameWon && !isDead
    {
      isGameWon := false;
      isDead := false;
    }
  }
}
