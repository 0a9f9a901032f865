/**
 * The XP hook: the player's XP, level and bonus-quiz quota as held by the client, loaded from
 * the profile row and advanced after each finished quiz. The profile read and write are
 * external; their outcomes are parameters.
 */
module UseXp {
  import opened Wrappers
  import Xp

  /** A profile row as read; absent (null) columns are None. */
  datatype ProfileRow = ProfileRow(xp: Option<int>, level: Option<int>, bonusQuizzes: Option<int>)

  /** The result of reading the profile: an error, or the (possibly missing) row. */
  datatype ProfileRead = ReadFailed | ReadOk(data: Option<ProfileRow>)

  /** The columns addQuizXp writes to the profile. */
  datatype ProfileUpdate = ProfileUpdate(xp: int, level: int, bonusQuizzes: int)

  /** What addQuizXp reports after a successful write. */
  datatype XpAward = XpAward(xpEarned: int, newLevel: int, leveledUp: bool, newBonusQuizzes: int)

  function RowOrEmpty(data: Option<ProfileRow>): ProfileRow {
    data.GetOr(ProfileRow(None, None, None))
  }

  class XpTracker {
    var xp: int
    var level: int
    var bonusQuizzes: int
    var loading: bool

    /** The state before the first fetch. */
    constructor ()
      ensures xp == 0 && level == 1 && bonusQuizzes == 0 && loading
    {
      xp, level, bonusQuizzes, loading := 0, 1, 0, true;
    }

    /** fetchXpData: without a user the state resets; otherwise the row's values (defaulting to
        0, 1, 0) replace it, and a failed read only ends the loading state. */
    method FetchXpData(signedIn: bool, read: ProfileRead)
      modifies this
      ensures !loading
      ensures !signedIn ==> xp == 0 && level == 1 && bonusQuizzes == 0
      ensures signedIn && read.ReadFailed? ==>
        xp == old(xp) && level == old(level) && bonusQuizzes == old(bonusQuizzes)
      ensures signedIn && read.ReadOk? ==>
        var row := RowOrEmpty(read.data);
        xp == row.xp.GetOr(0) && level == row.level.GetOr(1) && bonusQuizzes == row.bonusQuizzes.GetOr(0)
    {
      if !signedIn {
        xp, level, bonusQuizzes, loading := 0, 1, 0, false;
        return;
      }
      match read
      case ReadFailed =>
        loading := false;
      case ReadOk(data) =>
        var row := RowOrEmpty(data);
        xp, level, bonusQuizzes, loading := row.xp.GetOr(0), row.level.GetOr(1), row.bonusQuizzes.GetOr(0), false;
    }

    /** addQuizXp: award the quiz's XP at the stored level, derive the new level and quota, write
        them (`sent`), and commit them locally only when the write succeeded (`writeOk`). */
    method AddQuizXp(signedIn: bool, hasSession: bool, correctAnswers: int, totalQuestions: int, writeOk: bool)
      returns (sent: Option<ProfileUpdate>, award: Option<XpAward>)
      modifies this
      ensures !(signedIn && hasSession) ==> sent.None? && award.None?
      ensures award.None? ==>
        xp == old(xp) && level == old(level) && bonusQuizzes == old(bonusQuizzes) && loading == old(loading)
      ensures signedIn && hasSession ==>
        var earned := Xp.CalculateQuizXp(correctAnswers, totalQuestions, old(level));
        var newTotal := old(xp) + earned;
        var newLevel := Xp.LevelFor(newTotal);
        && sent == Some(ProfileUpdate(newTotal, newLevel, Xp.BonusQuizzesFor(newLevel)))
        && (writeOk <==> award.Some?)
        && (writeOk ==>
              && award.value == XpAward(earned, newLevel, newLevel > old(level), Xp.BonusQuizzesFor(newLevel))
              && xp == newTotal && level == newLevel && bonusQuizzes == Xp.BonusQuizzesFor(newLevel) && !loading)
      ensures xp >= old(xp)
    {
      if !signedIn || !hasSession {
        return None, None;
      }
      var xpEarned := Xp.CalculateQuizXp(correctAnswers, totalQuestions, level);
      var newTotalXp := xp + xpEarned;
      var newLevel := Xp.GetLevelFromXp(newTotalXp);
      var leveledUp := newLevel > level;
      var newBonusQuizzes := Xp.GetBonusQuizzesForLevel(newLevel);
      sent := Some(ProfileUpdate(newTotalXp, newLevel, newBonusQuizzes));
      if !writeOk {
        return sent, None;
      }
      xp, level, bonusQuizzes, loading := newTotalXp, newLevel, newBonusQuizzes, false;
      award := Some(XpAward(xpEarned, newLevel, leveledUp, newBonusQuizzes));
    }
  }

  /** A fresh account that scores 10 of 10 earns 150 XP and stays at level 1 with no bonus
      quizzes, since level 2 needs 350. */
  lemma FirstPerfectQuiz()
    ensures Xp.CalculateQuizXp(10, 10, 1) == 150
    ensures Xp.LevelFor(0 + 150) == 1 && Xp.BonusQuizzesFor(1) == 0
  {
    Xp.CalculateQuizXpExamples();
    Xp.LevelForUnique(150, 1);
  }

  /** A stored level that trails the stored XP is corrected by the next award: the new level is
      that of the new total, which is at least the level of the old total. */
  lemma AwardNeverLowersDerivedLevel(oldXp: int, correct: int, total: int, storedLevel: int)
    ensures Xp.LevelFor(oldXp) <= Xp.LevelFor(oldXp + Xp.CalculateQuizXp(correct, total, storedLevel))
  {
    Xp.LevelForMonotone(oldXp, oldXp + Xp.CalculateQuizXp(correct, total, storedLevel));
  }
}
