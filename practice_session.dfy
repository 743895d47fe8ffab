/** Models/PracticeSession.swift: which screen is shown, how many notes the
    practice has, and the three session counters. */
module Practice {

  datatype AppState = Start | Practice | Summary

  /** The note counts the start screen offers. */
  const NoteCountOptions: seq<int> := [20, 40, 60, 80, 100]

  /** The note count a new session object starts with. */
  const DefaultNoteCount: int := 20

  class PracticeSession {
    var appState: AppState
    var selectedNoteCount: int
    var totalSessions: int
    var correctSessions: int
    var currentSession: int

    /** The counters every handler keeps: correct answers never exceed rounds
        played, and the current round index is the number of rounds played. */
    ghost predicate Valid()
      reads this
    {
      0 <= correctSessions <= totalSessions && totalSessions == currentSession
    }

    constructor ()
      ensures Valid() && appState == Start && selectedNoteCount == DefaultNoteCount
      ensures selectedNoteCount in NoteCountOptions
      ensures totalSessions == 0 && correctSessions == 0 && currentSession == 0
    {
      appState := Start;
      selectedNoteCount := DefaultNoteCount;
      totalSessions := 0;
      correctSessions := 0;
      currentSession := 0;
    }

    method StartPractice()
      modifies this
      ensures Valid() && appState == Practice && selectedNoteCount == old(selectedNoteCount)
      ensures totalSessions == 0 && correctSessions == 0 && currentSession == 0
    {
      appState := Practice;
      totalSessions := 0;
      correctSessions := 0;
      currentSession := 0;
    }

    method EndPractice()
      modifies this
      ensures appState == Summary
      ensures selectedNoteCount == old(selectedNoteCount) && totalSessions == old(totalSessions)
      ensures correctSessions == old(correctSessions) && currentSession == old(currentSession)
    {
      appState := Summary;
    }

    method ResetForNewPractice()
      modifies this
      ensures Valid() && appState == Start && selectedNoteCount == old(selectedNoteCount)
      ensures totalSessions == 0 && correctSessions == 0 && currentSession == 0
    {
      appState := Start;
      totalSessions := 0;
      correctSessions := 0;
      currentSession := 0;
    }

    predicate IsPracticeComplete()
      reads this
    {
      currentSession >= selectedNoteCount
    }

    /** Rounds still to play: never negative, and zero exactly when the
        practice is complete. */
    function RemainingSessions(): (r: int)
      reads this
      ensures r >= 0
      ensures r == 0 <==> IsPracticeComplete()
      ensures r > 0 ==> currentSession + r == selectedNoteCount
    {
      if selectedNoteCount - currentSession > 0 then selectedNoteCount - currentSession else 0
    }
  }
}
