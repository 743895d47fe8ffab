/** The round-advance rules of `PracticeView` in ContentView.swift: the
    30-second session timer, the per-second tick, the Skip button and the
    handler that reacts to "Correct" feedback. The timer object itself is a
    flag saying whether a timer is scheduled. */
module Rounds {
  import opened Game
  import opened Practice

  /** The seconds each round allows. */
  const RoundSeconds: int := 30

  /** `String.contains` for a substring. */
  predicate HasSubstring(s: string, t: string)
    decreases |s|
  {
    t <= s || (|s| > 0 && HasSubstring(s[1..], t))
  }

  /** `t` occurs in `s` starting at index `i`. */
  predicate OccursAt(s: string, t: string, i: int) {
    0 <= i && i + |t| <= |s| && s[i..i + |t|] == t
  }

  lemma TailSlice(s: string, i: nat, n: nat)
    requires i + n < |s|
    ensures s[1..][i..i + n] == s[i + 1..i + 1 + n]
  {
    var shifted, direct := s[1..][i..i + n], s[i + 1..i + 1 + n];
    assert forall k :: 0 <= k < n ==> shifted[k] == direct[k];
  }

  /** `HasSubstring` finds `t` exactly when it occurs at some index of `s`. */
  lemma {:induction false} HasSubstringAt(s: string, t: string)
    ensures HasSubstring(s, t) <==> exists i :: OccursAt(s, t, i)
    decreases |s|
  {
    if HasSubstring(s, t) {
      if t <= s {
        assert OccursAt(s, t, 0);
      } else {
        HasSubstringAt(s[1..], t);
        var i :| OccursAt(s[1..], t, i);
        TailSlice(s, i, |t|);
        assert OccursAt(s, t, i + 1);
      }
    }
    if exists i :: OccursAt(s, t, i) {
      var i :| OccursAt(s, t, i);
      if i > 0 {
        TailSlice(s, i - 1, |t|);
        assert OccursAt(s[1..], t, i - 1);
        HasSubstringAt(s[1..], t);
      } else {
        assert t <= s;
      }
    }
  }

  /** A string cannot contain a pattern whose first character it lacks. */
  lemma {:induction false} NoSubstringWithoutFirstChar(s: string, t: string)
    requires |t| > 0 && t[0] !in s
    ensures !HasSubstring(s, t)
    decreases |s|
  {
    if |s| > 0 {
      assert s[0] != t[0];
      assert t[0] !in s[1..];
      NoSubstringWithoutFirstChar(s[1..], t);
    }
  }

  /** Of the three messages the engine writes, only the correct-answer one
      contains "Correct". */
  lemma OnlyCorrectFeedbackAdvances()
    ensures HasSubstring(CorrectFeedback, "Correct")
    ensures !HasSubstring(TryAgainFeedback, "Correct")
    ensures !HasSubstring(PressTheKey, "Correct")
  {
    assert "Correct" <= CorrectFeedback;
    var tryAgain, press := TryAgainFeedback, PressTheKey;
    assert 'C' !in tryAgain && 'C' !in press;
    NoSubstringWithoutFirstChar(tryAgain, "Correct");
    NoSubstringWithoutFirstChar(press, "Correct");
  }

  class PracticeView {
    const session: PracticeSession
    const engine: GameEngine
    var sessionTimer: int
    /** Whether at least one session timer is scheduled. */
    var timerActive: bool

    ghost predicate Valid()
      reads this, session, engine, engine.ids
    {
      session.Valid() && engine.Valid() && 0 <= sessionTimer <= RoundSeconds
    }

    constructor (session: PracticeSession, engine: GameEngine)
      requires session.Valid() && engine.Valid()
      ensures Valid() && this.session == session && this.engine == engine
      ensures sessionTimer == RoundSeconds && !timerActive
    {
      this.session := session;
      this.engine := engine;
      sessionTimer := RoundSeconds;
      timerActive := false;
    }

    /** `onAppear`: start the timer. */
    method OnAppear()
      modifies this
      ensures timerActive && sessionTimer == old(sessionTimer)
    {
      timerActive := true;
    }

    /** The body of the timer closure in `startSessionTimer`, run once per
        second while the timer is scheduled. `draws` feeds `generateNote`. */
    method TimerTick(draws: seq<EngineDraw>)
      requires Valid() && timerActive && |draws| >= 1
      modifies this, session, engine, engine.ids
      ensures Valid()
      ensures session.selectedNoteCount == old(session.selectedNoteCount)
      ensures session.correctSessions == old(session.correctSessions)
      ensures old(sessionTimer) > 0 ==>
                sessionTimer == old(sessionTimer) - 1 && timerActive
                && unchanged(session) && unchanged(engine) && unchanged(engine.ids)
      ensures old(sessionTimer) == 0 ==>
                session.totalSessions == old(session.totalSessions) + 1
                && session.currentSession == old(session.currentSession) + 1
      ensures old(sessionTimer) == 0 && session.IsPracticeComplete() ==>
                session.appState == Summary && !timerActive && sessionTimer == 0
                && unchanged(engine) && unchanged(engine.ids)
      ensures old(sessionTimer) == 0 && !session.IsPracticeComplete() ==>
                sessionTimer == RoundSeconds && timerActive
                && session.appState == old(session.appState)
                && engine.currentNotes == [DrawNote(draws[0], old(engine.ids.next))]
                && engine.score == old(engine.score)
                && engine.feedbackMessage == PressTheKey && engine.feedbackColor == Primary
                && engine.ids.next == old(engine.ids.next) + 1
    {
      if sessionTimer > 0 {
        sessionTimer := sessionTimer - 1;
      } else {
        timerActive := false;
        session.totalSessions := session.totalSessions + 1;
        session.currentSession := session.currentSession + 1;
        if session.IsPracticeComplete() {
          session.EndPractice();
        } else {
          sessionTimer := RoundSeconds;
          engine.GenerateNote(draws);
          timerActive := true;
        }
      }
    }

    /** `skipSession`: the round counts as played, not as correct. */
    method SkipSession(draws: seq<EngineDraw>)
      requires Valid() && |draws| >= 1
      modifies this, session, engine, engine.ids
      ensures Valid()
      ensures session.selectedNoteCount == old(session.selectedNoteCount)
      ensures session.correctSessions == old(session.correctSessions)
      ensures session.totalSessions == old(session.totalSessions) + 1
      ensures session.currentSession == old(session.currentSession) + 1
      ensures session.IsPracticeComplete() ==>
                session.appState == Summary && !timerActive && sessionTimer == old(sessionTimer)
                && unchanged(engine) && unchanged(engine.ids)
      ensures !session.IsPracticeComplete() ==>
                sessionTimer == RoundSeconds && timerActive
                && session.appState == old(session.appState)
                && engine.currentNotes == [DrawNote(draws[0], old(engine.ids.next))]
                && engine.score == old(engine.score)
                && engine.feedbackMessage == PressTheKey && engine.feedbackColor == Primary
                && engine.ids.next == old(engine.ids.next) + 1
    {
      timerActive := false;
      session.totalSessions := session.totalSessions + 1;
      session.currentSession := session.currentSession + 1;
      if session.IsPracticeComplete() {
        session.EndPractice();
      } else {
        sessionTimer := RoundSeconds;
        engine.GenerateNote(draws);
        timerActive := true;
      }
    }

    /** `onChange(of: engine.feedbackMessage)`: a message containing
        "Correct" scores the round; the timer stops, and restarts later
        through `ResumeAfterCorrect` unless the practice is complete. */
    method OnFeedbackChange(newValue: string)
      requires Valid()
      modifies this, session
      ensures Valid() && sessionTimer == old(sessionTimer)
      ensures session.selectedNoteCount == old(session.selectedNoteCount)
      ensures !HasSubstring(newValue, "Correct") ==> unchanged(this) && unchanged(session)
      ensures HasSubstring(newValue, "Correct") ==>
                session.correctSessions == old(session.correctSessions) + 1
                && session.totalSessions == old(session.totalSessions) + 1
                && session.currentSession == old(session.currentSession) + 1
                && !timerActive
                && session.appState == (if session.IsPracticeComplete() then Summary else old(session.appState))
    {
      if HasSubstring(newValue, "Correct") {
        session.correctSessions := session.correctSessions + 1;
        session.totalSessions := session.totalSessions + 1;
        session.currentSession := session.currentSession + 1;
        if session.IsPracticeComplete() {
          timerActive := false;
          session.EndPractice();
        } else {
          timerActive := false;
        }
      }
    }

    /** The closure scheduled 0.6 s after a correct answer: a full round
        time and a running timer again. */
    method ResumeAfterCorrect()
      modifies this
      ensures sessionTimer == RoundSeconds && timerActive
    {
      sessionTimer := RoundSeconds;
      timerActive := true;
    }

    /** The End Practice button: stop the timer and show the summary. */
    method EndPracticePressed()
      requires Valid()
      modifies this, session
      ensures Valid() && !timerActive && sessionTimer == old(sessionTimer)
      ensures session.appState == Summary
      ensures session.selectedNoteCount == old(session.selectedNoteCount)
      ensures session.totalSessions == old(session.totalSessions)
      ensures session.correctSessions == old(session.correctSessions)
      ensures session.currentSession == old(session.currentSession)
    {
      timerActive := false;
      session.EndPractice();
    }
  }
}
