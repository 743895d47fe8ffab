/** Models/GameEngine.swift: the current target note, the score and the
    feedback text; `generateNote` draws a new target and `check` scores a
    played note against it by pitch. */
module Game {
  import opened Notes

  datatype FeedbackColor = Primary | Green | Red

  const PressTheKey: string := "Press the key!"
  const CorrectFeedback: string := "Correct! ✓"
  const TryAgainFeedback: string := "Try again! ✗"

  /** The draws one pass of `generateNote`'s loop makes: the roll against the
      5% bonus threshold, the choice in 3...4, letter, accidental, duration. */
  datatype EngineDraw = EngineDraw(roll: real, octaveChoice: nat, name: NoteName,
                                   accidental: Accidental, duration: NoteDuration)

  /** The bonus target: C natural, octave 5, treble clef, quarter note. */
  predicate IsBonusNote(n: Note) {
    n.name == C && n.accidental == Natural && n.octave == 5 && n.clef == Treble
    && n.duration == Quarter
  }

  /** The notes `generateNote` can produce. */
  predicate Selectable(n: Note) {
    IsBonusNote(n) || ((n.octave == 3 || n.octave == 4) && (n.clef == Bass <==> n.octave == 3))
  }

  /** One pass of the loop body: the note built from the draws. */
  function DrawNote(d: EngineDraw, id: Uuid): (n: Note)
    ensures n.id == id && Selectable(n)
    ensures d.roll < 0.05 ==> IsBonusNote(n)
    ensures d.roll >= 0.05 ==> n.octave == 3 + d.octaveChoice % 2 && !IsBonusNote(n)
    ensures d.roll >= 0.05 ==> n.name == d.name && n.accidental == d.accidental && n.duration == d.duration
  {
    var includeC5 := d.roll < 0.05;
    var octave := if includeC5 then 5 else PickInRange(3, 4, d.octaveChoice);
    if octave == 5 then Note(id, C, 5, Natural, Treble, Quarter)
    else Note(id, d.name, octave, d.accidental, ClefFor(octave), d.duration)
  }

  /** The verdict of `check`: the played note sounds the target's pitch. */
  predicate IsCorrect(played: Note, target: Note) {
    SamePitch(played, target)
  }

  /** The score after a verdict: up by one, or down by one but never below 0. */
  function ScoreAfter(score: int, correct: bool): (r: int)
    requires score >= 0
    ensures r >= 0
    ensures correct ==> r == score + 1
    ensures !correct ==> r <= score && (score > 0 ==> r == score - 1)
  {
    if correct then score + 1 else if score - 1 > 0 then score - 1 else 0
  }

  /** The verdict is symmetric and reflexive, and holds across enharmonic
      spellings. */
  lemma IsCorrectIsPitchEquality(a: Note, b: Note)
    ensures IsCorrect(a, b) <==> IsCorrect(b, a)
    ensures IsCorrect(a, a)
    ensures (a.name == C && a.accidental == Sharp && b.name == D && b.accidental == Flat
             && a.octave == b.octave) ==> IsCorrect(a, b)
  {
  }

  class GameEngine {
    var currentNotes: seq<Note>
    var score: int
    var feedbackMessage: string
    var feedbackColor: FeedbackColor
    /** Where `Note(...)` gets its UUIDs from. */
    const ids: IdSupply

    /** The score is never negative, there is at most one target, and every
        note held was built with an id already handed out. */
    ghost predicate Valid()
      reads this, ids
    {
      score >= 0 && |currentNotes| <= 1
      && forall n :: n in currentNotes ==> n.id < ids.next
    }

    /** `init()`: the stored defaults, then `generateNote()`. */
    constructor (ids: IdSupply, draws: seq<EngineDraw>)
      requires |draws| >= 1
      modifies ids
      ensures Valid() && this.ids == ids
      ensures currentNotes == [DrawNote(draws[0], old(ids.next))] && ids.next == old(ids.next) + 1
      ensures score == 0 && feedbackMessage == PressTheKey && feedbackColor == Primary
    {
      this.ids := ids;
      currentNotes := [];
      score := 0;
      feedbackMessage := PressTheKey;
      feedbackColor := Primary;
      new;
      GenerateNote(draws);
    }

    /** `generateNote`: draw until the note is not `contains`-equal to a
        current one. Because `contains` compares ids and every draw gets a
        fresh one, the first draw is always accepted. `draws` is the oracle's
        supply for the `repeat ... while` loop. */
    method GenerateNote(draws: seq<EngineDraw>)
      requires Valid() && |draws| >= 1
      modifies this, ids
      ensures Valid()
      ensures currentNotes == [DrawNote(draws[0], old(ids.next))]
      ensures currentNotes[0] !in old(currentNotes)
      ensures ids.next == old(ids.next) + 1
      ensures score == old(score) && feedbackMessage == PressTheKey && feedbackColor == Primary
    {
      var current := currentNotes;
      ghost var firstId := ids.next;
      assert forall n :: n in current ==> n.id < firstId;
      var newNote := DrawNote(draws[0], ids.next);
      var accepted := false;
      var i := 0;
      while !accepted
        invariant 0 <= i <= |draws|
        invariant ids.next == firstId + i
        invariant i > 0 ==> newNote == DrawNote(draws[i - 1], firstId + i - 1)
        invariant accepted ==> i > 0 && newNote !in current
        invariant forall k :: 0 <= k < i - 1 ==> DrawNote(draws[k], firstId + k) in current
        invariant !accepted && i > 0 ==> newNote in current
        modifies ids
        decreases |draws| - i
      {
        if i == |draws| {
          break;
        }
        var id := ids.Fresh();
        newNote := DrawNote(draws[i], id);
        i := i + 1;
        accepted := newNote !in current;
      }
      currentNotes := [newNote];
      feedbackMessage := PressTheKey;
      feedbackColor := Primary;
    }

    /** `check(note:)`: nothing happens without a target; otherwise the score
        and the feedback follow the pitch comparison. The delayed
        `generateNote` after a correct answer is a separate step. */
    method Check(note: Note)
      requires Valid()
      modifies this
      ensures Valid() && currentNotes == old(currentNotes)
      ensures old(currentNotes) == [] ==>
                score == old(score) && feedbackMessage == old(feedbackMessage)
                && feedbackColor == old(feedbackColor)
      ensures old(currentNotes) != [] && IsCorrect(note, old(currentNotes)[0]) ==>
                score == old(score) + 1 && feedbackMessage == CorrectFeedback && feedbackColor == Green
      ensures old(currentNotes) != [] && !IsCorrect(note, old(currentNotes)[0]) ==>
                score == ScoreAfter(old(score), false) && feedbackMessage == TryAgainFeedback
                && feedbackColor == Red
    {
      if currentNotes == [] {
        return;
      }
      var target := currentNotes[0];
      var isCorrect := MidiValue(note) == MidiValue(target);
      if isCorrect {
        score := score + 1;
        feedbackMessage := CorrectFeedback;
        feedbackColor := Green;
      } else {
        score := if score - 1 > 0 then score - 1 else 0;
        feedbackMessage := TryAgainFeedback;
        feedbackColor := Red;
      }
    }
  }

  /** The anti-repeat check never rejects a note spelled like the current
      one: only the id tells them apart. */
  lemma SameSpellingIsNotRejected(current: Note, d: EngineDraw, id: Uuid)
    requires current.id < id
    requires DrawNote(d, id).(id := current.id) == current
    ensures DrawNote(d, id) !in [current]
  {
  }
}
