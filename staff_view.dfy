/** Placement rules of Views/StaffView.swift: where the note head sits on the
    grand staff and whether it gets a ledger line. Positions are in points,
    y growing downwards, as SwiftUI lays them out. */
module Staff {
  import opened Notes
  import opened Game

  const LineSpacing: real := 25.0
  const StaffSpacing: real := 70.0
  const StaffHeight: real := 4.0 * LineSpacing

  /** The staff offset of each staff's middle line: B4 for treble, D3 for bass. */
  const TrebleCentreOffset: int := 6 + (4 - 4) * 7
  const BassCentreOffset: int := 1 + (3 - 4) * 7

  function CentreOffset(clef: Clef): int {
    if clef == Treble then TrebleCentreOffset else BassCentreOffset
  }

  function TrebleCentreY(totalHeight: real): real {
    totalHeight / 2.0 - StaffSpacing / 2.0 - StaffHeight / 2.0
  }

  function BassCentreY(totalHeight: real): real {
    totalHeight / 2.0 + StaffSpacing / 2.0 + StaffHeight / 2.0
  }

  function CentreY(clef: Clef, totalHeight: real): real {
    if clef == Treble then TrebleCentreY(totalHeight) else BassCentreY(totalHeight)
  }

  /** The integer part of `calculateNoteYPosition`: half-line steps of the
      note above the middle line of its clef's staff. */
  function HalfLineSteps(n: Note): int {
    StaffOffset(n) - CentreOffset(n.clef)
  }

  /** `calculateNoteYPosition`: the middle line's y, minus half a line
      spacing per step above it. */
  function NoteY(n: Note, totalHeight: real): (y: real)
    ensures y == CentreY(n.clef, totalHeight) <==> StaffOffset(n) == CentreOffset(n.clef)
    ensures y < CentreY(n.clef, totalHeight) <==> StaffOffset(n) > CentreOffset(n.clef)
  {
    CentreY(n.clef, totalHeight) - (HalfLineSteps(n) as real) * (LineSpacing / 2.0)
  }

  /** B4 sits on the treble middle line and D3 on the bass middle line. */
  lemma CentreLineNotes(n: Note, totalHeight: real)
    ensures n.clef == Treble && n.name == B && n.octave == 4 ==> NoteY(n, totalHeight) == TrebleCentreY(totalHeight)
    ensures n.clef == Bass && n.name == D && n.octave == 3 ==> NoteY(n, totalHeight) == BassCentreY(totalHeight)
  {
  }

  /** On either staff, each diatonic step up raises the note by half a line
      spacing; accidental and duration play no part. */
  lemma NoteYFollowsStaffOffset(a: Note, b: Note, totalHeight: real)
    requires a.clef == b.clef
    ensures NoteY(a, totalHeight) - NoteY(b, totalHeight)
            == ((StaffOffset(b) - StaffOffset(a)) as real) * (LineSpacing / 2.0)
    ensures a.name == b.name && a.octave == b.octave ==> NoteY(a, totalHeight) == NoteY(b, totalHeight)
  {
  }

  /** The bass middle line lies one staff gap plus one staff height below the
      treble middle line. */
  lemma StaffCentresApart(totalHeight: real)
    ensures BassCentreY(totalHeight) - TrebleCentreY(totalHeight) == StaffSpacing + 4.0 * LineSpacing
  {
  }

  /** `NoteHeadView.needsLedgerLine`. */
  predicate NeedsLedgerLine(n: Note) {
    if n.clef == Treble then
      (n.octave == 4 && n.name == C) || (n.octave == 5 && (n.name == A || n.name == B))
    else
      if n.octave == 4 && n.name == C then true
      else if n.octave == 2 then true
      else if n.octave == 3 && n.name == C then false
      else false
  }

  /** `numberOfLedgerLines`: always one. */
  function NumberOfLedgerLines(n: Note): nat {
    1
  }

  /** `ledgerLineOffset`: the line goes through the head's centre. */
  function LedgerLineOffset(n: Note): real {
    0.0
  }

  /** The first ledger line above or below a staff lies three line spacings
      from its middle line. */
  predicate OnFirstLedgerLine(n: Note, totalHeight: real) {
    NoteY(n, totalHeight) == CentreY(n.clef, totalHeight) - 3.0 * LineSpacing
    || NoteY(n, totalHeight) == CentreY(n.clef, totalHeight) + 3.0 * LineSpacing
  }

  /** For every note `generateNote` can produce, the ledger rule agrees with
      the placement: a ledger line is drawn exactly when the head is three
      line spacings or more from its staff's middle line, that is, outside
      the five lines and the spaces next to them. Such a head sits on the
      first ledger line, so one line through its centre is all it needs. */
  lemma LedgerLineMatchesPlacement(n: Note, totalHeight: real)
    requires Selectable(n)
    ensures NeedsLedgerLine(n) <==> HalfLineSteps(n) >= 6 || HalfLineSteps(n) <= -6
    ensures NeedsLedgerLine(n) <==>
              NoteY(n, totalHeight) <= CentreY(n.clef, totalHeight) - 3.0 * LineSpacing
              || NoteY(n, totalHeight) >= CentreY(n.clef, totalHeight) + 3.0 * LineSpacing
    ensures NeedsLedgerLine(n) ==>
              OnFirstLedgerLine(n, totalHeight)
              && NumberOfLedgerLines(n) == 1 && LedgerLineOffset(n) == 0.0
  {
    var steps := HalfLineSteps(n);
    assert NoteY(n, totalHeight) == CentreY(n.clef, totalHeight) - (steps as real) * 12.5;
    if IsBonusNote(n) {
      assert steps == 1;
    } else if n.octave == 3 {
      assert -1 <= steps <= 5 && !NeedsLedgerLine(n);
    } else {
      assert -6 <= steps <= 0;
      assert NeedsLedgerLine(n) <==> steps == -6;
    }
  }

  /** The bass rule for octave 2 also flags F2, G2, A2 and B2: the first
      sits in the space just below the staff and the others on or between
      its lines, so none needs a ledger line. The generator never puts a
      bass note in octave 2. */
  lemma BassOctaveTwoRuleOvershoots(n: Note)
    requires n.clef == Bass && n.octave == 2 && LetterIndex(n.name) >= 3
    ensures NeedsLedgerLine(n) && -5 <= HalfLineSteps(n) <= -2 && !Selectable(n)
  {
  }
}
