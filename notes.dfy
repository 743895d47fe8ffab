/** The note model of Models/Note.swift: letter, accidental, octave, clef and
    duration, the pitch number (MIDI, C4 = 60), the staff offset (diatonic
    steps from C4), the display name and the constrained random constructor. */
module Notes {
  import opened Optional
  import opened Decimal

  datatype NoteName = C | D | E | F | G | A | B
  datatype Accidental = Natural | Sharp | Flat
  datatype Clef = Treble | Bass
  datatype NoteDuration = Whole | Half | Quarter

  /** The letters in declaration order (`NoteName.allCases`). */
  const AllNames: seq<NoteName> := [C, D, E, F, G, A, B]

  /** A `UUID()`: every constructed note draws a fresh one from an `IdSupply`. */
  type Uuid = nat

  /** A note. Swift's synthesised `==` compares every stored property,
      `id` included, and so does datatype equality here. */
  datatype Note = Note(id: Uuid, name: NoteName, octave: int, accidental: Accidental,
                       clef: Clef, duration: NoteDuration)

  /** The process-wide source of fresh UUIDs, modelled as a counter. */
  class IdSupply {
    var next: Uuid

    constructor ()
      ensures next == 0
    {
      next := 0;
    }

    method Fresh() returns (id: Uuid)
      modifies this
      ensures id == old(next) && next == old(next) + 1
    {
      id := next;
      next := next + 1;
    }
  }

  /** Position of the letter in C D E F G A B. */
  function LetterIndex(name: NoteName): (k: nat)
    ensures k < 7 && AllNames[k] == name
  {
    match name
    case C => 0
    case D => 1
    case E => 2
    case F => 3
    case G => 4
    case A => 5
    case B => 6
  }

  /** Semitones of the natural above C in the same octave. */
  function LetterSemitone(name: NoteName): int {
    match name
    case C => 0
    case D => 2
    case E => 4
    case F => 5
    case G => 7
    case A => 9
    case B => 11
  }

  function AccidentalShift(acc: Accidental): int {
    match acc
    case Natural => 0
    case Sharp => 1
    case Flat => -1
  }

  /** `staffOffset`: diatonic steps from middle C (C4). */
  function StaffOffset(n: Note): int {
    LetterIndex(n.name) + (n.octave - 4) * 7
  }

  /** `midiValue`: the MIDI note number, C4 = 60, one unit per semitone. */
  function MidiValue(n: Note): int {
    LetterSemitone(n.name) + (n.octave + 1) * 12 + AccidentalShift(n.accidental)
  }

  /** Enharmonic-aware pitch equality, the comparison `check` uses. */
  predicate SamePitch(a: Note, b: Note) {
    MidiValue(a) == MidiValue(b)
  }

  // ---------------------------------------------------------------------
  // Pitch properties

  /** C4 is 60; an octave is 12; a sharp is one above and a flat one below
      the natural; C#4 and Db4 are both 61. */
  lemma MidiLandmarks(n: Note)
    ensures MidiValue(Note(n.id, C, 4, Natural, n.clef, n.duration)) == 60
    ensures MidiValue(n.(octave := n.octave + 1)) == MidiValue(n) + 12
    ensures MidiValue(n.(accidental := Sharp)) == MidiValue(n.(accidental := Natural)) + 1
    ensures MidiValue(n.(accidental := Flat)) == MidiValue(n.(accidental := Natural)) - 1
    ensures MidiValue(Note(n.id, C, 4, Sharp, n.clef, n.duration)) == 61
    ensures SamePitch(Note(n.id, C, 4, Sharp, n.clef, n.duration), Note(n.id, D, 4, Flat, n.clef, n.duration))
    ensures !SamePitch(Note(n.id, C, 4, Natural, n.clef, n.duration), Note(n.id, C, 5, Natural, n.clef, n.duration))
  {
  }

  /** C4 sits at staff offset 0, and an octave up is seven steps up. */
  lemma StaffOffsetLandmarks(n: Note)
    ensures StaffOffset(Note(n.id, C, 4, n.accidental, n.clef, n.duration)) == 0
    ensures StaffOffset(n.(octave := n.octave + 1)) == StaffOffset(n) + 7
  {
  }

  /** The naturals of one octave are strictly ascending in letter order. */
  lemma NaturalsAscend(octave: int, i: nat, j: nat, n: Note)
    requires i < j < 7
    ensures MidiValue(Note(n.id, AllNames[i], octave, Natural, n.clef, n.duration))
          < MidiValue(Note(n.id, AllNames[j], octave, Natural, n.clef, n.duration))
  {
  }

  /** Neither number depends on id, clef or duration, and the staff offset
      does not depend on the accidental either. */
  lemma PitchIgnoresDisplayFields(a: Note, b: Note)
    requires a.name == b.name && a.octave == b.octave
    ensures StaffOffset(a) == StaffOffset(b)
    ensures a.accidental == b.accidental ==> MidiValue(a) == MidiValue(b)
  {
  }

  /** The major-scale step pattern from C: W W H W W W H. */
  const ScaleSteps: seq<int> := [2, 2, 1, 2, 2, 2, 1]

  /** Semitones from C4 to the natural `steps` diatonic steps away, found by
      walking the scale one letter at a time. */
  function ScaleSemitones(steps: int): int
    decreases if steps < 0 then -steps else steps
  {
    if steps == 0 then 0
    else if steps > 0 then ScaleSemitones(steps - 1) + ScaleSteps[(steps - 1) % 7]
    else ScaleSemitones(steps + 1) - ScaleSteps[steps % 7]
  }

  lemma {:induction false} ScaleSemitonesClosedForm(steps: int)
    ensures ScaleSemitones(steps) == 12 * (steps / 7) + LetterSemitone(AllNames[steps % 7])
    decreases if steps < 0 then -steps else steps
  {
    if steps > 0 {
      ScaleSemitonesClosedForm(steps - 1);
      var q, r := (steps - 1) / 7, (steps - 1) % 7;
      assert steps - 1 == 7 * q + r;
      if r < 6 {
        assert steps / 7 == q && steps % 7 == r + 1;
      } else {
        assert steps / 7 == q + 1 && steps % 7 == 0;
      }
    } else if steps < 0 {
      ScaleSemitonesClosedForm(steps + 1);
      var q, r := steps / 7, steps % 7;
      assert steps == 7 * q + r;
      if r < 6 {
        assert (steps + 1) / 7 == q && (steps + 1) % 7 == r + 1;
      } else {
        assert (steps + 1) / 7 == q + 1 && (steps + 1) % 7 == 0;
      }
    }
  }

  /** The staff offset and the MIDI number agree: a natural's MIDI number is
      60 plus the semitones of the scale walk from C4 to its staff offset. */
  lemma NaturalMidiFollowsScale(n: Note)
    requires n.accidental == Natural
    ensures MidiValue(n) == 60 + ScaleSemitones(StaffOffset(n))
  {
    var s := StaffOffset(n);
    ScaleSemitonesClosedForm(s);
    assert s / 7 == n.octave - 4 && s % 7 == LetterIndex(n.name);
  }

  // ---------------------------------------------------------------------
  // fullName

  function LetterChar(name: NoteName): (c: char) {
    match name
    case C => 'C'
    case D => 'D'
    case E => 'E'
    case F => 'F'
    case G => 'G'
    case A => 'A'
    case B => 'B'
  }

  /** The raw value of the accidental: empty, the sharp sign or the flat sign. */
  function AccidentalSymbol(acc: Accidental): (s: string)
    ensures |s| <= 1
    ensures s == "" <==> acc == Natural
  {
    match acc
    case Natural => ""
    case Sharp => "♯"
    case Flat => "♭"
  }

  /** `fullName`: letter, accidental symbol, octave number. */
  function FullName(n: Note): (s: string)
    ensures |s| >= 2 && s[0] == LetterChar(n.name)
  {
    [LetterChar(n.name)] + AccidentalSymbol(n.accidental) + IntToDecimal(n.octave)
  }

  /** What a display name determines. */
  datatype Spelling = Spelling(name: NoteName, accidental: Accidental, octave: int)

  function ParseLetter(c: char): Option<NoteName> {
    if c == 'C' then Some(C) else if c == 'D' then Some(D) else if c == 'E' then Some(E)
    else if c == 'F' then Some(F) else if c == 'G' then Some(G) else if c == 'A' then Some(A)
    else if c == 'B' then Some(B) else None
  }

  lemma ParseLetterInverts(name: NoteName)
    ensures ParseLetter(LetterChar(name)) == Some(name)
  {
  }

  /** Reads a display name back. */
  function ParseFullName(s: string): Option<Spelling> {
    if |s| == 0 then None
    else
      match ParseLetter(s[0])
      case None => None
      case Some(name) =>
        var rest := s[1..];
        var (acc, digits) :=
          if |rest| > 0 && rest[0] == '♯' then (Sharp, rest[1..])
          else if |rest| > 0 && rest[0] == '♭' then (Flat, rest[1..])
          else (Natural, rest);
        match ParseInt(digits)
        case None => None
        case Some(octave) => Some(Spelling(name, acc, octave))
  }

  /** The display name determines letter, accidental and octave. */
  lemma FullNameRoundTrip(n: Note)
    ensures ParseFullName(FullName(n)) == Some(Spelling(n.name, n.accidental, n.octave))
  {
    var s := FullName(n);
    var octaveText := IntToDecimal(n.octave);
    IntToDecimalRoundTrip(n.octave);
    ParseLetterInverts(n.name);
    var rest := s[1..];
    assert rest == AccidentalSymbol(n.accidental) + octaveText;
    match n.accidental
    case Natural =>
      assert rest == octaveText;
      assert rest[0] != '♯' && rest[0] != '♭';
    case Sharp =>
      assert rest[0] == '♯' && rest[1..] == octaveText;
    case Flat =>
      assert rest[0] == '♭' && rest[1..] == octaveText;
  }

  /** Two notes with the same display name have the same spelling. */
  lemma FullNameInjective(a: Note, b: Note)
    requires FullName(a) == FullName(b)
    ensures a.name == b.name && a.accidental == b.accidental && a.octave == b.octave
  {
    FullNameRoundTrip(a);
    FullNameRoundTrip(b);
  }

  // ---------------------------------------------------------------------
  // random(minOctave:maxOctave:)

  /** `Int.random(in: lo...hi)` given the oracle's choice. The range must not
      be empty: Swift traps on an empty closed range. */
  function PickInRange(lo: int, hi: int, choice: nat): (r: int)
    requires lo <= hi
    ensures lo <= r <= hi
  {
    lo + choice % (hi - lo + 1)
  }

  /** Every value of the range is some choice's pick. */
  lemma PickInRangeReachesAll(lo: int, hi: int, v: int)
    requires lo <= v <= hi
    ensures PickInRange(lo, hi, v - lo) == v
  {
  }

  /** The clef the random constructors derive from the octave. */
  function ClefFor(octave: int): Clef {
    if octave < 4 then Bass else Treble
  }

  /** The random draws `random` makes, as an oracle supplies them. */
  datatype RandomDraw = RandomDraw(name: NoteName, octaveChoice: nat, accidental: Accidental,
                                   duration: NoteDuration)

  /** `Note.random(minOctave:maxOctave:)`, given the draws and the fresh id;
      the octave range defaults to 3...5. */
  function RandomNote(draw: RandomDraw, id: Uuid, minOctave: int := 3, maxOctave: int := 5): (n: Note)
    requires minOctave <= maxOctave
    ensures minOctave <= n.octave <= maxOctave
    ensures n.clef == Bass <==> n.octave < 4
    ensures n.id == id && n.name == draw.name && n.accidental == draw.accidental
    ensures n.duration == draw.duration
  {
    var octave := PickInRange(minOctave, maxOctave, draw.octaveChoice);
    Note(id, draw.name, octave, draw.accidental, ClefFor(octave), draw.duration)
  }

  /** Every note in the range with the derived clef is some draw's result. */
  lemma RandomNoteReachesAll(minOctave: int, maxOctave: int, n: Note)
    requires minOctave <= n.octave <= maxOctave && n.clef == ClefFor(n.octave)
    ensures RandomNote(RandomDraw(n.name, n.octave - minOctave, n.accidental, n.duration), n.id,
                       minOctave, maxOctave) == n
  {
    var octave := PickInRange(minOctave, maxOctave, n.octave - minOctave);
    assert octave == n.octave;
  }

  /** With the default range, `random` gives an octave from 3 to 5, in the
      bass clef exactly for octave 3. */
  lemma RandomNoteDefaultRange(draw: RandomDraw, id: Uuid)
    ensures 3 <= RandomNote(draw, id).octave <= 5
    ensures RandomNote(draw, id).clef == Bass <==> RandomNote(draw, id).octave == 3
  {
  }

  /** Notes built with different ids are never `==`, whatever their other
      fields; pitch equality ignores the id. */
  lemma IdentityIncludesId(a: Note, b: Note)
    requires a.id != b.id
    ensures a != b
    ensures a.(id := b.id) == b ==> SamePitch(a, b)
  {
  }
}
