/** Views/PianoView.swift: the sixteen white keys B2 to C5, the ten black
    keys, where a black key is drawn, which key shows as pressed, and what
    pressing a key does. Key lists are rebuilt, with fresh ids, whenever the
    view is drawn. */
module Keyboard {
  import opened Optional
  import opened Notes
  import opened Game
  import opened Audio

  const WhiteKeyCount: nat := 16
  const BlackKeyCount: nat := 10

  /** The letters with a sharp key, in the order `blackKeys` appends them. */
  const BlackKeyNames: seq<NoteName> := [C, D, F, G, A]

  /** The `k`-th entry of `whiteKeys`: B2 in the bass clef, the naturals of
      octaves 3 and 4 in letter order, then C5. */
  function WhiteKeyAt(k: nat, id: Uuid): Note
    requires k < WhiteKeyCount
  {
    if k == 0 then Note(id, B, 2, Natural, Bass, Quarter)
    else if k == WhiteKeyCount - 1 then Note(id, C, 5, Natural, Treble, Quarter)
    else Note(id, AllNames[(k - 1) % 7], 3 + (k - 1) / 7, Natural, Treble, Quarter)
  }

  /** `whiteKeys` as built when the ids handed out start at `firstId`. */
  function WhiteKeyLayout(firstId: Uuid): (keys: seq<Note>)
    ensures |keys| == WhiteKeyCount
  {
    seq(WhiteKeyCount, k requires 0 <= k < WhiteKeyCount => WhiteKeyAt(k, firstId + k))
  }

  /** The `k`-th entry of `blackKeys`: the five sharps of octave 3, then
      those of octave 4. */
  function BlackKeyAt(k: nat, id: Uuid): Note
    requires k < BlackKeyCount
  {
    Note(id, BlackKeyNames[k % 5], 3 + k / 5, Sharp, Treble, Quarter)
  }

  function BlackKeyLayout(firstId: Uuid): (keys: seq<Note>)
    ensures |keys| == BlackKeyCount
  {
    seq(BlackKeyCount, k requires 0 <= k < BlackKeyCount => BlackKeyAt(k, firstId + k))
  }

  /** The `whiteKeys` property: each `Note(...)` takes a fresh id. */
  method WhiteKeys(ids: IdSupply) returns (keys: seq<Note>)
    modifies ids
    ensures keys == WhiteKeyLayout(old(ids.next))
    ensures ids.next == old(ids.next) + WhiteKeyCount
  {
    ghost var first := ids.next;
    var id := ids.Fresh();
    keys := [Note(id, B, 2, Natural, Bass, Quarter)];
    for octave := 3 to 5
      invariant |keys| == 1 + (octave - 3) * 7
      invariant ids.next == first + |keys|
      invariant forall k :: 0 <= k < |keys| ==> keys[k] == WhiteKeyAt(k, first + k)
    {
      for j := 0 to |AllNames|
        invariant |keys| == 1 + (octave - 3) * 7 + j
        invariant ids.next == first + |keys|
        invariant forall k :: 0 <= k < |keys| ==> keys[k] == WhiteKeyAt(k, first + k)
      {
        id := ids.Fresh();
        ghost var k := |keys|;
        assert (k - 1) % 7 == j && (k - 1) / 7 == octave - 3;
        keys := keys + [Note(id, AllNames[j], octave, Natural, Treble, Quarter)];
      }
    }
    id := ids.Fresh();
    keys := keys + [Note(id, C, 5, Natural, Treble, Quarter)];
    assert |keys| == WhiteKeyCount;
    assert forall k :: 0 <= k < WhiteKeyCount ==> keys[k] == WhiteKeyAt(k, first + k);
  }

  /** The `blackKeys` property: five sharps per octave, in octaves 3 and 4. */
  method BlackKeys(ids: IdSupply) returns (keys: seq<Note>)
    modifies ids
    ensures keys == BlackKeyLayout(old(ids.next))
    ensures ids.next == old(ids.next) + BlackKeyCount
  {
    ghost var first := ids.next;
    keys := [];
    for octave := 3 to 5
      invariant |keys| == (octave - 3) * 5
      invariant ids.next == first + |keys|
      invariant forall k :: 0 <= k < |keys| ==> keys[k] == BlackKeyAt(k, first + k)
    {
      ghost var base := |keys|;
      assert base / 5 == octave - 3 && base % 5 == 0;
      var id := ids.Fresh();
      keys := keys + [Note(id, C, octave, Sharp, Treble, Quarter)];
      id := ids.Fresh();
      keys := keys + [Note(id, D, octave, Sharp, Treble, Quarter)];
      id := ids.Fresh();
      keys := keys + [Note(id, F, octave, Sharp, Treble, Quarter)];
      id := ids.Fresh();
      keys := keys + [Note(id, G, octave, Sharp, Treble, Quarter)];
      id := ids.Fresh();
      keys := keys + [Note(id, A, octave, Sharp, Treble, Quarter)];
    }
  }

  // ---------------------------------------------------------------------
  // The layout's properties

  lemma LetterIndexOfAllNames(r: nat)
    requires r < 7
    ensures LetterIndex(AllNames[r]) == r
  {
    if r == 0 {} else if r == 1 {} else if r == 2 {} else if r == 3 {}
    else if r == 4 {} else if r == 5 {} else {}
  }

  /** Two notes on the same staff position have the same letter and octave. */
  lemma StaffOffsetDeterminesPosition(a: Note, b: Note)
    requires StaffOffset(a) == StaffOffset(b)
    ensures a.name == b.name && a.octave == b.octave
  {
    var ia, ib := LetterIndex(a.name), LetterIndex(b.name);
    assert ia - ib == 7 * (b.octave - a.octave);
    assert a.octave == b.octave;
  }

  /** One diatonic step up from staff offset `s` adds the scale step that
      starts at that letter. */
  lemma ScaleStepUp(s: int)
    ensures ScaleSemitones(s + 1) == ScaleSemitones(s) + ScaleSteps[s % 7]
  {
  }

  lemma WhiteKeyAtStaffOffset(k: nat, id: Uuid)
    requires k < WhiteKeyCount
    ensures StaffOffset(WhiteKeyAt(k, id)) == k - 8
  {
    if 0 < k < WhiteKeyCount - 1 {
      var q, r := (k - 1) / 7, (k - 1) % 7;
      assert k - 1 == 7 * q + r;
      LetterIndexOfAllNames(r);
    }
  }

  /** Each white key is one diatonic step above the previous one: key `k`
      is the natural at staff offset `k - 8`, from B2 up to C5, and only B2
      is written in the bass clef. */
  lemma WhiteKeyStaffOffsets(firstId: Uuid, k: nat)
    requires k < WhiteKeyCount
    ensures StaffOffset(WhiteKeyLayout(firstId)[k]) == k - 8
    ensures WhiteKeyLayout(firstId)[k].accidental == Natural
    ensures WhiteKeyLayout(firstId)[k].clef == (if k == 0 then Bass else Treble)
    ensures WhiteKeyLayout(firstId)[k].id == firstId + k
    ensures WhiteKeyLayout(firstId)[k].duration == Quarter
  {
    assert WhiteKeyLayout(firstId)[k] == WhiteKeyAt(k, firstId + k);
    WhiteKeyAtStaffOffset(k, firstId + k);
  }

  /** Every natural from B2 to C5 has a white key, at the index its staff
      offset gives. */
  lemma WhiteKeysCoverNaturals(firstId: Uuid, n: Note)
    requires -8 <= StaffOffset(n) <= 7
    ensures var k := StaffOffset(n) + 8;
      WhiteKeyLayout(firstId)[k].name == n.name && WhiteKeyLayout(firstId)[k].octave == n.octave
  {
    var k := StaffOffset(n) + 8;
    WhiteKeyStaffOffsets(firstId, k);
    StaffOffsetDeterminesPosition(WhiteKeyLayout(firstId)[k], n);
  }

  /** A white key and its right neighbour differ by the scale step between
      them. */
  lemma WhiteKeysAdjacentStep(firstId: Uuid, k: nat)
    requires k + 1 < WhiteKeyCount
    ensures MidiValue(WhiteKeyLayout(firstId)[k + 1])
            == MidiValue(WhiteKeyLayout(firstId)[k]) + ScaleSteps[(k - 8) % 7]
  {
    var keys := WhiteKeyLayout(firstId);
    WhiteKeyStaffOffsets(firstId, k);
    WhiteKeyStaffOffsets(firstId, k + 1);
    NaturalMidiFollowsScale(keys[k]);
    NaturalMidiFollowsScale(keys[k + 1]);
    ScaleStepUp(k - 8);
  }

  /** Left to right, the white keys rise strictly in pitch, from B2 (47) to
      C5 (72). */
  lemma {:induction false} WhiteKeysAscend(firstId: Uuid, i: nat, j: nat)
    requires i < j < WhiteKeyCount
    ensures MidiValue(WhiteKeyLayout(firstId)[i]) < MidiValue(WhiteKeyLayout(firstId)[j])
    ensures MidiValue(WhiteKeyLayout(firstId)[0]) == 47
    ensures MidiValue(WhiteKeyLayout(firstId)[WhiteKeyCount - 1]) == 72
    decreases j - i
  {
    assert WhiteKeyLayout(firstId)[0] == WhiteKeyAt(0, firstId);
    assert WhiteKeyLayout(firstId)[15] == WhiteKeyAt(15, firstId + 15);
    WhiteKeysAdjacentStep(firstId, j - 1);
    if i < j - 1 {
      WhiteKeysAscend(firstId, i, j - 1);
    }
  }

  lemma BlackKeyNamesDistinct(r1: nat, r2: nat)
    requires r1 < 5 && r2 < 5 && BlackKeyNames[r1] == BlackKeyNames[r2]
    ensures r1 == r2
  {
    if r1 == 0 {} else if r1 == 1 {} else if r1 == 2 {} else if r1 == 3 {} else {}
  }

  /** Black key `k` is the sharp of C, D, F, G or A in octave 3 or 4. */
  lemma BlackKeyAtShape(k: nat, id: Uuid)
    requires k < BlackKeyCount
    ensures var b := BlackKeyAt(k, id);
      b.name in BlackKeyNames && (b.octave == 3 || b.octave == 4)
      && -7 <= StaffOffset(b) <= 5 && b.accidental == Sharp && b.id == id
  {
  }

  /** `calculateBlackKeyXPosition`'s `baseIndex` before the octave term;
      E and B, which have no black key, fall to the default. */
  function BlackKeyBaseIndex(name: NoteName): int {
    match name
    case C => 0
    case D => 1
    case F => 3
    case G => 4
    case A => 5
    case _ => 0
  }

  /** The black key's x position in white-key widths. */
  function BlackKeyXUnits(n: Note): int {
    var baseIndex := BlackKeyBaseIndex(n.name) + (n.octave - 3) * 7 + 1;
    baseIndex + 1
  }

  /** `calculateBlackKeyXPosition(for:whiteKeyWidth:)`: the black key's
      centre. */
  function BlackKeyX(n: Note, whiteKeyWidth: real): real {
    (BlackKeyXUnits(n) as real) * whiteKeyWidth
  }

  /** The left edge of the white key at `index`; the view places its centre
      half a width further right. */
  function WhiteKeyLeft(index: nat, whiteKeyWidth: real): real {
    (index as real) * whiteKeyWidth
  }

  /** The sharp of a letter with a black key is a semitone above its natural
      and below the next natural up. */
  lemma SharpBelowNextNatural(b: Note, natural: Note, next: Note)
    requires b.name in BlackKeyNames && b.accidental == Sharp
    requires natural.name == b.name && natural.octave == b.octave && natural.accidental == Natural
    requires MidiValue(next) == MidiValue(natural) + ScaleSteps[LetterIndex(b.name)]
    ensures MidiValue(b) == MidiValue(natural) + 1 && MidiValue(b) < MidiValue(next)
  {
  }

  /** A black key's centre, in white-key widths, is one past the index of
      the white key below it. */
  lemma BlackKeyUnitsFollowStaff(b: Note)
    requires b.name in BlackKeyNames && (b.octave == 3 || b.octave == 4)
    ensures BlackKeyXUnits(b) == StaffOffset(b) + 9
  {
  }

  /** Each black key is the sharp of the white key `j` at its staff offset:
      one semitone above it and below white key `j + 1`, and centred on the
      boundary between those two white keys. */
  lemma BlackKeySitsBetweenWhites(whiteFirst: Uuid, blackFirst: Uuid, k: nat, whiteKeyWidth: real)
    requires k < BlackKeyCount
    ensures var b := BlackKeyLayout(blackFirst)[k];
      var whites := WhiteKeyLayout(whiteFirst);
      var j := StaffOffset(b) + 8;
      0 < j < WhiteKeyCount - 1
      && whites[j].name == b.name && whites[j].octave == b.octave
      && MidiValue(b) == MidiValue(whites[j]) + 1
      && MidiValue(b) < MidiValue(whites[j + 1])
      && BlackKeyX(b, whiteKeyWidth) == WhiteKeyLeft(j + 1, whiteKeyWidth)
  {
    var b := BlackKeyLayout(blackFirst)[k];
    var whites := WhiteKeyLayout(whiteFirst);
    assert b == BlackKeyAt(k, blackFirst + k);
    BlackKeyAtShape(k, blackFirst + k);
    var j := StaffOffset(b) + 8;
    WhiteKeysCoverNaturals(whiteFirst, b);
    WhiteKeyStaffOffsets(whiteFirst, j);
    WhiteKeysAdjacentStep(whiteFirst, j);
    assert (j - 8) % 7 == LetterIndex(b.name);
    SharpBelowNextNatural(b, whites[j], whites[j + 1]);
    BlackKeyUnitsFollowStaff(b);
  }

  /** No black key sounds the pitch of a white key. */
  lemma NoBlackKeyDoublesAWhite(whiteFirst: Uuid, blackFirst: Uuid, i: nat, k: nat)
    requires i < WhiteKeyCount && k < BlackKeyCount
    ensures MidiValue(WhiteKeyLayout(whiteFirst)[i]) != MidiValue(BlackKeyLayout(blackFirst)[k])
  {
    var b := BlackKeyLayout(blackFirst)[k];
    var j := StaffOffset(b) + 8;
    BlackKeySitsBetweenWhites(whiteFirst, blackFirst, k, 1.0);
    if i < j {
      WhiteKeysAscend(whiteFirst, i, j);
    } else if i > j + 1 {
      WhiteKeysAscend(whiteFirst, j + 1, i);
    }
  }

  // ---------------------------------------------------------------------
  // Which key is drawn as pressed

  /** `pressedKey == note` as written: Swift's `==` on notes compares the
      ids as well. */
  predicate IsPressedAsWritten(pressedKey: Option<Note>, key: Note) {
    pressedKey == Some(key)
  }

  /** The same key: every field but the id. */
  predicate SameKey(a: Note, b: Note) {
    a.(id := 0) == b.(id := 0)
  }

  /** The intended test: the pressed note is this key, whatever its id. */
  predicate IsPressed(pressedKey: Option<Note>, key: Note) {
    pressedKey.Some? && SameKey(pressedKey.value, key)
  }

  /** Setting `pressedKey` redraws the view, which rebuilds both key lists
      with ids handed out after the pressed note's: as written, no key of
      the new drawing, white or black, is ever drawn pressed. */
  lemma PressedKeyLostOnRedraw(pressed: Note, firstId: Uuid)
    requires pressed.id < firstId
    ensures forall k :: 0 <= k < WhiteKeyCount ==> !IsPressedAsWritten(Some(pressed), WhiteKeyLayout(firstId)[k])
    ensures forall k :: 0 <= k < BlackKeyCount ==> !IsPressedAsWritten(Some(pressed), BlackKeyLayout(firstId)[k])
  {
    forall k | 0 <= k < WhiteKeyCount
      ensures WhiteKeyLayout(firstId)[k].id >= firstId
    {
      WhiteKeyStaffOffsets(firstId, k);
    }
    forall k | 0 <= k < BlackKeyCount
      ensures BlackKeyLayout(firstId)[k].id >= firstId
    {
      assert BlackKeyLayout(firstId)[k] == BlackKeyAt(k, firstId + k);
    }
  }

  /** With the id left out of the comparison, a white key pressed in one
      drawing is drawn pressed in every later one, and only that key. */
  lemma PressedWhiteKeyKeptOnRedraw(previous: Uuid, j: nat, firstId: Uuid, k: nat, b: nat)
    requires j < WhiteKeyCount && k < WhiteKeyCount && b < BlackKeyCount
    ensures IsPressed(Some(WhiteKeyLayout(previous)[j]), WhiteKeyLayout(firstId)[k]) <==> k == j
    ensures !IsPressed(Some(WhiteKeyLayout(previous)[j]), BlackKeyLayout(firstId)[b])
  {
    var pressed, key := WhiteKeyLayout(previous)[j], WhiteKeyLayout(firstId)[k];
    WhiteKeyStaffOffsets(previous, j);
    WhiteKeyStaffOffsets(firstId, k);
    if k == j {
      StaffOffsetDeterminesPosition(pressed, key);
    }
    assert BlackKeyLayout(firstId)[b] == BlackKeyAt(b, firstId + b);
  }

  /** The same for a black key: it alone is drawn pressed, and no white
      key is. */
  lemma PressedBlackKeyKeptOnRedraw(previous: Uuid, j: nat, firstId: Uuid, k: nat, w: nat)
    requires j < BlackKeyCount && k < BlackKeyCount && w < WhiteKeyCount
    ensures IsPressed(Some(BlackKeyLayout(previous)[j]), BlackKeyLayout(firstId)[k]) <==> k == j
    ensures !IsPressed(Some(BlackKeyLayout(previous)[j]), WhiteKeyLayout(firstId)[w])
  {
    var pressed, key := BlackKeyLayout(previous)[j], BlackKeyLayout(firstId)[k];
    WhiteKeyStaffOffsets(firstId, w);
    assert pressed == BlackKeyAt(j, previous + j);
    assert key == BlackKeyAt(k, firstId + k);
    if SameKey(pressed, key) {
      assert pressed.name == key.name && pressed.octave == key.octave;
      BlackKeyNamesDistinct(j % 5, k % 5);
      assert j / 5 == k / 5;
      assert j == 5 * (j / 5) + j % 5;
      assert k == 5 * (k / 5) + k % 5;
    }
  }

  // ---------------------------------------------------------------------
  // The view

  /** What a key press hands on, in order: the sound request, the check. */
  datatype PressEffect = Played(note: Note) | Checked(note: Note)

  class PianoView {
    const engine: GameEngine
    const audio: AudioManager
    var pressedKey: Option<Note>
    /** The effects of the presses so far, in the order `PressKey` makes
        its two calls. The callees do not write this log, so it records that
        order rather than deriving it from their effects. */
    ghost var effects: seq<PressEffect>

    /** A pressed note was built before: its id was handed out already. */
    ghost predicate Valid()
      reads this, engine, engine.ids
    {
      engine.Valid() && (pressedKey.Some? ==> pressedKey.value.id < engine.ids.next)
    }

    constructor (engine: GameEngine, audio: AudioManager)
      requires engine.Valid()
      ensures Valid() && this.engine == engine && this.audio == audio && pressedKey == None
      ensures effects == []
    {
      this.engine := engine;
      this.audio := audio;
      pressedKey := None;
      effects := [];
    }

    /** `pressKey(_:)`: mark the key, queue its sound, check it against the
        target. The release 0.15 s later is `ReleaseKey`. */
    method PressKey(note: Note)
      requires Valid() && note.id < engine.ids.next
      modifies this, audio, engine
      ensures Valid() && pressedKey == Some(note)
      ensures effects == old(effects) + [Played(note), Checked(note)]
      ensures audio.requests == old(audio.requests) + [note]
      ensures audio.hasEngine == old(audio.hasEngine) && audio.hasPlayer == old(audio.hasPlayer)
      ensures audio.format == old(audio.format) && audio.engineRunning == old(audio.engineRunning)
      ensures audio.playerPlaying == old(audio.playerPlaying) && audio.scheduled == old(audio.scheduled)
      ensures engine.currentNotes == old(engine.currentNotes)
      ensures old(engine.currentNotes) == [] ==>
                engine.score == old(engine.score) && engine.feedbackMessage == old(engine.feedbackMessage)
                && engine.feedbackColor == old(engine.feedbackColor)
      ensures old(engine.currentNotes) != [] ==>
                var correct := IsCorrect(note, old(engine.currentNotes)[0]);
                engine.score == ScoreAfter(old(engine.score), correct)
                && engine.feedbackMessage == (if correct then CorrectFeedback else TryAgainFeedback)
                && engine.feedbackColor == (if correct then Green else Red)
    {
      pressedKey := Some(note);
      audio.Play(note);
      effects := effects + [Played(note)];
      engine.Check(note);
      effects := effects + [Checked(note)];
    }

    /** The closure run 0.15 s after a press. */
    method ReleaseKey()
      requires Valid()
      modifies this
      ensures Valid() && pressedKey == None && effects == old(effects)
    {
      pressedKey := None;
    }

    /** One evaluation of `body`: both key lists are rebuilt with fresh ids
        and each key is drawn pressed when `pressedKey == note`. Since the
        pressed note was built before this drawing, no key ever is. */
    method Render() returns (whites: seq<Note>, blacks: seq<Note>,
                             whitePressed: seq<bool>, blackPressed: seq<bool>)
      requires Valid()
      modifies engine.ids
      ensures Valid() && engine.ids.next == old(engine.ids.next) + WhiteKeyCount + BlackKeyCount
      ensures whites == WhiteKeyLayout(old(engine.ids.next))
      ensures blacks == BlackKeyLayout(old(engine.ids.next) + WhiteKeyCount)
      ensures |whitePressed| == WhiteKeyCount && |blackPressed| == BlackKeyCount
      ensures forall k :: 0 <= k < WhiteKeyCount ==> whitePressed[k] == IsPressedAsWritten(pressedKey, whites[k])
      ensures forall k :: 0 <= k < BlackKeyCount ==> blackPressed[k] == IsPressedAsWritten(pressedKey, blacks[k])
      ensures pressedKey.Some? ==>
                (forall k :: 0 <= k < WhiteKeyCount ==> !whitePressed[k])
                && (forall k :: 0 <= k < BlackKeyCount ==> !blackPressed[k])
    {
      ghost var first := engine.ids.next;
      whites := WhiteKeys(engine.ids);
      blacks := BlackKeys(engine.ids);
      var pressed := pressedKey;
      whitePressed := seq(WhiteKeyCount, k requires 0 <= k < WhiteKeyCount => IsPressedAsWritten(pressed, whites[k]));
      blackPressed := seq(BlackKeyCount, k requires 0 <= k < BlackKeyCount => IsPressedAsWritten(pressed, blacks[k]));
      if pressed.Some? {
        PressedKeyLostOnRedraw(pressed.value, first);
        PressedKeyLostOnRedraw(pressed.value, first + WhiteKeyCount);
      }
    }
  }
}
