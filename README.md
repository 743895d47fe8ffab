# Piano note reading: a verified model of the app's core

The app shows one note on a grand staff and asks the player to press the
matching key on a two-octave on-screen piano; a practice is a fixed number of
30-second rounds. This project models the logic under that screen in Dafny
and proves what it promises:

- **Notes** (`notes.dfy`, module `Notes`): letters, accidentals, clefs,
  durations; the MIDI number (C4 = 60, as in the MIDI 1.0 convention), the
  staff offset (diatonic steps from C4), the display name, and the random
  constructor. Every `Note(...)` takes a fresh UUID, modelled as a counter
  (`IdSupply`); because Swift synthesises `==` over all stored properties,
  two separately built notes are never `==`, and datatype equality here
  behaves the same way. Pitch equality (`SamePitch`) is separate.
- **Decimal text** (`decimal.dfy`, module `Decimal`): how an `Int` is
  interpolated into the display name, with a parser as its partner.
- **Game engine** (`game_engine.dfy`, module `Game`): the target note, the
  score, the feedback; `generateNote`'s `repeat … while` loop over oracle
  draws, and `check` by pitch.
- **Practice session** (`practice_session.dfy`, module `Practice`): the
  screen state, the note count and the three round counters.
- **Round advance** (`content_view.dfy`, module `Rounds`): the per-second
  timer tick, Skip, End Practice, and the reaction to "Correct" feedback,
  as state transitions over the session timer and the counters.
- **Keyboard** (`piano_view.dfy`, module `Keyboard`): the white and black
  key lists built by loops, the black-key position in white-key widths,
  which key is drawn pressed, and what a key press does.
- **Staff placement** (`staff_view.dfy`, module `Staff`): the note head's
  height in half-line steps from B4 (treble) or D3 (bass) and the ledger
  line rule.
- **Tone synthesis** (`audio_manager.dfy`, module `Audio`): the `playSync`
  guard, the frame count, the ADSR envelope, the six-harmonic sample and the
  loop that writes it to every channel; `setupAudio` as the outcome of its
  platform calls.

Random draws (`Double.random`, `Int.random`, `randomElement`) are oracle
values passed in; `Int.random(in: lo...hi)` is `lo + choice % (hi - lo + 1)`.
Floats and `CGFloat`s are exact reals; `sin` is an oracle table bounded by 1.

`generateNote` repeats its draw while `currentNotes.contains(newNote)`.
Since `contains` uses `==`, which compares the fresh UUID, the draw is never
rejected, even when it is spelled exactly like the current note: the model
follows the code (`Game.GameEngine.GenerateNote` proves the first draw is
taken; `Game.SameSpellingIsNotRejected` shows a same-spelled draw passes).
A structural anti-repeat check is what the loop reads as, but that is not
what it does.

## Model

| member | source | states |
|---|---|---|
| Notes.IdSupply.constructor | Models/Note.swift:25 | the UUID supply starts with nothing handed out |
| Notes.IdSupply.Fresh | Models/Note.swift:25 | each note gets an id never handed out before, and the supply moves past it |
| Notes.LetterIndex | Models/Note.swift:37-48 | the base staff offset of a letter is its position in C D E F G A B (below 7) |
| Notes.StaffOffset | Models/Note.swift:37-49 | the diatonic steps from middle C; `Notes.StaffOffsetLandmarks`, `Notes.PitchIgnoresDisplayFields` and `Keyboard.StaffOffsetDeterminesPosition` state its properties |
| Notes.StaffOffsetLandmarks | Models/Note.swift:36-49 | C4 is at offset 0 whatever its accidental, and one octave up adds exactly 7 |
| Notes.MidiValue | Models/Note.swift:51-73 | the MIDI number; `Notes.MidiLandmarks`, `Notes.NaturalsAscend` and `Notes.NaturalMidiFollowsScale` state its properties |
| Notes.MidiLandmarks | Models/Note.swift:51-73 | C4 is 60; one octave up adds exactly 12; a sharp is the natural + 1 and a flat the natural − 1; C♯4 and D♭4 are both 61 and are the same pitch; C4 and C5 are not |
| Notes.NaturalsAscend | Models/Note.swift:53-64 | within an octave the naturals C..B have strictly increasing MIDI numbers |
| Notes.PitchIgnoresDisplayFields | Models/Note.swift:37-73 | neither the staff offset nor the MIDI number depends on id, clef or duration; the staff offset ignores the accidental too |
| Notes.ScaleSemitonesClosedForm | Models/Note.swift:53-64 | walking the major-scale steps W W H W W W H from C4 by any number of diatonic steps, up or down, gives 12 per octave plus the letter's semitone |
| Notes.NaturalMidiFollowsScale | Models/Note.swift:37-73 | the two numbers agree: a natural's MIDI number is 60 plus the scale walk from C4 to its staff offset |
| Notes.AccidentalSymbol | Models/Note.swift:7-11 | the accidental's text is at most one character, and empty exactly for a natural |
| Notes.FullName | Models/Note.swift:32-34 | the display name starts with the letter and is at least two characters |
| Notes.FullNameRoundTrip | Models/Note.swift:32-34 | reading the display name back yields the note's letter, accidental and octave, for every octave including negative ones |
| Notes.FullNameInjective | Models/Note.swift:32-34 | two notes with the same display name have the same letter, accidental and octave |
| Decimal.DigitChar | Models/Note.swift:33 | each digit 0-9 prints as a character '0'-'9' |
| Decimal.DigitValueInverts | Models/Note.swift:33 | reading a digit character back gives the digit printed |
| Decimal.NatToDecimal | Models/Note.swift:33 | a natural prints as a non-empty string of digits with no leading zero |
| Decimal.IntToDecimal | Models/Note.swift:33 | an integer prints starting with a digit iff it is non-negative and with '-' iff negative |
| Decimal.ParseInt | Models/Note.swift:33 | only a non-empty string can parse |
| Decimal.NatToDecimalValue | Models/Note.swift:33 | the digits printed for n have value n |
| Decimal.IntToDecimalRoundTrip | Models/Note.swift:33 | parsing the printed integer gives it back |
| Notes.PickInRange | Models/Note.swift:77 | `Int.random(in: lo...hi)` stays within the closed range |
| Notes.PickInRangeReachesAll | Models/Note.swift:77 | every value of the range can be drawn |
| Notes.RandomNote | Models/Note.swift:75-83 | the octave lies in [minOctave, maxOctave], the clef is bass iff the octave is below 4, and letter, accidental and duration are the drawn ones |
| Notes.RandomNoteReachesAll | Models/Note.swift:75-83 | every note in the octave range with the derived clef can come out |
| Notes.RandomNoteDefaultRange | Models/Note.swift:75 | with the default range 3...5 the octave is 3, 4 or 5, and the clef is bass exactly for octave 3 |
| Notes.IdentityIncludesId | Models/Note.swift:24-25 | notes built with different ids are never `==`, even when every other field agrees, yet they can be the same pitch |
| Game.DrawNote | Models/GameEngine.swift:17-31 | a roll below 0.05 gives exactly C5 natural, treble, quarter; otherwise the octave is 3 or 4, the clef is bass iff the octave is 3, and letter, accidental and duration are the drawn ones |
| Game.IsCorrectIsPitchEquality | Models/GameEngine.swift:43-44 | the verdict is pitch equality: symmetric, reflexive, and true across enharmonic spellings |
| Game.ScoreAfter | Models/GameEngine.swift:46-59 | the score goes up by one on a correct answer, otherwise down by one but never below zero |
| Game.GameEngine.constructor | Models/GameEngine.swift:6-13 | score 0, feedback "Press the key!" in the primary colour, and exactly one target from the first draw |
| Game.GameEngine.GenerateNote | Models/GameEngine.swift:15-38 | afterwards there is exactly one target, the first draw's note, which was not in the previous targets; one id is used; the score is kept and the feedback reset |
| Game.GameEngine.Check | Models/GameEngine.swift:40-67 | without a target nothing changes; otherwise a played note of the target's pitch scores +1 with "Correct! ✓" in green, any other sets the score to max(0, score − 1) with "Try again! ✗" in red; the target stays |
| Game.SameSpellingIsNotRejected | Models/GameEngine.swift:32 | the anti-repeat test passes a draw spelled exactly like the current note, because the ids differ |
| Practice.PracticeSession.constructor | Models/PracticeSession.swift:12-20 | start screen, 20 notes (one of the offered counts), all counters zero |
| Practice.PracticeSession.StartPractice | Models/PracticeSession.swift:22-27 | practice screen, counters zeroed, note count kept |
| Practice.PracticeSession.EndPractice | Models/PracticeSession.swift:29-31 | summary screen, nothing else changed |
| Practice.PracticeSession.ResetForNewPractice | Models/PracticeSession.swift:33-38 | start screen, counters zeroed, note count kept |
| Practice.PracticeSession.RemainingSessions | Models/PracticeSession.swift:40-46 | the rounds left are never negative, zero exactly when the practice is complete, and otherwise make up the selected count |
| Practice.PracticeSession.IsPracticeComplete | Models/PracticeSession.swift:40-42 | the practice is complete once the session number reaches the chosen count; `Practice.PracticeSession.RemainingSessions` ties it to zero rounds left |
| Rounds.HasSubstring | ContentView.swift:162 | `String.contains`; `Rounds.HasSubstringAt` ties it to an occurrence at some index |
| Rounds.HasSubstringAt | ContentView.swift:162 | the recursive search finds the pattern exactly when it occurs at some index of the text |
| Rounds.OnlyCorrectFeedbackAdvances | ContentView.swift:161-162 | of the engine's three messages only "Correct! ✓" contains "Correct" |
| Rounds.PracticeView.constructor | ContentView.swift:27-28 | a round starts with 30 seconds and no timer |
| Rounds.PracticeView.OnAppear | ContentView.swift:155-157 | appearing starts the timer |
| Rounds.PracticeView.TimerTick | ContentView.swift:190-209 | with time left the tick only counts down; at zero the round is played but not correct, and the practice either ends on the summary screen or restarts the timer at 30 with a new target, one id used, the score kept and the feedback reset to "Press the key!" in the primary colour; the counter invariants hold |
| Rounds.PracticeView.SkipSession | ContentView.swift:212-224 | a skip counts the round as played, not correct, and then ends the practice or restarts the timer at 30 with a new target, one id used, the score kept and the feedback reset to "Press the key!" in the primary colour |
| Rounds.PracticeView.OnFeedbackChange | ContentView.swift:161-180 | feedback containing "Correct" counts a correct round and stops the timer, ending the practice when complete; any other feedback changes nothing |
| Rounds.PracticeView.ResumeAfterCorrect | ContentView.swift:174-177 | the delayed restart sets 30 seconds and a running timer |
| Rounds.PracticeView.EndPracticePressed | ContentView.swift:125-128 | End Practice stops the timer and shows the summary, keeping the correct and total counts, the chosen note count and the session number |
| Staff.NoteY | Views/StaffView.swift:89-112 | a head sits on its staff's middle line iff its staff offset is that line's, and above it iff the offset is higher |
| Staff.CentreLineNotes | Views/StaffView.swift:99-110 | B4 sits on the treble middle line and D3 on the bass middle line |
| Staff.NoteYFollowsStaffOffset | Views/StaffView.swift:99-110 | each diatonic step moves the head up by half a line spacing; accidental and duration play no part |
| Staff.StaffCentresApart | Views/StaffView.swift:89-97 | the bass middle line lies staff gap + 4 line spacings below the treble one |
| Staff.LedgerLineMatchesPlacement | Views/StaffView.swift:170-188 | for every note the generator can produce, a ledger line is drawn iff the head is at least three line spacings from its middle line; such a head sits on the first ledger line, so one line through its centre fits |
| Staff.BassOctaveTwoRuleOvershoots | Views/StaffView.swift:174-177 | the bass rule flags F2, G2, A2 and B2, which lie in the space below the staff or on it; the generator never produces them |
| Staff.NeedsLedgerLine | Views/StaffView.swift:170-180 | the per-clef ledger-line rule; `Staff.LedgerLineMatchesPlacement` and `Staff.BassOctaveTwoRuleOvershoots` relate it to where the head is drawn |
| Staff.NumberOfLedgerLines | Views/StaffView.swift:182-184 | always one ledger line; `Staff.LedgerLineMatchesPlacement` shows that one line suffices for every note the generator produces |
| Staff.LedgerLineOffset | Views/StaffView.swift:186-188 | the line goes through the head's centre; `Staff.LedgerLineMatchesPlacement` shows that such a head sits on the first ledger line |
| Keyboard.WhiteKeyLayout | Views/PianoView.swift:62-73 | there are 16 white keys |
| Keyboard.BlackKeyLayout | Views/PianoView.swift:75-85 | there are 10 black keys |
| Keyboard.WhiteKeys | Views/PianoView.swift:62-73 | the nested loops build exactly B2, C3…B4, C5, one fresh id per key |
| Keyboard.BlackKeys | Views/PianoView.swift:75-85 | the loop builds exactly C♯ D♯ F♯ G♯ A♯ of octave 3 then of octave 4, one fresh id per key |
| Keyboard.StaffOffsetDeterminesPosition | Models/Note.swift:37-49 | two notes at the same staff offset have the same letter and octave |
| Keyboard.WhiteKeyStaffOffsets | Views/PianoView.swift:62-73 | white key k is the natural at staff offset k − 8, quarter, bass clef only for B2 |
| Keyboard.WhiteKeysCoverNaturals | Views/PianoView.swift:62-73 | every natural from B2 to C5 has a white key, at index staff offset + 8 |
| Keyboard.WhiteKeysAdjacentStep | Views/PianoView.swift:64-71 | neighbouring white keys differ by the scale step between them |
| Keyboard.WhiteKeysAscend | Views/PianoView.swift:64-71 | the white keys rise strictly in pitch, from 47 to 72 |
| Keyboard.BlackKeyAtShape | Views/PianoView.swift:75-85 | every black key is a sharp of C, D, F, G or A in octave 3 or 4 |
| Keyboard.BlackKeySitsBetweenWhites | Views/PianoView.swift:87-100 | a black key is one semitone above the white key of its letter and octave and below the next white key, and its x position is that white key's index + 1 white-key widths: the boundary between the two |
| Keyboard.BlackKeyX | Views/PianoView.swift:87-99 | the black key's centre; `Keyboard.BlackKeySitsBetweenWhites` places it on the boundary between its two white keys |
| Keyboard.NoBlackKeyDoublesAWhite | Views/PianoView.swift:64-82 | no black key has the pitch of any white key |
| Keyboard.PressedKeyLostOnRedraw | Views/PianoView.swift:17 | as written, for any pressed note with an id drawn before the redraw, no white key and no black key of the redrawn keyboard equals it, so none is drawn pressed |
| Keyboard.PressedWhiteKeyKeptOnRedraw | Views/PianoView.swift:17 | comparing all fields but the id, a pressed white key is drawn pressed in any later drawing, and it alone |
| Keyboard.PressedBlackKeyKeptOnRedraw | Views/PianoView.swift:32 | the same for a pressed black key, and no white key matches it |
| Keyboard.PianoView.constructor | Views/PianoView.swift:3-5 | no key is pressed at first |
| Keyboard.PianoView.PressKey | Views/PianoView.swift:52-56 | a press marks the key, queues its sound and leaves the rest of the audio state alone, and checks it exactly once (a ghost log records the order of the two calls), with the engine's verdict, score rule and feedback colour (unchanged with no note on screen) |
| Keyboard.PianoView.ReleaseKey | Views/PianoView.swift:57-59 | the delayed release clears the pressed key |
| Keyboard.PianoView.Render | Views/PianoView.swift:7-38 | a drawing rebuilds both key lists with fresh ids, advancing the id counter by 26, and marks exactly the keys equal to the pressed note, so once a key is pressed no key is marked |
| Audio.Envelope | Models/AudioManager.swift:97-108 | within the one-second tone the envelope stays in [0, 1] |
| Audio.EnvelopePhases | Models/AudioManager.swift:92-108 | the envelope rises linearly from 0 to 1 over 10 ms, falls linearly to 0.1 by 110 ms, holds 0.1 until 0.9 s and falls linearly to 0 at 1 s |
| Audio.FrameCount | Models/AudioManager.swift:67 | the frame count is the duration times the rate, truncated |
| Audio.OneSecondFrameCount | Models/AudioManager.swift:65-67 | a one-second tone at 44.1 kHz has 44100 frames |
| Audio.FrequencyExponent | Models/AudioManager.swift:131-135 | the exponent is 0 for A4 (440 Hz), grows by 12 per octave, and is equal exactly for notes of the same pitch |
| Audio.HarmonicSumBound | Models/AudioManager.swift:79-116 | with sines in [−1, 1] the harmonic sum is bounded by the sum of the amplitudes |
| Audio.SampleBound | Models/AudioManager.swift:79-118 | every sample of the tone lies within 0.3 × 2.25 / 6 of zero, and the first is zero |
| Audio.SynthesizeSample | Models/AudioManager.swift:89-118 | the harmonic loop computes the sample definition |
| Audio.RenderBuffer | Models/AudioManager.swift:88-123 | every channel gets the same sample at every frame |
| Audio.AudioManager.constructor | Models/AudioManager.swift:3-14 | before setup there is no engine, player or format |
| Audio.AudioManager.SetupAudio | Models/AudioManager.swift:16-48 | setup leaves an engine and a new player that is not playing; the format is 44.1 kHz with the output's channel count when it could be built, and the engine runs only if it was built and started |
| Audio.AudioManager.Play | Models/AudioManager.swift:50-54 | a play request queues the note |
| Audio.AudioManager.Ready | Models/AudioManager.swift:57-62 | the `playSync` guard: player, engine and format exist and the engine runs; `Audio.AudioManager.PlaySync` changes nothing when it fails |
| Audio.AudioManager.PlaySync | Models/AudioManager.swift:56-129 | without a player, an engine, a format and a running engine, or without a buffer, nothing is scheduled; otherwise one fresh 44100-frame buffer of the samples is scheduled on every channel and the player plays |

## Left out

- Audio session configuration, `engine.attach`/`connect`, `scheduleBuffer`'s
  playback and `player.play()` are platform calls; `SetupAudio` and
  `PlaySync` take their outcomes as parameters.
- The audio dispatch queue, timers, `DispatchQueue.main.asyncAfter` delays
  and `onDisappear`: concurrency and time. Their closures are separate
  methods (`ResumeAfterCorrect`, `ReleaseKey`, and `GenerateNote` for the
  engine's delayed call), run whenever the platform would run them.
- The values of `sin` and `pow` in the tone: floating-point numerics. The
  sines are an oracle bounded by 1; the frequency is kept as its exponent.
- Float and Double rounding: all arithmetic is exact. The sample bound and
  the envelope phases hold of the exact values.
- Int overflow: octaves and scores are unbounded integers.
- Rounds.PracticeView: `timerActive` means that at least one session timer is scheduled. `startSessionTimer` replaces `timerSubscription` without invalidating the old timer, so Skip pressed within 0.6 s of a correct answer leaves two repeating timers and a countdown at double speed. The model has one flag and ticks one timer at a time.
- Keyboard.PianoView.Render: each key list is built once per drawing, while `body` evaluates `whiteKeys` and `blackKeys` again in every `ForEach` closure. Each evaluation takes fresh UUIDs, so the model's id count per drawing is lower, and no stated property depends on it.
- Haptic feedback and the colour values; feedback colour is an enum tag.
- The SwiftUI layout (staff drawing, clef glyphs, the debug slider, key
  sizes, gradients, animations), the start and summary screens and the
  accuracy percentage shown on them and in the header: presentation and
  Double arithmetic.
- Probabilities (the 5% bonus rate): the model states which draws give
  which notes, not how often.
- Game.GameEngine.GenerateNote: the `repeat … while` loop gets its draws
  from a finite supply with at least one draw; since the first draw is
  always accepted, the supply never limits it.

## Findings

| source | as written | input that shows it | evidently intended | confidence | as-written member | corrected member |
|---|---|---|---|---|---|---|
| Views/PianoView.swift:17 | `isPressed: pressedKey == note` compares notes with `==`, which includes the UUID, while `whiteKeys` and `blackKeys` build new notes with fresh UUIDs on every evaluation of `body` | press any key: setting `pressedKey` redraws the view, and no key of the redrawn keyboard equals the stored note, so no key is ever drawn pressed (the same holds for black keys at line 32) | the pressed key is drawn pressed until its release 0.15 s later: `Keyboard.IsPressed` compares every field but the id, while `Keyboard.PianoView.Render` keeps the comparison as written | not executed | Keyboard.PressedKeyLostOnRedraw | Keyboard.PressedWhiteKeyKeptOnRedraw |
