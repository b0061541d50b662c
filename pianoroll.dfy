/** The piano roll: the key names C1 .. C7, which of them are black, how wide
    the keys are drawn at the current zoom, the zoom controls, and the
    press-and-drag note player. */
module PianoRoll {
  import opened Optional
  import opened Text
  import Controls

  const NoteNames: seq<string> := ["C", "C#", "D", "D#", "E", "F", "F#", "G", "G#", "A", "A#", "B"]

  /** The piano drawn by the component spans six octaves. */
  const Octaves: nat := 6

  // ---------------------------------------------------------------------
  // Key names

  /** Key k of the keyboard: `noteNames[k % 12]` followed by its octave
      number `1 + floor(k / 12)`. */
  function NoteName(k: nat): string {
    NoteNames[k % 12] + NatToString(1 + k / 12)
  }

  function Keys(m: nat): (keys: seq<string>)
    ensures |keys| == m && forall k :: 0 <= k < m ==> keys[k] == NoteName(k)
  {
    seq(m, k requires 0 <= k < m => NoteName(k))
  }

  /** The names generateNotes(n) returns: the 12n keys of octaves 1 .. n,
      then the closing C of octave n + 1. */
  function Notes(maxOctave: nat): seq<string> {
    Keys(12 * maxOctave) + ["C" + NatToString(maxOctave + 1)]
  }

  lemma OctaveOfKey(i: nat)
    ensures i > 0 && i % 12 == 0 ==> 1 + (i - 1) / 12 + 1 == 1 + i / 12
    ensures i > 0 && i % 12 != 0 ==> 1 + (i - 1) / 12 == 1 + i / 12
  {
  }

  /** generateNotes: the while loop with its octave and index counters. */
  method GenerateNotes(maxOctave: nat) returns (notes: seq<string>)
    ensures notes == Notes(maxOctave)
  {
    notes := [];
    var octave := 1;
    var i := 0;
    while octave <= maxOctave
      invariant 0 <= i <= 12 * maxOctave
      invariant octave == if i == 0 then 1 else 1 + (i - 1) / 12
      invariant notes == Keys(i)
      invariant octave > maxOctave ==> i == 12 * maxOctave
      decreases 12 * maxOctave - i
    {
      var note := NoteNames[i % 12];
      OctaveOfKey(i);
      if note == "C" && i != 0 {
        octave := octave + 1;
        if octave > maxOctave {
          break;
        }
      }
      assert i < 12 * maxOctave;
      notes := notes + [note + NatToString(octave)];
      i := i + 1;
    }
    notes := notes + ["C" + NatToString(maxOctave + 1)];
  }

  /** The keyboard drawn: 73 keys from C1 to C7. */
  lemma SixOctaves()
    ensures |Notes(Octaves)| == 73
    ensures Notes(Octaves)[0] == "C1" && Notes(Octaves)[72] == "C7"
  {
    assert NatToString(1) == "1" && NatToString(7) == "7";
  }

  predicate NoDigits(s: string) { forall k :: 0 <= k < |s| ==> !IsDigit(s[k]) }

  /** A name without digits followed by a non-empty number splits in one
      way only. */
  lemma NameSplit(p: string, d: string, q: string, e: string)
    requires NoDigits(p) && NoDigits(q) && AllDigits(d) && AllDigits(e) && |d| > 0 && |e| > 0
    ensures p + d == q + e ==> p == q && d == e
  {
    if |p| < |q| {
      assert (p + d)[|p|] != (q + e)[|p|];
    } else if |q| < |p| {
      assert (q + e)[|q|] != (p + d)[|q|];
    } else {
      if p + d == q + e {
        assert p == (p + d)[..|p|] && q == (q + e)[..|q|];
        assert d == (p + d)[|p|..] && e == (q + e)[|q|..];
      }
    }
  }

  lemma NoteNamesShape()
    ensures forall r :: 0 <= r < 12 ==> NoDigits(NoteNames[r]) && |NoteNames[r]| > 0
    ensures forall r, s :: 0 <= r < s < 12 ==> NoteNames[r] != NoteNames[s]
  {
  }

  /** No two keys share a name. */
  lemma NotesDistinct(maxOctave: nat, i: nat, j: nat)
    requires i < j < |Notes(maxOctave)|
    ensures Notes(maxOctave)[i] != Notes(maxOctave)[j]
  {
    var notes := Notes(maxOctave);
    NoteNamesShape();
    var a, x := NoteNames[i % 12], NatToString(1 + i / 12);
    ParseNatToString(1 + i / 12);
    if j < 12 * maxOctave {
      var b, y := NoteNames[j % 12], NatToString(1 + j / 12);
      NameSplit(a, x, b, y);
      ParseNatToString(1 + j / 12);
      if i % 12 == j % 12 {
        assert i / 12 != j / 12 by {
          assert i == 12 * (i / 12) + i % 12 && j == 12 * (j / 12) + j % 12;
        }
        assert x != y;
      } else {
        assert a != b;
      }
    } else {
      var y := NatToString(maxOctave + 1);
      assert NoDigits("C");
      NameSplit(a, x, "C", y);
      ParseNatToString(maxOctave + 1);
      assert i / 12 < maxOctave;
      assert x != y;
    }
  }

  // ---------------------------------------------------------------------
  // Black keys

  /** isBlackKey: the name contains a '#'. */
  predicate IsBlackKey(note: string) { '#' in note }

  /** The positions of the black keys within an octave. */
  predicate BlackStep(r: nat) { r == 1 || r == 3 || r == 6 || r == 8 || r == 10 }

  lemma BlackKeyPattern(k: nat)
    ensures IsBlackKey(NoteName(k)) <==> BlackStep(k % 12)
  {
    var d := NatToString(1 + k / 12);
    assert '#' !in d;
    assert NoteName(k) == NoteNames[k % 12] + d;
  }

  /** The number of black keys among the names. */
  function BlackCount(notes: seq<string>): (n: nat)
    ensures n <= |notes|
  {
    if |notes| == 0 then 0
    else BlackCount(notes[..|notes| - 1]) + (if IsBlackKey(notes[|notes| - 1]) then 1 else 0)
  }

  /** Black keys below position r of an octave, for r = 0 .. 12. */
  const BlackBelow: seq<nat> := [0, 0, 1, 1, 2, 2, 2, 3, 3, 4, 4, 5, 5]

  lemma BlackBelowStep(r: nat)
    requires r < 12
    ensures BlackBelow[r + 1] == BlackBelow[r] + if BlackStep(r) then 1 else 0
  {
  }

  lemma {:induction false} KeysBlackCount(m: nat)
    ensures BlackCount(Keys(m)) == 5 * (m / 12) + BlackBelow[m % 12]
  {
    if m > 0 {
      KeysBlackCount(m - 1);
      assert Keys(m)[..m - 1] == Keys(m - 1);
      BlackKeyPattern(m - 1);
      BlackBelowStep((m - 1) % 12);
      if (m - 1) % 12 == 11 {
        assert m / 12 == (m - 1) / 12 + 1 && m % 12 == 0;
      } else {
        assert m / 12 == (m - 1) / 12 && m % 12 == (m - 1) % 12 + 1;
      }
    }
  }

  /** Every octave holds five black keys and the closing C is white: n
      octaves have 5n black and 7n + 1 white keys, so the drawn piano has 30
      black and 43 white keys, the 43 columns of the frequency axis. */
  lemma KeyColours(maxOctave: nat)
    ensures BlackCount(Notes(maxOctave)) == 5 * maxOctave
    ensures |Notes(maxOctave)| - BlackCount(Notes(maxOctave)) == 7 * maxOctave + 1
    ensures maxOctave == Octaves ==> |Notes(maxOctave)| - BlackCount(Notes(maxOctave)) == 43
  {
    var notes := Notes(maxOctave);
    var keys := Keys(12 * maxOctave);
    var last := "C" + NatToString(maxOctave + 1);
    assert BlackCount(keys) == 5 * maxOctave by {
      KeysBlackCount(12 * maxOctave);
      assert (12 * maxOctave) / 12 == maxOctave && (12 * maxOctave) % 12 == 0;
    }
    assert !IsBlackKey(last) by {
      var d := NatToString(maxOctave + 1);
      assert '#' !in d;
      assert last == "C" + d;
    }
    assert notes == keys + [last];
    assert notes[..|notes| - 1] == keys && notes[|notes| - 1] == last;
    assert BlackCount(notes) == BlackCount(keys);
  }

  /** Only the C keys carry their name as a label. */
  predicate ShowsLabel(note: string) {
    |note| > 0 && note[0] == 'C' && '#' !in note
  }

  lemma LabelledKeys(k: nat)
    ensures ShowsLabel(NoteName(k)) <==> k % 12 == 0
  {
    BlackKeyPattern(k);
    assert NoteName(k)[0] == NoteNames[k % 12][0];
  }

  // ---------------------------------------------------------------------
  // Key widths

  /** Widths in percent of the row: a white key is `visibleKeys` wide, a
      black key half that, and a black key's negative side margins are half
      its width each. */
  function BlackKeyWidth(visibleKeys: real): real { visibleKeys / 2.0 }
  function BlackKeyMargin(visibleKeys: real): real { BlackKeyWidth(visibleKeys) / 2.0 }

  /** The room a key takes in the row: a black key's two negative margins
      cancel its width. */
  function Footprint(note: string, visibleKeys: real): real {
    if IsBlackKey(note) then BlackKeyWidth(visibleKeys) - 2.0 * BlackKeyMargin(visibleKeys) else visibleKeys
  }

  function RowWidth(notes: seq<string>, visibleKeys: real): real {
    if |notes| == 0 then 0.0
    else RowWidth(notes[..|notes| - 1], visibleKeys) + Footprint(notes[|notes| - 1], visibleKeys)
  }

  /** Black keys overlap their neighbours and take no room: the row is as
      wide as its white keys. */
  lemma {:induction false} RowWidthWhiteKeys(notes: seq<string>, visibleKeys: real)
    ensures RowWidth(notes, visibleKeys) == ((|notes| - BlackCount(notes)) as real) * visibleKeys
  {
    if |notes| > 0 {
      RowWidthWhiteKeys(notes[..|notes| - 1], visibleKeys);
    }
  }

  /** At the initial zoom of 2.3263 the 43 white keys just fill the row
      (100.0309 percent). */
  lemma InitialRowFills()
    ensures RowWidth(Notes(Octaves), InitialVisibleKeys) == 100.0309
  {
    KeyColours(Octaves);
    RowWidthWhiteKeys(Notes(Octaves), InitialVisibleKeys);
  }

  // ---------------------------------------------------------------------
  // Zoom

  const InitialVisibleKeys: real := 2.3263
  const MinVisibleKeys: real := 2.3263
  const MaxVisibleKeys: real := 10.0

  /** handleWheel with Ctrl held: one key narrower when scrolling down, one
      wider otherwise, clamped to [2.3263, 10]; from outside that range (where
      the buttons can leave the zoom) the step lands on the nearer limit. */
  function WheelStep(visibleKeys: real, deltaY: real): (r: real)
    ensures MinVisibleKeys <= r <= MaxVisibleKeys
    ensures var moved := if deltaY > 0.0 then visibleKeys - 1.0 else visibleKeys + 1.0;
      && (MinVisibleKeys <= moved <= MaxVisibleKeys ==> r == moved)
      && (moved < MinVisibleKeys ==> r == MinVisibleKeys)
      && (moved > MaxVisibleKeys ==> r == MaxVisibleKeys)
  {
    var delta := if deltaY > 0.0 then -1.0 else 1.0;
    var next := visibleKeys + delta;
    if next > MaxVisibleKeys then
      (if MinVisibleKeys > MaxVisibleKeys then MinVisibleKeys else MaxVisibleKeys)
    else if MinVisibleKeys > next then MinVisibleKeys else next
  }

  /** Within the wheel's range, scrolling down never widens the keys and
      scrolling up never narrows them. */
  lemma WheelDirection(visibleKeys: real, deltaY: real)
    requires MinVisibleKeys <= visibleKeys <= MaxVisibleKeys
    ensures deltaY > 0.0 ==> WheelStep(visibleKeys, deltaY) <= visibleKeys
    ensures deltaY <= 0.0 ==> WheelStep(visibleKeys, deltaY) >= visibleKeys
  {
  }

  /** n wheel steps in one direction: what one notch does when n wheel
      listeners are attached, each applying its functional update to the
      zoom the previous one left. */
  function WheelSteps(visibleKeys: real, deltaY: real, n: nat): (r: real)
    ensures n == 0 ==> r == visibleKeys
    ensures n > 0 ==> MinVisibleKeys <= r <= MaxVisibleKeys
  {
    if n == 0 then visibleKeys else WheelStep(WheelSteps(visibleKeys, deltaY, n - 1), deltaY)
  }

  /** With room for them, n listeners widen the keys by n keys on one
      notch up, not by one. */
  lemma {:induction false} WheelStepsWiden(visibleKeys: real, n: nat)
    requires MinVisibleKeys <= visibleKeys && visibleKeys + (n as real) <= MaxVisibleKeys
    ensures WheelSteps(visibleKeys, -1.0, n) == visibleKeys + (n as real)
  {
    if n > 0 {
      WheelStepsWiden(visibleKeys, n - 1);
    }
  }

  /** The minus button: disabled at 3 or less, otherwise two keys narrower,
      without a clamp. */
  function MinusClick(visibleKeys: real): real {
    if visibleKeys <= 3.0 then visibleKeys else visibleKeys - 2.0
  }

  /** The plus button: disabled at 10 or more, otherwise two keys wider. */
  function PlusClick(visibleKeys: real): real {
    if visibleKeys >= 10.0 then visibleKeys else visibleKeys + 2.0
  }

  /** The buttons keep the zoom in (1, 12) but not in the wheel's range:
      from 3.3263 the minus button gives 1.3263, below the wheel minimum,
      and from 9.5 the plus button gives 11.5, above its maximum; the next
      wheel step then jumps to the limit. */
  lemma ButtonRange(visibleKeys: real)
    requires 1.0 < visibleKeys < 12.0
    ensures 1.0 < MinusClick(visibleKeys) < 12.0 && 1.0 < PlusClick(visibleKeys) < 12.0
    ensures MinusClick(visibleKeys) <= visibleKeys <= PlusClick(visibleKeys)
    ensures MinusClick(3.3263) == 1.3263 < MinVisibleKeys
    ensures PlusClick(9.5) == 11.5 > MaxVisibleKeys
    ensures WheelStep(MinusClick(3.3263), 1.0) == MinVisibleKeys
    ensures WheelStep(PlusClick(9.5), -1.0) == MaxVisibleKeys
  {
  }

  // ---------------------------------------------------------------------
  // Volume

  /** The piano roll's icon: muted at 0, low for (0, 33], mid for (33, 66],
      high otherwise (negative values included). */
  function PianoVolumeIcon(volume: int): (icon: Controls.VolumeIcon)
    ensures icon == Controls.Muted <==> volume == 0
    ensures icon == Controls.Low <==> 0 < volume <= 33
    ensures icon == Controls.Mid <==> 33 < volume <= 66
    ensures icon == Controls.High <==> volume < 0 || volume > 66
  {
    if volume == 0 then Controls.Muted
    else if volume > 0 && volume <= 33 then Controls.Low
    else if volume > 33 && volume <= 66 then Controls.Mid
    else Controls.High
  }

  /** On the slider's range 0 .. 100 the piano roll and the transport bar
      pick the same icon; they part only on negative volumes. */
  lemma VolumeIconsAgree(volume: int)
    ensures 0 <= volume ==> PianoVolumeIcon(volume) == Controls.ControlsVolumeIcon(volume)
    ensures volume < 0 ==> PianoVolumeIcon(volume) == Controls.High && Controls.ControlsVolumeIcon(volume) == Controls.Low
  {
  }

  // ---------------------------------------------------------------------
  // The component

  /** `notesDictionary[note]` is truthy: the note has a non-zero frequency. */
  predicate Playable(dictionary: map<string, real>, note: string) {
    note in dictionary && dictionary[note] != 0.0
  }

  class PianoRollView {
    var visibleKeys: real
    /** The note held under the pointer while the left button is down. */
    var currentNote: Option<string>
    var volume: int
    /** The gain the oscillators play through: `volume / 100`. */
    var gain: real
    /** The frequencies of the oscillators started, oldest first. */
    var played: seq<real>

    /** A held note is never the empty name. */
    predicate Valid()
      reads this
    {
      currentNote.None? || currentNote.value != ""
    }

    constructor ()
      ensures visibleKeys == InitialVisibleKeys && currentNote == None
      ensures volume == 100 && gain == 1.0 && played == [] && Valid()
    {
      visibleKeys := InitialVisibleKeys;
      currentNote := None;
      volume := 100;
      gain := 1.0;
      played := [];
    }

    /** playNote: start an oscillator at the note's frequency; a note the
        dictionary has no frequency for plays nothing. */
    method PlayNote(note: string, dictionary: map<string, real>)
      modifies this
      ensures played == old(played) + (if Playable(dictionary, note) then [dictionary[note]] else [])
      ensures visibleKeys == old(visibleKeys) && currentNote == old(currentNote)
      ensures volume == old(volume) && gain == old(gain)
    {
      if !(note in dictionary) || dictionary[note] == 0.0 {
        return;
      }
      played := played + [dictionary[note]];
    }

    /** handleMouseDown on the element under the pointer, whose `data-note`
        is `under` (None when it has none). */
    method MouseDown(button: int, under: Option<string>, dictionary: map<string, real>)
      requires Valid()
      modifies this
      ensures Valid()
      ensures button == 0 && under.Some? && under.value != "" ==>
        currentNote == under
        && played == old(played) + (if Playable(dictionary, under.value) then [dictionary[under.value]] else [])
      ensures !(button == 0 && under.Some? && under.value != "") ==>
        currentNote == old(currentNote) && played == old(played)
      ensures visibleKeys == old(visibleKeys) && volume == old(volume) && gain == old(gain)
    {
      if button == 0 {
        if under.Some? && under.value != "" {
          var note := under.value;
          currentNote := Some(note);
          PlayNote(note, dictionary);
        }
      }
    }

    /** handleMouseMove: while a note is held, moving onto another key plays
        it and makes it the held note; anything else changes nothing. */
    method MouseMove(under: Option<string>, dictionary: map<string, real>)
      requires Valid()
      modifies this
      ensures Valid()
      ensures var changes := old(currentNote).Some? && old(currentNote).value != ""
        && under.Some? && under.value != "" && under.value != old(currentNote).value;
        && (changes ==>
              (currentNote == under
               && played == old(played) + (if Playable(dictionary, under.value) then [dictionary[under.value]] else [])))
        && (!changes ==> currentNote == old(currentNote) && played == old(played))
      ensures visibleKeys == old(visibleKeys) && volume == old(volume) && gain == old(gain)
    {
      if currentNote.Some? && currentNote.value != "" {
        if under.Some? && under.value != "" {
          var note := under.value;
          if note != currentNote.value {
            PlayNote(note, dictionary);
            currentNote := Some(note);
          }
        }
      }
    }

    /** handleMouseUp: release the held note. */
    method MouseUp()
      modifies this
      ensures currentNote == None && Valid()
      ensures visibleKeys == old(visibleKeys) && played == old(played)
      ensures volume == old(volume) && gain == old(gain)
    {
      currentNote := None;
    }

    /** handleWheel: only a Ctrl-wheel zooms. */
    method HandleWheel(ctrlKey: bool, deltaY: real)
      modifies this
      ensures visibleKeys == if ctrlKey then WheelStep(old(visibleKeys), deltaY) else old(visibleKeys)
      ensures currentNote == old(currentNote) && played == old(played)
      ensures volume == old(volume) && gain == old(gain)
    {
      if ctrlKey {
        visibleKeys := WheelStep(visibleKeys, deltaY);
      }
    }

    method ClickMinus()
      modifies this
      ensures visibleKeys == MinusClick(old(visibleKeys))
      ensures currentNote == old(currentNote) && played == old(played)
      ensures volume == old(volume) && gain == old(gain)
    {
      if !(visibleKeys <= 3.0) {
        visibleKeys := visibleKeys - 2.0;
      }
    }

    method ClickPlus()
      modifies this
      ensures visibleKeys == PlusClick(old(visibleKeys))
      ensures currentNote == old(currentNote) && played == old(played)
      ensures volume == old(volume) && gain == old(gain)
    {
      if !(visibleKeys >= 10.0) {
        visibleKeys := visibleKeys + 2.0;
      }
    }

    /** handleVolumeChange: the slider value and the matching gain. */
    method HandleVolumeChange(value: int)
      modifies this
      ensures volume == value && gain == (value as real) / 100.0
      ensures 0 <= value <= 100 ==> 0.0 <= gain <= 1.0
      ensures visibleKeys == old(visibleKeys) && currentNote == old(currentNote) && played == old(played)
    {
      volume := value;
      gain := (value as real) / 100.0;
    }
  }

  /** The keyboard's wheel listeners as the enter and leave handlers manage
      them.  Every render makes a new `handleWheel` closure, named here by
      the render's number: entering attaches the current render's closure,
      leaving detaches the current render's closure, which is not the one
      entering attached once the component has re-rendered in between. */
  class WheelListenersAsWritten {
    const view: PianoRollView
    /** The number of the current render. */
    var render: nat
    /** The renders whose closures are attached to the keyboard. */
    var listeners: set<nat>

    constructor (view: PianoRollView)
      ensures this.view == view && render == 0 && listeners == {}
    {
      this.view := view;
      render := 0;
      listeners := {};
    }

    method MouseEnter()
      modifies this
      ensures listeners == old(listeners) + {render} && render == old(render)
    {
      listeners := listeners + {render};
    }

    method MouseLeave()
      modifies this
      ensures listeners == old(listeners) - {render} && render == old(render)
    {
      listeners := listeners - {render};
    }

    /** Any other state change (a held note, the volume) renders again. */
    method Rerender()
      modifies this
      ensures render == old(render) + 1 && listeners == old(listeners)
    {
      render := render + 1;
    }

    /** A wheel event runs every attached closure: under Ctrl each applies
        one wheel step to the zoom the previous one left, and a changed
        zoom renders again. */
    method Wheel(ctrlKey: bool, deltaY: real)
      modifies this, view
      ensures view.visibleKeys ==
        if ctrlKey then WheelSteps(old(view.visibleKeys), deltaY, |old(listeners)|) else old(view.visibleKeys)
      ensures listeners == old(listeners)
      ensures render == if view.visibleKeys != old(view.visibleKeys) then old(render) + 1 else old(render)
      ensures view.currentNote == old(view.currentNote) && view.played == old(view.played)
      ensures view.volume == old(view.volume) && view.gain == old(view.gain)
    {
      var before := view.visibleKeys;
      var n := |listeners|;
      var i := 0;
      while i < n
        invariant 0 <= i <= n
        invariant view.visibleKeys ==
          if ctrlKey then WheelSteps(old(view.visibleKeys), deltaY, i) else old(view.visibleKeys)
        invariant view.currentNote == old(view.currentNote) && view.played == old(view.played)
        invariant view.volume == old(view.volume) && view.gain == old(view.gain)
        invariant listeners == old(listeners) && render == old(render)
      {
        view.HandleWheel(ctrlKey, deltaY);
        i := i + 1;
      }
      if view.visibleKeys != before {
        render := render + 1;
      }
    }
  }

  /** The same lifecycle with one closure that survives renders (made once,
      with `useCallback` or inside an effect): leaving detaches exactly what
      entering attached, so a notch is always one wheel step. */
  class WheelListener {
    const view: PianoRollView
    var attached: bool

    constructor (view: PianoRollView)
      ensures this.view == view && !attached
    {
      this.view := view;
      attached := false;
    }

    method MouseEnter()
      modifies this
      ensures attached
    {
      attached := true;
    }

    method MouseLeave()
      modifies this
      ensures !attached
    {
      attached := false;
    }

    method Wheel(ctrlKey: bool, deltaY: real)
      modifies view
      ensures view.visibleKeys ==
        if ctrlKey && attached then WheelStep(old(view.visibleKeys), deltaY) else old(view.visibleKeys)
      ensures view.currentNote == old(view.currentNote) && view.played == old(view.played)
      ensures view.volume == old(view.volume) && view.gain == old(view.gain)
    {
      if attached {
        view.HandleWheel(ctrlKey, deltaY);
      }
    }
  }

  /** Enter the keyboard, zoom in one notch, leave, enter again and zoom in
      one more notch: as written the second notch runs two closures and
      widens by two keys (3.3263 to 5.3263); with one surviving closure it
      widens by one (to 4.3263). */
  method ReenterAfterZoom() returns (asWritten: real, corrected: real)
    ensures asWritten == 5.3263 && corrected == 4.3263
  {
    var view := new PianoRollView();
    var wheel := new WheelListenersAsWritten(view);
    wheel.MouseEnter();
    wheel.Wheel(true, -1.0);
    wheel.MouseLeave();
    wheel.MouseEnter();
    wheel.Wheel(true, -1.0);
    asWritten := view.visibleKeys;

    var fixedView := new PianoRollView();
    var fixedWheel := new WheelListener(fixedView);
    fixedWheel.MouseEnter();
    fixedWheel.Wheel(true, -1.0);
    fixedWheel.MouseLeave();
    fixedWheel.MouseEnter();
    fixedWheel.Wheel(true, -1.0);
    corrected := fixedView.visibleKeys;
  }
}
