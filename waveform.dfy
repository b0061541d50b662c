/** The waveform timeline: the envelope drawn for the loaded song, the
    zoomable time axis with its grid, the red seeker that follows playback
    and can be clicked or dragged, and the list of user markers with their
    notes popover. */
module WaveForm {
  import opened Numbers
  import opened Optional
  import opened Text
  import opened Store
  import opened Audio
  import opened Envelope

  /** Number of envelope columns drawn for a whole song. */
  const WaveformChunks: nat := 300

  const InitialZoom: real := 0.985
  const MinZoom: real := 0.5
  const MaxZoom: real := 4.0
  const ZoomFactor: real := 1.05

  /** The stage may be dragged right by at most this many pixels. */
  const StageMaxX: real := 18.0

  /** A marker: where the seeker was drawn when it was added, its notes and
      the playback time it marks. */
  datatype Marker = Marker(marker: real, notes: string, timestamp: real)

  // ---------------------------------------------------------------------
  // Zoom

  function Clamp(lo: real, hi: real, x: real): real {
    if x < lo then lo else if x > hi then hi else x
  }

  /** One wheel step: scrolling down divides the zoom by 1.05, scrolling up
      multiplies it, and the result is kept in [0.5, 4]: a step that would
      leave the range stops exactly at the limit it crosses. */
  function ZoomStep(zoom: real, deltaY: real): (z: real)
    ensures MinZoom <= z <= MaxZoom
    ensures var scaled := if deltaY > 0.0 then zoom / ZoomFactor else zoom * ZoomFactor;
      && (scaled < MinZoom ==> z == MinZoom)
      && (scaled > MaxZoom ==> z == MaxZoom)
      && (MinZoom <= scaled <= MaxZoom ==> z == scaled)
  {
    var scaled := if deltaY > 0.0 then zoom / ZoomFactor else zoom * ZoomFactor;
    Clamp(MinZoom, MaxZoom, scaled)
  }

  /** From a zoom in range, zooming out never enlarges and zooming in never
      shrinks the timeline; away from the limits the step is exactly 1.05. */
  lemma ZoomStepDirection(zoom: real, deltaY: real)
    requires MinZoom <= zoom <= MaxZoom
    ensures deltaY > 0.0 ==> ZoomStep(zoom, deltaY) <= zoom
    ensures deltaY <= 0.0 ==> ZoomStep(zoom, deltaY) >= zoom
    ensures deltaY > 0.0 && zoom / ZoomFactor >= MinZoom ==> ZoomStep(zoom, deltaY) * ZoomFactor == zoom
    ensures deltaY <= 0.0 && zoom * ZoomFactor <= MaxZoom ==> ZoomStep(zoom, deltaY) == zoom * ZoomFactor
  {
  }

  // ---------------------------------------------------------------------
  // Time <-> pixel

  /** The seeker's x for playback time t: `t / duration * (width * zoom)`,
      with a NaN or infinite result (duration 0) replaced by 0. */
  function SeekerX(t: real, duration: real, width: real, zoom: real): (x: real)
    ensures duration != 0.0 ==> x == t / duration * (width * zoom)
    ensures duration == 0.0 ==> x == 0.0
  {
    var p := Mul(Div(Fin(t), Fin(duration)), Fin(width * zoom));
    if p.Fin? then p.v else 0.0
  }

  /** The time a click at x asks for: `x / (width * zoom) * duration`.  On a
      zero-width timeline the quotient is not finite. */
  function ClickTime(x: real, width: real, zoom: real, duration: real): (t: Num)
    ensures width * zoom != 0.0 ==> t == Fin(x / (width * zoom) * duration)
    ensures width * zoom == 0.0 ==> !t.Fin?
  {
    Mul(Div(Fin(x), Fin(width * zoom)), Fin(duration))
  }

  /** Clicking where the seeker is drawn for time t seeks back to t. */
  lemma ClickInvertsSeeker(t: real, duration: real, width: real, zoom: real)
    requires duration != 0.0 && width * zoom != 0.0
    ensures ClickTime(SeekerX(t, duration, width, zoom), width, zoom, duration) == Fin(t)
  {
    var sw := width * zoom;
    var x := t / duration * sw;
    assert x / sw == t / duration;
    assert t / duration * duration == t;
  }

  /** Seeking by a click at x draws the seeker back at x. */
  lemma SeekerInvertsClick(x: real, duration: real, width: real, zoom: real)
    requires duration != 0.0 && width * zoom != 0.0
    ensures var t := ClickTime(x, width, zoom, duration);
      t.Fin? && SeekerX(t.v, duration, width, zoom) == x
  {
    var sw := width * zoom;
    var t := x / sw * duration;
    assert t / duration == x / sw;
    assert x / sw * sw == x;
  }

  /** The dragged seeker's x: `Math.max(0, Math.min(x, width * zoom))`.  A
      drag left of the timeline stops at 0, one past its end at the end. */
  function DragX(x: real, scaledWidth: real): (r: real)
    ensures r >= 0.0
    ensures scaledWidth >= 0.0 ==> r <= scaledWidth
    ensures 0.0 <= x <= scaledWidth ==> r == x
    ensures x < 0.0 || scaledWidth < 0.0 ==> r == 0.0
    ensures 0.0 <= scaledWidth < x ==> r == scaledWidth
  {
    var inner := if x <= scaledWidth then x else scaledWidth;
    if inner >= 0.0 then inner else 0.0
  }
  /** While playback stays within the song, the seeker stays on the
      timeline, between its start and its scaled end. */
  lemma SeekerOnTimeline(t: real, duration: real, width: real, zoom: real)
    requires 0.0 <= t <= duration && duration > 0.0 && width * zoom >= 0.0
    ensures 0.0 <= SeekerX(t, duration, width, zoom) <= width * zoom
  {
    var sw := width * zoom;
    var p := t / duration;
    FractionBounds(t, duration);
    ScaleLe(0.0, p, sw);
    ScaleLe(p, 1.0, sw);
  }


  /** The time a drag to x asks for. */
  function DragTime(x: real, width: real, zoom: real, duration: real): Num {
    ClickTime(DragX(x, width * zoom), width, zoom, duration)
  }

  /** On a timeline of positive width, a drag anywhere asks for a time in
      [0, duration]; on a zero-width one the time is NaN and is refused. */
  lemma DragTimeInRange(x: real, width: real, zoom: real, duration: real)
    requires duration >= 0.0
    ensures width * zoom > 0.0 ==>
      var t := DragTime(x, width, zoom, duration);
      t.Fin? && 0.0 <= t.v <= duration
    ensures width * zoom == 0.0 ==> DragTime(x, width, zoom, duration).NaN?
  {
    var sw := width * zoom;
    var px := DragX(x, sw);
    if sw > 0.0 {
      var p := px / sw;
      FractionBounds(px, sw);
      assert 0.0 <= p * duration <= duration by {
        ScaleLe(0.0, p, duration);
        ScaleLe(p, 1.0, duration);
      }
      assert DragTime(x, width, zoom, duration) == Fin(p * duration);
    } else if sw == 0.0 {
      assert px == 0.0;
      assert Div(Fin(px), Fin(sw)).NaN?;
    }
  }

  /** The stage's drag bound: x at most 18 pixels, y pinned to 0. */
  function DragBound(x: real, y: real): (p: (real, real))
    ensures p.0 <= StageMaxX && p.1 == 0.0
    ensures x <= StageMaxX ==> p.0 == x
    ensures x > StageMaxX ==> p.0 == StageMaxX
  {
    (if x <= StageMaxX then x else StageMaxX, 0.0)
  }

  /** Applying the bound twice changes nothing more. */
  lemma DragBoundIdempotent(x: real, y: real)
    ensures var p := DragBound(x, y); DragBound(p.0, p.1) == p
  {
  }

  /** Where a marker is drawn: `timestamp / audio.duration * width * zoom`,
      with no replacement of a non-finite result. */
  function MarkerX(timestamp: real, duration: Num, width: real, zoom: real): Num {
    Mul(Mul(Div(Fin(timestamp), duration), Fin(width)), Fin(zoom))
  }

  /** Once the element's duration is the song's (non-zero) duration, a
      marker is drawn exactly where the seeker stands at its timestamp; before
      the metadata has loaded (duration NaN) it has no position. */
  lemma MarkerAtSeeker(timestamp: real, duration: real, width: real, zoom: real)
    ensures duration != 0.0 ==>
      MarkerX(timestamp, Fin(duration), width, zoom) == Fin(SeekerX(timestamp, duration, width, zoom))
    ensures MarkerX(timestamp, NaN, width, zoom).NaN?
  {
    if duration != 0.0 {
      var q := timestamp / duration;
      assert q * width * zoom == q * (width * zoom);
    }
  }

  // ---------------------------------------------------------------------
  // Marker list

  /** `markers.filter(m => m.marker !== position)`. */
  function WithoutPosition(ms: seq<Marker>, position: real): (r: seq<Marker>)
    ensures |r| <= |ms|
    ensures forall m :: m in r <==> m in ms && m.marker != position
  {
    if |ms| == 0 then []
    else
      var last := ms[|ms| - 1];
      WithoutPosition(ms[..|ms| - 1], position) + (if last.marker != position then [last] else [])
  }

  /** Filtering distributes over concatenation, so the kept markers stay in
      their original order. */
  lemma {:induction false} WithoutPositionAppend(a: seq<Marker>, b: seq<Marker>, position: real)
    ensures WithoutPosition(a + b, position) == WithoutPosition(a, position) + WithoutPosition(b, position)
    decreases |b|
  {
    if |b| > 0 {
      assert (a + b)[..|a + b| - 1] == a + b[..|b| - 1];
      WithoutPositionAppend(a, b[..|b| - 1], position);
    } else {
      assert a + b == a;
    }
  }

  /** Removing a position twice is removing it once, and a list without that
      position is left as it is. */
  lemma {:induction false} WithoutPositionIdempotent(ms: seq<Marker>, position: real)
    ensures WithoutPosition(WithoutPosition(ms, position), position) == WithoutPosition(ms, position)
  {
    WithoutPositionAbsent(WithoutPosition(ms, position), position);
  }

  lemma {:induction false} WithoutPositionAbsent(ms: seq<Marker>, position: real)
    requires forall k :: 0 <= k < |ms| ==> ms[k].marker != position
    ensures WithoutPosition(ms, position) == ms
  {
    if |ms| > 0 {
      var init, last := ms[..|ms| - 1], ms[|ms| - 1];
      assert forall k :: 0 <= k < |init| ==> init[k].marker != position;
      WithoutPositionAbsent(init, position);
      assert WithoutPosition(ms, position) == WithoutPosition(init, position) + [last];
      assert init + [last] == ms;
    }
  }

  /** `markers.findIndex(m => m.marker === position)`, None for -1. */
  function FindPosition(ms: seq<Marker>, position: real): (r: Option<nat>)
    ensures r.Some? ==> (r.value < |ms| && ms[r.value].marker == position
      && forall k :: 0 <= k < r.value ==> ms[k].marker != position)
    ensures r.None? ==> forall k :: 0 <= k < |ms| ==> ms[k].marker != position
  {
    if |ms| == 0 then None
    else if ms[0].marker == position then Some(0)
    else match FindPosition(ms[1..], position)
      case None => None
      case Some(i) => Some(i + 1)
  }

  /** The Save button: the first marker at the edited marker's position is
      replaced by it; with no such marker the list is unchanged. */
  function SaveEdited(ms: seq<Marker>, edited: Marker): seq<Marker> {
    match FindPosition(ms, edited.marker)
    case None => ms
    case Some(i) => ms[i := edited]
  }

  /** Saving keeps the length and every marker's position, replaces exactly
      the first marker at the edited position and no other. */
  lemma SaveReplacesFirst(ms: seq<Marker>, edited: Marker)
    ensures var r := SaveEdited(ms, edited);
      && |r| == |ms|
      && (forall k :: 0 <= k < |ms| ==> r[k].marker == ms[k].marker)
      && ((forall k :: 0 <= k < |ms| ==> ms[k].marker != edited.marker) ==> r == ms)
      && forall i :: 0 <= i < |ms| && ms[i].marker == edited.marker
                     && (forall k :: 0 <= k < i ==> ms[k].marker != edited.marker) ==>
           r[i] == edited && forall k :: 0 <= k < |ms| && k != i ==> r[k] == ms[k]
  {
    match FindPosition(ms, edited.marker)
    case None =>
    case Some(j) =>
      forall i | 0 <= i < |ms| && ms[i].marker == edited.marker
                 && (forall k :: 0 <= k < i ==> ms[k].marker != edited.marker)
        ensures i == j
      {
      }
  }

  /** Editing the notes of the i-th marker and saving changes only that
      marker's notes, provided no earlier marker shares its position. */
  lemma EditThenSave(ms: seq<Marker>, i: nat, text: string)
    requires i < |ms|
    requires forall k :: 0 <= k < i ==> ms[k].marker != ms[i].marker
    ensures SaveEdited(ms, ms[i].(notes := text)) == ms[i := ms[i].(notes := text)]
  {
    SaveReplacesFirst(ms, ms[i].(notes := text));
  }

  // ---------------------------------------------------------------------
  // Grid

  /** One grid line: its second, its x, the length of its top and bottom
      segments, and its `mm:ss` label when it is an emphasised second. */
  datatype GridTick = GridTick(second: nat, x: real, length: nat, caption: Option<string>)

  /** Seconds between labels: 5 below 30 s, 10 below 2 min, 30 otherwise. */
  function Emphasis(duration: real): (e: nat)
    ensures e > 0 && e % 5 == 0
  {
    if duration < 30.0 then 5 else if duration < 120.0 then 10 else 30
  }

  /** `String(Math.floor(i / 60)).padStart(2, "0") + ":" + String(i % 60).padStart(2, "0")`. */
  function GridLabel(i: nat): string {
    Pad2(i / 60) + ":" + Pad2(i % 60)
  }

  function Tick(i: nat, duration: real, width: real): GridTick
    requires duration > 0.0
  {
    GridTick(i, (i as real) / duration * width,
             if i % 5 == 0 then 25 else 10,
             if i % Emphasis(duration) == 0 then Some(GridLabel(i)) else None)
  }

  /** renderGrid: nothing for a duration <= 0; otherwise one tick for every
      whole second 0, 1, ..., floor(duration). */
  method RenderGrid(duration: real, width: real) returns (ticks: seq<GridTick>)
    ensures duration <= 0.0 ==> ticks == []
    ensures duration > 0.0 ==> (|ticks| == duration.Floor + 1
      && forall k :: 0 <= k < |ticks| ==> ticks[k] == Tick(k, duration, width))
  {
    ticks := [];
    if duration <= 0.0 {
      return;
    }
    var i: nat := 0;
    while (i as real) <= duration
      invariant i <= duration.Floor + 1
      invariant |ticks| == i
      invariant forall k :: 0 <= k < i ==> ticks[k] == Tick(k, duration, width)
      decreases duration.Floor + 1 - i
    {
      ticks := ticks + [Tick(i, duration, width)];
      i := i + 1;
    }
  }

  /** A grid label reads back as its second. */
  lemma GridLabelReadsBack(i: nat)
    ensures var r := ReadClock(GridLabel(i));
      r.Some? && r.value == i
  {
    Pad2Parses(i / 60);
    Pad2Parses(i % 60);
    ReadClock2(Pad2(i / 60), Pad2(i % 60));
  }

  /** Labels appear exactly on multiples of the emphasis, ticks are long
      exactly on multiples of 5, so every labelled tick is a long one. */
  lemma GridTickShape(i: nat, duration: real, width: real)
    requires duration > 0.0
    ensures var t := Tick(i, duration, width);
      && t.second == i
      && (t.caption.Some? <==> i % Emphasis(duration) == 0)
      && (t.caption.Some? ==> t.caption.value == GridLabel(i) && t.length == 25)
      && (t.length == 25 <==> i % 5 == 0)
      && (t.length == 10 <==> i % 5 != 0)
  {
    var e := Emphasis(duration);
    if i % e == 0 {
      MultipleOfFive(i, e);
    }
  }

  lemma MultipleOfFive(i: nat, e: nat)
    requires e == 5 || e == 10 || e == 30
    requires i % e == 0
    ensures i % 5 == 0
  {
    var q := i / e;
    if e == 5 {
    } else if e == 10 {
      assert i == 10 * q;
      TimesFive(2 * q);
    } else {
      assert i == 30 * q;
      TimesFive(6 * q);
    }
  }

  lemma TimesFive(k: nat)
    ensures (5 * k) % 5 == 0
  {
  }

  /** The lines of the seconds up to the duration lie across [0, width], left
      to right. */
  lemma GridTickPositions(i: nat, j: nat, duration: real, width: real)
    requires duration > 0.0 && (i as real) <= duration
    ensures width >= 0.0 ==> 0.0 <= Tick(i, duration, width).x <= width
    ensures width > 0.0 && i < j ==> Tick(i, duration, width).x < Tick(j, duration, width).x
  {
    TickXAt(i, duration, width);
    if width >= 0.0 {
      ScaledWithin(i as real, duration, width);
    }
    if width > 0.0 && i < j {
      TickXAt(j, duration, width);
      ScaledOrdered(i as real, j as real, duration, width);
    }
  }

  lemma TickXAt(i: nat, duration: real, width: real)
    requires duration > 0.0
    ensures Tick(i, duration, width).x == (i as real) / duration * width
  {
  }

  lemma ScaledWithin(a: real, d: real, w: real)
    requires d > 0.0 && 0.0 <= a <= d && w >= 0.0
    ensures 0.0 <= a / d * w <= w
  {
    FractionBounds(a, d);
    ScaleLe(0.0, a / d, w);
    ScaleLe(a / d, 1.0, w);
  }

  lemma ScaledOrdered(a: real, b: real, d: real, w: real)
    requires d > 0.0 && a < b && w > 0.0
    ensures a / d * w < b / d * w
  {
    FractionLt(a, b, d);
    ScaleLt(a / d, b / d, w);
  }

  lemma FractionBounds(a: real, d: real)
    requires d > 0.0 && 0.0 <= a <= d
    ensures 0.0 <= a / d <= 1.0
  {
  }

  lemma FractionLt(a: real, b: real, d: real)
    requires d > 0.0 && a < b
    ensures a / d < b / d
  {
  }

  /** A positive width at a positive zoom is a positive timeline. */
  lemma PositiveScale(width: real, zoom: real)
    requires width > 0.0 && zoom > 0.0
    ensures width * zoom > 0.0
  {
  }

  lemma ScaleLe(p: real, q: real, w: real)
    requires p <= q && w >= 0.0
    ensures p * w <= q * w
  {
  }

  lemma ScaleLt(p: real, q: real, w: real)
    requires p < q && w > 0.0
    ensures p * w < q * w
  {
  }

  // ---------------------------------------------------------------------
  // Timestamp of the current marker

  /** The hours, minutes and seconds fields of the popover's timestamp:
      `Math.floor(t / 3600)`, `Math.floor((t % 3600) / 60)` and
      `Math.floor(t % 60)`, which for a non-negative time are the hours, the
      minutes within the hour and the seconds within the minute of its
      whole seconds. */
  function TimestampFields(timestamp: real): (f: (nat, nat, nat))
    requires timestamp >= 0.0
    ensures var n := timestamp.Floor;
      f.0 == n / 3600 && f.1 == (n % 3600) / 60 && f.2 == n % 60
    ensures f.1 < 60 && f.2 < 60
  {
    FloorBy3600(timestamp);
    FloorBy60(JsRem(timestamp, 3600.0));
    FloorBy60(timestamp);
    ((timestamp / 3600.0).Floor, (JsRem(timestamp, 3600.0) / 60.0).Floor, JsRem(timestamp, 60.0).Floor)
  }

  /** The marker popover's timestamp: `h:mm:ss` with unpadded hours when at
      least an hour in, `mm:ss` otherwise.  Playback times are never negative. */
  function TimestampText(timestamp: real): string
    requires timestamp >= 0.0
  {
    var (hours, minutes, seconds) := TimestampFields(timestamp);
    if hours > 0 then NatToString(hours) + ":" + Pad2(minutes) + ":" + Pad2(seconds)
    else Pad2(minutes) + ":" + Pad2(seconds)
  }

  /** The timestamp text reads back as the whole seconds of the timestamp. */
  lemma TimestampReadsBack(timestamp: real)
    requires timestamp >= 0.0
    ensures var r := ReadClock(TimestampText(timestamp));
      r.Some? && r.value == timestamp.Floor
  {
    var n := timestamp.Floor;
    var (h, m, s) := TimestampFields(timestamp);
    Pad2Parses(m);
    Pad2Parses(s);
    assert n == h * 3600 + m * 60 + s by { ClockSplit(n); }
    if h > 0 {
      ReadClock3(NatToString(h), Pad2(m), Pad2(s));
      ParseNatToString(h);
    } else {
      ReadClock2(Pad2(m), Pad2(s));
    }
  }

  lemma ClockSplit(n: nat)
    ensures n == (n / 3600) * 3600 + ((n % 3600) / 60) * 60 + n % 60
  {
    var r := n % 3600;
    assert n == (n / 3600) * 3600 + r;
    assert r == (r / 60) * 60 + r % 60;
    var q := n / 3600;
    assert n % 60 == r % 60 by {
      assert n == (q * 60 + r / 60) * 60 + r % 60;
      DivUnique(n, 60, q * 60 + r / 60);
    }
  }

  // ---------------------------------------------------------------------
  // The component

  /** What `decodeAudioData` yields: channel 0's samples and the duration. */
  datatype DecodedAudio = DecodedAudio(channel: array<real>, duration: real)

  class WaveformView {
    const audio: AudioElement
    /** Measured width of the stage in pixels (0 before the first measure). */
    var width: real
    var zoom: real
    var songDuration: real
    var waveform: seq<MinMax>
    var seekerX: real
    var markers: seq<Marker>
    var currentMarker: Option<Marker>
    /** Whether the notes popover is open. */
    var open: bool

    /** The zoom never leaves [0.5, 4]. */
    predicate Valid()
      reads this
    {
      MinZoom <= zoom <= MaxZoom
    }

    constructor (audio: AudioElement, width: real)
      ensures this.audio == audio && this.width == width
      ensures zoom == InitialZoom && songDuration == 0.0 && waveform == [] && seekerX == 0.0
      ensures markers == [] && currentMarker == None && !open
      ensures Valid()
    {
      this.audio := audio;
      this.width := width;
      zoom := InitialZoom;
      songDuration := 0.0;
      waveform := [];
      seekerX := 0.0;
      markers := [];
      currentMarker := None;
      open := false;
    }

    /** handleFileChange: the element loads the file; then, once the file
        has been decoded, the envelope becomes the 300-column reduction of
        channel 0, the duration the decoded duration, and the markers are
        cleared.  When decoding fails (`decoded` is None) the awaited
        construction rejects before any of that, so the old song's envelope,
        duration and markers stay although the element holds the new file. */
    method HandleFileChange(file: SongFile, decoded: Option<DecodedAudio>)
      modifies this, audio
      ensures audio.src == Some(file) && audio.paused && audio.currentTime == 0.0
      ensures audio.duration == NaN && audio.playbackRate == 1.0
      ensures audio.loop == old(audio.loop) && audio.volume == old(audio.volume)
      ensures decoded.Some? ==>
        && waveform == EnvelopeOf(decoded.value.channel[..], WaveformChunks)
        && |waveform| == WaveformChunks
        && songDuration == decoded.value.duration && markers == []
      ensures decoded.None? ==>
        waveform == old(waveform) && songDuration == old(songDuration) && markers == old(markers)
      ensures zoom == old(zoom) && width == old(width) && seekerX == old(seekerX)
      ensures currentMarker == old(currentMarker) && open == old(open)
    {
      audio.Load(file);
      if decoded.Some? {
        waveform := Reduce(decoded.value.channel, WaveformChunks);
        songDuration := decoded.value.duration;
        markers := [];
      }
    }

    /** handleZoom. */
    method HandleZoom(deltaY: real)
      modifies this
      ensures zoom == ZoomStep(old(zoom), deltaY) && Valid()
      ensures width == old(width) && songDuration == old(songDuration) && waveform == old(waveform)
      ensures seekerX == old(seekerX) && markers == old(markers)
      ensures currentMarker == old(currentMarker) && open == old(open)
    {
      zoom := ZoomStep(zoom, deltaY);
    }

    /** One tick of the seeker sync loop: skipped while the width is 0.
        With the zoom in range and playback inside the song, the seeker is
        drawn on the timeline. */
    method Sync()
      requires Valid()
      modifies this
      ensures Valid()
      ensures width != 0.0 ==> seekerX == SeekerX(audio.currentTime, songDuration, width, zoom)
      ensures width == 0.0 ==> seekerX == old(seekerX)
      ensures width > 0.0 && songDuration > 0.0 && 0.0 <= audio.currentTime <= songDuration ==>
        0.0 <= seekerX <= width * zoom
      ensures width == old(width) && zoom == old(zoom) && songDuration == old(songDuration)
      ensures waveform == old(waveform) && markers == old(markers)
      ensures currentMarker == old(currentMarker) && open == old(open)
    {
      if width != 0.0 {
        seekerX := SeekerX(audio.currentTime, songDuration, width, zoom);
        if width > 0.0 && songDuration > 0.0 && 0.0 <= audio.currentTime <= songDuration {
          PositiveScale(width, zoom);
          SeekerOnTimeline(audio.currentTime, songDuration, width, zoom);
        }
      }
    }

    /** A click on the timeline at x seeks to the matching time.  On a
        measured timeline with the zoom in range the time is always finite,
        and the next sync draws the seeker back at x. */
    method Click(x: real)
      requires Valid()
      modifies audio
      ensures var t := ClickTime(x, width, zoom, songDuration);
        audio.currentTime == (if t.Fin? then t.v else old(audio.currentTime))
      ensures width > 0.0 && songDuration != 0.0 ==>
        SeekerX(audio.currentTime, songDuration, width, zoom) == x
      ensures audio.duration == old(audio.duration) && audio.paused == old(audio.paused)
      ensures audio.loop == old(audio.loop) && audio.src == old(audio.src)
      ensures audio.volume == old(audio.volume) && audio.playbackRate == old(audio.playbackRate)
    {
      audio.Seek(ClickTime(x, width, zoom, songDuration));
      if width > 0.0 && songDuration != 0.0 {
        PositiveScale(width, zoom);
        SeekerInvertsClick(x, songDuration, width, zoom);
      }
    }

    /** Dragging the seeker to x: it is clamped to the timeline and playback
        seeks to the matching time, which on a measured timeline with the
        zoom in range always lies inside the song. */
    method DragMove(x: real)
      requires Valid()
      modifies this, audio
      ensures Valid()
      ensures seekerX == DragX(x, width * zoom)
      ensures var t := DragTime(x, width, zoom, songDuration);
        audio.currentTime == (if t.Fin? then t.v else old(audio.currentTime))
      ensures width > 0.0 && songDuration >= 0.0 ==>
        0.0 <= seekerX <= width * zoom && 0.0 <= audio.currentTime <= songDuration
      ensures audio.duration == old(audio.duration) && audio.paused == old(audio.paused)
      ensures audio.loop == old(audio.loop) && audio.src == old(audio.src)
      ensures audio.volume == old(audio.volume) && audio.playbackRate == old(audio.playbackRate)
      ensures width == old(width) && zoom == old(zoom) && songDuration == old(songDuration)
      ensures waveform == old(waveform) && markers == old(markers)
      ensures currentMarker == old(currentMarker) && open == old(open)
    {
      seekerX := DragX(x, width * zoom);
      audio.Seek(DragTime(x, width, zoom, songDuration));
      if width > 0.0 && songDuration >= 0.0 {
        PositiveScale(width, zoom);
        DragTimeInRange(x, width, zoom, songDuration);
      }
    }

    /** A double click on the seeker rewinds to 0. */
    method DoubleClick()
      modifies audio
      ensures audio.currentTime == 0.0
      ensures audio.duration == old(audio.duration) && audio.paused == old(audio.paused)
      ensures audio.loop == old(audio.loop) && audio.src == old(audio.src)
      ensures audio.volume == old(audio.volume) && audio.playbackRate == old(audio.playbackRate)
    {
      audio.Seek(Fin(0.0));
    }

    /** addMarker (the "M" key): one marker at the seeker, with empty notes
        and the current playback time, appended after the others. */
    method AddMarker()
      modifies this
      ensures markers == old(markers) + [Marker(seekerX, "", audio.currentTime)]
      ensures width == old(width) && zoom == old(zoom) && songDuration == old(songDuration)
      ensures waveform == old(waveform) && seekerX == old(seekerX)
      ensures currentMarker == old(currentMarker) && open == old(open)
    {
      markers := markers + [Marker(seekerX, "", audio.currentTime)];
    }

    /** removeMarker: every marker at the target's position goes, the popover
        closes and nothing is selected. */
    method RemoveMarker(target: Marker)
      modifies this
      ensures markers == WithoutPosition(old(markers), target.marker)
      ensures currentMarker == None && !open
      ensures width == old(width) && zoom == old(zoom) && songDuration == old(songDuration)
      ensures waveform == old(waveform) && seekerX == old(seekerX)
    {
      markers := WithoutPosition(markers, target.marker);
      open := false;
      currentMarker := None;
    }

    /** handleMarkerClick: selects the marker, and opens the popover once its
        trigger button is mounted. */
    method MarkerClick(m: Marker, buttonMounted: bool)
      modifies this
      ensures currentMarker == Some(m)
      ensures open == (buttonMounted || old(open))
      ensures markers == old(markers) && width == old(width) && zoom == old(zoom)
      ensures songDuration == old(songDuration) && waveform == old(waveform) && seekerX == old(seekerX)
    {
      currentMarker := Some(m);
      if buttonMounted {
        open := true;
      }
    }

    /** Typing in the notes box edits the selected marker's copy only. */
    method EditNotes(text: string)
      modifies this
      ensures currentMarker == (if old(currentMarker).Some? then Some(old(currentMarker).value.(notes := text)) else None)
      ensures markers == old(markers) && open == old(open) && width == old(width) && zoom == old(zoom)
      ensures songDuration == old(songDuration) && waveform == old(waveform) && seekerX == old(seekerX)
    {
      if currentMarker.Some? {
        currentMarker := Some(currentMarker.value.(notes := text));
      }
    }

    /** Cancel: closes the popover and drops the edited copy. */
    method Cancel()
      modifies this
      ensures currentMarker == None && !open
      ensures markers == old(markers) && width == old(width) && zoom == old(zoom)
      ensures songDuration == old(songDuration) && waveform == old(waveform) && seekerX == old(seekerX)
    {
      open := false;
      currentMarker := None;
    }

    /** Save: with a selected marker, writes it back over the first marker at
        its position and closes the popover; with none, does nothing. */
    method Save()
      modifies this
      ensures old(currentMarker).Some? ==>
        markers == SaveEdited(old(markers), old(currentMarker).value) && currentMarker == None && !open
      ensures old(currentMarker).None? ==> markers == old(markers) && open == old(open) && currentMarker == None
      ensures width == old(width) && zoom == old(zoom)
      ensures songDuration == old(songDuration) && waveform == old(waveform) && seekerX == old(seekerX)
    {
      if currentMarker.Some? {
        markers := SaveEdited(markers, currentMarker.value);
        open := false;
        currentMarker := None;
      }
    }
  }
}
