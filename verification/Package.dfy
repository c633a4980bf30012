/**
 * A group from arrival to segment: measured and stored as received
 * (storedGroup, internal/hls/feed.go), and packaged from its stored bytes when a viewer asks
 * (fragment, internal/hls/stream_handler.go; Fragment and frameGaps, internal/cmaf/cmaf.go).
 */
module Package {
  import opened Prelude
  import opened Varint
  import opened Frames
  import opened Loc

  /** Units per second of the track's timeline, and the longest plausible gap between two frames. */
  const TIMESCALE := 1_000_000
  const MAX_SAMPLE_DURATION := 10 * TIMESCALE

  predicate AllLoc(frames: seq<Frame>) {
    forall i :: 0 <= i < |frames| ==> DecodeLoc(frames[i].body).Ok?
  }

  function MediaOf(frames: seq<Frame>): seq<Media>
    requires AllLoc(frames)
  {
    seq(|frames|, i requires 0 <= i < |frames| => DecodeLoc(frames[i].body).value)
  }

  predicate Advances(ms: seq<Media>) {
    forall i :: 0 < i < |ms| ==> ms[i - 1].timestamp < ms[i].timestamp
  }

  function Span(ms: seq<Media>): int
    requires |ms| > 0
  {
    ms[|ms| - 1].timestamp - ms[0].timestamp
  }

  // ----- storing -----

  datatype Stored = Stored(payload: seq<byte>, duration: int)

  /** The mean frame interval, as the 32-bit conversion leaves it. */
  function MeanInterval(ms: seq<Media>): int
    requires |ms| > 1
  {
    Span(ms) / (|ms| - 1) % 0x1_0000_0000
  }

  function Store(raw: seq<Frame>): Result<Stored> {
    if |raw| < 2 || !AllLoc(raw) || !Advances(MediaOf(raw)) then Err
    else
      match EncodeFrom(raw, 0)
      case Err => Err
      case Ok(payload) => Ok(Stored(payload, Span(MediaOf(raw)) + MeanInterval(MediaOf(raw))))
  }

  method StoredGroup(raw: seq<Frame>) returns (r: Result<Stored>)
    ensures r == Store(raw)
  {
    hide EncodeFrom, DecodeLoc;
    if |raw| < 2 {
      return Err;
    }
    var first: int, prev: int := 0, 0;
    for i := 0 to |raw|
      invariant AllLoc(raw[..i]) && Advances(MediaOf(raw[..i]))
      invariant i > 0 ==> first == MediaOf(raw[..i])[0].timestamp && prev == MediaOf(raw[..i])[i - 1].timestamp
    {
      var m := DecodeLoc(raw[i].body);
      assert raw[..i + 1] == raw[..i] + [raw[i]];
      if m.Err? {
        return Err;
      }
      var ts := m.value.timestamp;
      if i == 0 {
        first := ts;
      } else if ts <= prev {
        assert AllLoc(raw) ==> MediaOf(raw)[i - 1].timestamp == prev && MediaOf(raw)[i].timestamp == ts;
        return Err;
      }
      assert MediaOf(raw[..i + 1]) == MediaOf(raw[..i]) + [m.value];
      prev := ts;
    }
    assert raw[..|raw|] == raw;
    var span := prev - first;
    Rising(MediaOf(raw), 0, |raw| - 1);
    var last := span / (|raw| - 1) % 0x1_0000_0000;
    var payload := EncodeFrames(raw);
    if payload.Err? {
      return Err;
    }
    return Ok(Stored(payload.value, span + last));
  }

  /** Timestamps that advance are at least as far apart as their indices. */
  lemma {:induction false} Rising(ms: seq<Media>, i: nat, j: nat)
    requires Advances(ms) && i <= j < |ms|
    ensures j - i <= ms[j].timestamp - ms[i].timestamp
    decreases j
  {
    if i < j {
      Rising(ms, i, j - 1);
    }
  }

  /** A group is stored exactly if it has two frames or more, all LOC, with timestamps that advance, that can be written. */
  lemma StoredExactlyWhen(raw: seq<Frame>)
    ensures Store(raw).Ok? <==>
              && |raw| >= 2 && AllLoc(raw) && Advances(MediaOf(raw))
              && forall i: nat :: i < |raw| ==> FitsAt(raw, 0, i)
  {
    hide EncodeFrom, AllLoc, Advances, FitsAt, MeanInterval;
    EncodesExactlyWhenFits(raw, 0);
  }

  /** It lasts from its first timestamp to its last and for the mean of the gaps between, up to the 32-bit conversion of that. */
  lemma StoredMeasure(raw: seq<Frame>)
    requires Store(raw).Ok?
    ensures |raw| > 1 && DecodeLoc(raw[0].body).Ok? && DecodeLoc(raw[|raw| - 1].body).Ok?
    ensures
      var span := DecodeLoc(raw[|raw| - 1].body).value.timestamp - DecodeLoc(raw[0].body).value.timestamp;
      Store(raw).value.duration == span + span / (|raw| - 1) % 0x1_0000_0000
  {
    hide EncodeFrom, DecodeLoc, Advances;
  }

  /** Every stored group lasts, and for no longer than an int64 can state. */
  lemma StoredLasts(raw: seq<Frame>)
    requires Store(raw).Ok?
    ensures |raw| - 1 <= Store(raw).value.duration <= MAX_INT64
  {
    var ms := MediaOf(raw);
    Rising(ms, 0, |ms| - 1);
    LocBound(raw[|raw| - 1].body);
    hide Advances, EncodeFrom, DecodeLoc;
  }

  // ----- packaging -----

  datatype Sample = Sample(decodeTime: int, duration: int, sync: bool, data: seq<byte>)

  predicate GapOk(ms: seq<Media>, i: nat)
    requires i + 1 < |ms|
  {
    ms[i].timestamp < ms[i + 1].timestamp <= ms[i].timestamp + MAX_SAMPLE_DURATION
  }

  predicate GapsOk(ms: seq<Media>) {
    forall i: nat :: i + 1 < |ms| ==> GapOk(ms, i)
  }

  /** A gap is as it should be if the timestamps advance by no more than ten seconds, in microseconds. */
  lemma GapMeans(ms: seq<Media>, i: nat)
    requires i + 1 < |ms|
    ensures GapOk(ms, i) <==> 0 < ms[i + 1].timestamp - ms[i].timestamp <= 10_000_000
  {
  }

  function Gaps(ms: seq<Media>): seq<int>
    requires |ms| > 0
  {
    seq(|ms| - 1, i requires 0 <= i < |ms| - 1 => ms[i + 1].timestamp - ms[i].timestamp)
  }

  /** The sample of frame i, in closed form: as far along the timeline as its timestamp is from the first. */
  function SampleAt(ms: seq<Media>, decodeTime: int, last: int, i: nat): Sample
    requires i < |ms|
  {
    Sample(decodeTime + ms[i].timestamp - ms[0].timestamp,
           if i + 1 < |ms| then ms[i + 1].timestamp - ms[i].timestamp else last,
           i == 0, ms[i].data)
  }

  function Samples(ms: seq<Media>, decodeTime: int, last: int): seq<Sample> {
    seq(|ms|, i requires 0 <= i < |ms| => SampleAt(ms, decodeTime, last, i))
  }

  function Pack(ms: seq<Media>, decodeTime: int, last: int): Result<seq<Sample>> {
    if ms == [] || !(0 < last <= MAX_SAMPLE_DURATION) || !GapsOk(ms) then Err
    else Ok(Samples(ms, decodeTime, last))
  }

  method FrameGaps(ms: seq<Media>) returns (r: Result<seq<int>>)
    requires ms != []
    ensures r == if GapsOk(ms) then Ok(Gaps(ms)) else Err
  {
    var gaps := [];
    for i := 0 to |ms| - 1
      invariant |gaps| == i
      invariant forall k: nat :: k < i ==> GapOk(ms, k) && gaps[k] == ms[k + 1].timestamp - ms[k].timestamp
    {
      var this_, next := ms[i].timestamp, ms[i + 1].timestamp;
      if next <= this_ {
        assert !GapOk(ms, i);
        return Err;
      }
      var delta := next - this_;
      if delta > MAX_SAMPLE_DURATION {
        assert !GapOk(ms, i);
        return Err;
      }
      gaps := gaps + [delta];
    }
    assert GapsOk(ms);
    assert gaps == Gaps(ms) by {
      hide GapsOk, GapOk;
    }
    return Ok(gaps);
  }

  /** The packager: sample durations from the gaps, decode times by running total. */
  method PackFragment(ms: seq<Media>, decodeTime: int, last: int) returns (r: Result<seq<Sample>>)
    ensures r == Pack(ms, decodeTime, last)
  {
    if ms == [] || last <= 0 || last > MAX_SAMPLE_DURATION {
      return Err;
    }
    var g := FrameGaps(ms);
    if g.Err? {
      return Err;
    }
    var durations := g.value + [last];
    var samples, at := [], decodeTime;
    for i := 0 to |ms|
      invariant |samples| == i
      invariant i < |ms| ==> at == decodeTime + ms[i].timestamp - ms[0].timestamp
      invariant forall k: nat :: k < i ==> samples[k] == SampleAt(ms, decodeTime, last, k)
    {
      samples := samples + [Sample(at, durations[i], i == 0, ms[i].data)];
      at := at + durations[i];
    }
    assert samples == Samples(ms, decodeTime, last);
    return Ok(samples);
  }

  /** Packaging a stored group: the last frame lasts what of the group's duration its timestamps do not span. */
  function Fragment(mediaTime: int, duration: int, payload: seq<byte>): Result<seq<Sample>> {
    var d := DecodeFrom(payload, 0);
    if !d.ok || !AllLoc(d.frames) || d.frames == [] then Err
    else
      var ms := MediaOf(d.frames);
      var last := duration - Span(ms);
      if last <= 0 || last > 0xffff_ffff then Err else Pack(ms, mediaTime, last)
  }

  method FragmentGroup(mediaTime: int, duration: int, payload: seq<byte>) returns (r: Result<seq<Sample>>)
    ensures r == Fragment(mediaTime, duration, payload)
  {
    hide DecodeFrom, DecodeLoc, Pack;
    var d := AllFrames(payload);
    var ms := [];
    for i := 0 to |d.frames|
      invariant AllLoc(d.frames[..i]) && ms == MediaOf(d.frames[..i])
    {
      var m := DecodeLoc(d.frames[i].body);
      assert d.frames[..i + 1] == d.frames[..i] + [d.frames[i]];
      if m.Err? {
        return Err;
      }
      ms := ms + [m.value];
      assert ms == MediaOf(d.frames[..i + 1]);
    }
    assert d.frames[..|d.frames|] == d.frames;
    if !d.ok || ms == [] {
      return Err;
    }
    var span := ms[|ms| - 1].timestamp - ms[0].timestamp;
    var last := duration - span;
    if last <= 0 || last > 0xffff_ffff {
      return Err;
    }
    r := PackFragment(ms, mediaTime, last);
  }

  // ----- what storing promises packaging -----

  function Total(samples: seq<Sample>): int {
    if samples == [] then 0 else Total(samples[..|samples| - 1]) + samples[|samples| - 1].duration
  }

  /** The durations up to a sample add up to where it stands. */
  lemma {:induction false} TotalIsOffset(ms: seq<Media>, decodeTime: int, last: int, n: nat)
    requires n < |ms|
    ensures Total(Samples(ms, decodeTime, last)[..n]) == ms[n].timestamp - ms[0].timestamp
  {
    if n > 0 {
      var s := Samples(ms, decodeTime, last);
      assert s[..n][..n - 1] == s[..n - 1];
      TotalIsOffset(ms, decodeTime, last, n - 1);
    }
  }

  /** A packaged group runs from its media time for its whole duration, in samples that abut and all last. */
  ghost predicate Covers(samples: seq<Sample>, mediaTime: int, duration: int) {
    && |samples| > 0
    && samples[0].decodeTime == mediaTime
    && (forall i :: 0 <= i < |samples| ==> samples[i].duration > 0 && (samples[i].sync <==> i == 0))
    && (forall i :: 0 < i < |samples| ==> samples[i].decodeTime == samples[i - 1].decodeTime + samples[i - 1].duration)
    && samples[|samples| - 1].decodeTime + samples[|samples| - 1].duration == mediaTime + duration
    && Total(samples) == duration
  }

  lemma SamplesCover(ms: seq<Media>, mediaTime: int, last: int)
    requires ms != [] && Advances(ms) && last > 0
    ensures Covers(Samples(ms, mediaTime, last), mediaTime, Span(ms) + last)
  {
    var s := Samples(ms, mediaTime, last);
    TotalIsOffset(ms, mediaTime, last, |ms| - 1);
  }

  /** With no gap beyond the bound the mean interval is a real duration within it, untouched by the 32-bit conversion. */
  lemma MeanWithinBound(ms: seq<Media>)
    requires |ms| > 1 && GapsOk(ms)
    ensures 0 < MeanInterval(ms) <= MAX_SAMPLE_DURATION
  {
    var n := |ms| - 1;
    assert Advances(ms) by {
      forall i | 0 < i < |ms|
        ensures ms[i - 1].timestamp < ms[i].timestamp
      {
        assert GapOk(ms, i - 1);
      }
    }
    Rising(ms, 0, n);
    SpanBound(ms, n);
    MeanBounds(Span(ms), n, MAX_SAMPLE_DURATION);
  }

  lemma {:induction false} SpanBound(ms: seq<Media>, j: nat)
    requires GapsOk(ms) && j < |ms|
    ensures ms[j].timestamp - ms[0].timestamp <= j * MAX_SAMPLE_DURATION
  {
    if j > 0 {
      SpanBound(ms, j - 1);
      assert GapOk(ms, j - 1);
    }
  }

  lemma MeanBounds(span: int, n: int, bound: nat)
    requires 0 < n <= span <= n * bound
    ensures 1 <= span / n <= bound
  {
  }

  /**
   * Every group storedGroup accepts is decoded and packaged without error exactly
   * if no two of its frames are more than ten seconds apart, and then its samples
   * cover exactly the recorded duration from its media time, one for each frame
   * and carrying that frame's picture.
   */
  lemma StoredThenPackaged(raw: seq<Frame>, mediaTime: int)
    requires Store(raw).Ok?
    requires forall i :: 0 <= i < |raw| ==> |raw[i].body| <= MAX_VARINT
    ensures
      var st, ms := Store(raw).value, MediaOf(raw);
      var r := Fragment(mediaTime, st.duration, st.payload);
      && (r.Ok? <==> GapsOk(ms))
      && (r.Ok? ==> Covers(r.value, mediaTime, st.duration))
      && (r.Ok? ==> |r.value| == |raw| && forall i :: 0 <= i < |raw| ==> r.value[i].data == ms[i].data)
  {
    hide EncodeFrom, DecodeFrom, DecodeLoc, GapsOk, Samples, Covers, MeanInterval;
    RoundTrip(raw);
    var st, ms := Store(raw).value, MediaOf(raw);
    assert DecodeFrom(st.payload, 0) == Decoded(raw, true);
    PackStored(ms, mediaTime);
  }

  lemma PackStored(ms: seq<Media>, mediaTime: int)
    requires |ms| > 1 && Advances(ms)
    ensures
      var last := MeanInterval(ms);
      var r := if last <= 0 || last > 0xffff_ffff then Err else Pack(ms, mediaTime, last);
      && (r.Ok? <==> GapsOk(ms))
      && (r.Ok? ==> Covers(r.value, mediaTime, Span(ms) + last))
      && (r.Ok? ==> |r.value| == |ms| && forall i :: 0 <= i < |ms| ==> r.value[i].data == ms[i].data)
  {
    if GapsOk(ms) {
      MeanWithinBound(ms);
      SamplesCover(ms, mediaTime, MeanInterval(ms));
    }
    hide GapsOk, Covers, MeanInterval;
  }

  /** So a group can be stored that no viewer can be served: two frames a minute apart. */
  lemma StoredButNotPackaged()
    ensures
      var raw := [Frame(0, EncodeLoc(0, [1])), Frame(0, EncodeLoc(60 * TIMESCALE, [2]))];
      Store(raw).Ok? && Fragment(0, Store(raw).value.duration, Store(raw).value.payload).Err?
  {
    var raw := [Frame(0, EncodeLoc(0, [1])), Frame(0, EncodeLoc(60 * TIMESCALE, [2]))];
    LocExact(0, [1]);
    LocExact(60 * TIMESCALE, [2]);
    EncodesExactlyWhenFits(raw, 0);
    assert forall i: nat :: i < |raw| ==> FitsAt(raw, 0, i);
    hide Encode, Decode, DecodeLoc, EncodeFrom, DecodeFrom;
    assert AllLoc(raw) && MediaOf(raw) == [Media(0, [1]), Media(60 * TIMESCALE, [2])];
    assert !GapOk(MediaOf(raw), 0);
    StoredThenPackaged(raw, 0);
  }
}
