/** The text-to-speech playback queue of `WebSocketProvider.tsx`: decoded PCM
    fragments are queued (line 197), a single drain takes the whole queue at
    once and plays it as one buffer (lines 70, 210), an `interrupt` flushes
    everything (lines 69, 196), and a meter reports a level in 0..100
    (line 68). Timers and the browser's `ended` event are explicit events. */
module Playback {
  import opened JsString
  import opened Types

  // ----- sample counting and decoding (line 70) -----

  /** Whole 16-bit samples in a fragment: `(byteLength - byteLength % 2) / 2`. */
  function UsableSamples(b: seq<byte>): (n: nat)
    ensures 2 * n <= |b| < 2 * n + 2
  {
    (|b| - |b| % 2) / 2
  }

  /** The `reduce` that sizes the playback buffer. */
  function SampleCount(bs: seq<seq<byte>>): nat {
    if bs == [] then 0 else SampleCount(bs[..|bs| - 1]) + UsableSamples(bs[|bs| - 1])
  }

  function TotalBytes(bs: seq<seq<byte>>): nat {
    if bs == [] then 0 else TotalBytes(bs[..|bs| - 1]) + |bs[|bs| - 1]|
  }

  lemma {:induction false} SampleCountAppend(a: seq<seq<byte>>, b: seq<seq<byte>>)
    ensures SampleCount(a + b) == SampleCount(a) + SampleCount(b)
    decreases |b|
  {
    if b != [] {
      var init := b[..|b| - 1];
      assert (a + b)[..|a + b| - 1] == a + init;
      assert (a + b)[|a + b| - 1] == b[|b| - 1];
      assert SampleCount(a + b) == SampleCount(a + init) + UsableSamples(b[|b| - 1]);
      assert SampleCount(b) == SampleCount(init) + UsableSamples(b[|b| - 1]);
      SampleCountAppend(a, init);
    } else {
      assert a + b == a;
    }
  }

  /** The buffer never holds more samples than half the bytes, an odd trailing
      byte of each fragment is dropped, and the count is zero exactly when no
      fragment holds a whole sample, in which case nothing is played. */
  lemma {:induction false} SampleCountBounds(bs: seq<seq<byte>>)
    ensures 2 * SampleCount(bs) <= TotalBytes(bs) <= 2 * SampleCount(bs) + |bs|
    ensures SampleCount(bs) == 0 <==> forall i :: 0 <= i < |bs| ==> |bs[i]| < 2
    decreases |bs|
  {
    if bs != [] {
      var init := bs[..|bs| - 1];
      SampleCountBounds(init);
      assert forall i :: 0 <= i < |init| ==> bs[i] == init[i];
    }
  }

  /** One signed 16-bit little-endian sample, as `Int16Array` reads it. */
  function Int16At(b: seq<byte>, k: nat): (v: int)
    requires 2 * k + 1 < |b|
    ensures -32768 <= v < 32768
  {
    var u := (b[2 * k] as int) + 256 * (b[2 * k + 1] as int);
    if u >= 32768 then u - 65536 else u
  }

  /** `new Int16Array(buffer, 0, usableLength / 2)` */
  function Pcm16(b: seq<byte>): (r: seq<int>)
    ensures |r| == UsableSamples(b)
  {
    seq(UsableSamples(b), k requires 0 <= k < UsableSamples(b) => Int16At(b, k))
  }

  /** The samples of all fragments, one after another. */
  function Samples(bs: seq<seq<byte>>): seq<int> {
    if bs == [] then [] else Samples(bs[..|bs| - 1]) + Pcm16(bs[|bs| - 1])
  }

  lemma {:induction false} SamplesLength(bs: seq<seq<byte>>)
    ensures |Samples(bs)| == SampleCount(bs)
    decreases |bs|
  {
    if bs != [] {
      SamplesLength(bs[..|bs| - 1]);
    }
  }

  /** The samples of the first `j + 1` fragments extend those of the first `j`. */
  lemma PrefixStep(bs: seq<seq<byte>>, j: nat)
    requires j < |bs|
    ensures SampleCount(bs[..j + 1]) == SampleCount(bs[..j]) + UsableSamples(bs[j])
    ensures Samples(bs[..j + 1]) == Samples(bs[..j]) + Pcm16(bs[j])
    ensures SampleCount(bs[..j + 1]) <= SampleCount(bs)
  {
    assert bs[..j + 1][..j] == bs[..j];
    SampleCountAppend(bs[..j + 1], bs[j + 1..]);
    assert bs[..j + 1] + bs[j + 1..] == bs;
  }

  /** The inner loop of the fill: copies one fragment's samples to
      `channel[offset..]`, with the source's guard against the end. */
  method CopyFragment(channel: array<int>, offset: nat, b: seq<byte>)
    requires offset + UsableSamples(b) <= channel.Length
    modifies channel
    ensures channel[..offset] == old(channel[..offset])
    ensures channel[offset..offset + UsableSamples(b)] == Pcm16(b)
  {
    var n := UsableSamples(b);
    var i := 0;
    while i < n
      invariant 0 <= i <= n
      invariant channel[..offset] == old(channel[..offset])
      invariant forall k :: 0 <= k < i ==> channel[offset + k] == Int16At(b, k)
    {
      if offset + i < channel.Length {
        channel[offset + i] := Int16At(b, i);
      } else {
        break;
      }
      i := i + 1;
    }
  }

  /** Fills the playback channel fragment by fragment. The float scaling by
      1/32768 is not modelled: the channel holds the signed 16-bit values. */
  method FillChannel(buffers: seq<seq<byte>>) returns (channel: array<int>)
    ensures fresh(channel)
    ensures channel[..] == Samples(buffers)
  {
    SamplesLength(buffers);
    var total := SampleCount(buffers);
    channel := new int[total];
    var offset := 0;
    var j := 0;
    while j < |buffers|
      invariant 0 <= j <= |buffers|
      invariant offset == SampleCount(buffers[..j]) <= total
      invariant channel[..offset] == Samples(buffers[..j])
    {
      PrefixStep(buffers, j);
      var b := buffers[j];
      var usable := |b| - |b| % 2;
      if usable > 0 {
        CopyFragment(channel, offset, b);
        assert channel[..offset + usable / 2] == channel[..offset] + channel[offset..offset + usable / 2];
        offset := offset + usable / 2;
      }
      j := j + 1;
    }
    assert buffers[..j] == buffers;
    assert channel[..] == channel[..offset];
  }

  // ----- the queue as a state machine (lines 69, 197, 210) -----

  /** `queue` is `audioBufferQueueRef`, `draining` the effect's
      `isPlaybackActive`, `playing` the sample count of the started source
      whose `ended` handler is still attached, `level` the meter reading. */
  datatype PlayerState = PlayerState(queue: seq<AudioChunk>, draining: bool, playing: Option<nat>, level: int)

  const Idle := PlayerState([], false, None, 0)

  /** `chunks.flatMap(chunk => chunk.data)`: the fragments in enqueue order. */
  function Flatten(q: seq<AudioChunk>): seq<seq<byte>> {
    if q == [] then [] else q[0].data + Flatten(q[1..])
  }

  lemma {:induction false} FlattenAppend(a: seq<AudioChunk>, b: seq<AudioChunk>)
    ensures Flatten(a + b) == Flatten(a) + Flatten(b)
    decreases |a|
  {
    if a != [] {
      assert (a + b)[0] == a[0];
      assert (a + b)[1..] == a[1..] + b;
      FlattenAppend(a[1..], b);
    } else {
      assert a + b == b;
    }
  }

  /** The corrected machine's invariant: a drain is in progress exactly while
      a source plays, the level stays in 0..100 and is 0 when nothing plays,
      and every queued fragment is non-empty. */
  predicate Valid(s: PlayerState) {
    (s.draining <==> s.playing.Some?) &&
    0 <= s.level <= 100 && (s.playing.None? ==> s.level == 0) &&
    forall i, k :: 0 <= i < |s.queue| && 0 <= k < |s.queue[i].data| ==> |s.queue[i].data[k]| > 0
  }

  /** A drain is marked active but nothing plays that could ever release it. */
  predicate Stuck(s: PlayerState) {
    s.draining && s.playing.None?
  }

  /** Line 197: only a fragment with `byteLength > 0` is queued, stamped with
      the time it arrived. */
  function Enqueue(s: PlayerState, bytes: seq<byte>, now: int): (r: PlayerState)
    ensures Flatten(r.queue) == Flatten(s.queue) + (if |bytes| > 0 then [bytes] else [])
    ensures |bytes| > 0 ==> r.queue[|r.queue| - 1] == AudioChunk([bytes], now)
    ensures r.draining == s.draining && r.playing == s.playing && r.level == s.level
  {
    if |bytes| > 0 then
      FlattenAppend(s.queue, [AudioChunk([bytes], now)]);
      assert Flatten([AudioChunk([bytes], now)]) == [bytes] + Flatten([]);
      s.(queue := s.queue + [AudioChunk([bytes], now)])
    else s
  }

  /** The outcome of one call of `processQueue`: the new state and the
      fragments it took. */
  datatype Drain = Drain(state: PlayerState, batch: seq<seq<byte>>)

  /** `processQueue` (line 210): nothing happens while a drain is active or
      the queue is empty; otherwise the whole queue is taken at once and
      played as one buffer. A buffer without samples resolves at once and
      releases the drain. */
  function TakeQueue(s: PlayerState): (d: Drain)
    ensures s.draining || s.queue == [] ==> d == Drain(s, [])
    ensures !s.draining && s.queue != [] ==>
              d.batch == Flatten(s.queue) && d.state.queue == [] && d.state.level == s.level &&
              d.state.playing == (if SampleCount(d.batch) > 0 then Some(SampleCount(d.batch)) else s.playing) &&
              (d.state.draining <==> SampleCount(d.batch) > 0)
  {
    if s.draining || s.queue == [] then Drain(s, [])
    else
      var batch := Flatten(s.queue);
      var n := SampleCount(batch);
      if n == 0 then Drain(s.(queue := []), batch)
      else Drain(s.(queue := [], draining := true, playing := Some(n)), batch)
  }

  /** The source's `ended` event: the attached handler resets the level and
      resolves the playback, whose `finally` releases the drain. With no
      attached handler nothing happens. */
  function FinishPlayback(s: PlayerState): (r: PlayerState)
    ensures s.playing.Some? ==> !r.draining && r.playing.None? && r.level == 0 && r.queue == s.queue
    ensures s.playing.None? ==> r == s
  {
    if s.playing.Some? then s.(playing := None, level := 0, draining := false) else s
  }

  /** `Math.min(100, Math.max(0, x))` */
  function Clamp(x: int): (r: int)
    ensures 0 <= r <= 100
    ensures 0 <= x <= 100 ==> r == x
    ensures x < 0 ==> r == 0
    ensures x > 100 ==> r == 100
  {
    if x < 0 then 0 else if x > 100 then 100 else x
  }

  /** One animation frame of the meter (line 68), given the rounded reading:
      with no source the level drops to 0, otherwise it is the clamped reading. */
  function MeterLevel(s: PlayerState, reading: int): (r: PlayerState)
    ensures 0 <= r.level <= 100
    ensures s.playing.None? ==> r.level == 0
    ensures r.queue == s.queue && r.draining == s.draining && r.playing == s.playing
  {
    if s.playing.None? then s.(level := 0) else s.(level := Clamp(reading))
  }

  /** `stopAndClearAudioPlayback` as written (line 69): the source's `ended`
      handler is detached before it is stopped, so the playback awaited by the
      drain never settles and `isPlaybackActive` is never released. */
  function FlushedAsWritten(s: PlayerState): (r: PlayerState)
    ensures r.queue == [] && r.playing.None? && r.level == 0 && r.draining == s.draining
  {
    s.(queue := [], playing := None, level := 0)
  }

  /** The flush as the interrupt evidently intends it: stopping playback also
      settles the pending playback, so the drain is released. */
  function Flushed(s: PlayerState): (r: PlayerState)
    ensures r == Idle
  {
    s.(queue := [], playing := None, level := 0, draining := false)
  }

  /** Interrupting a playing source leaves the as-written queue stuck. */
  lemma InterruptDuringPlaybackStrands(s: PlayerState)
    requires Valid(s) && s.playing.Some?
    ensures Stuck(FlushedAsWritten(s))
    ensures !Valid(FlushedAsWritten(s))
  {
  }

  datatype Event = Push(bytes: seq<byte>, now: int) | Process | Ended | Meter(reading: int) | Interrupt

  /** One event, with the as-written flush (`fixed == false`) or the corrected
      one (`fixed == true`). */
  function Step(s: PlayerState, e: Event, fixed: bool): Drain {
    match e
    case Push(b, now) => Drain(Enqueue(s, b, now), [])
    case Process => TakeQueue(s)
    case Ended => Drain(FinishPlayback(s), [])
    case Meter(x) => Drain(MeterLevel(s, x), [])
    case Interrupt => Drain(if fixed then Flushed(s) else FlushedAsWritten(s), [])
  }

  /** A run of events: the final state and every fragment taken for playback,
      in order. */
  function Run(s: PlayerState, es: seq<Event>, fixed: bool): Drain
    decreases |es|
  {
    if es == [] then Drain(s, [])
    else
      var d := Step(s, es[0], fixed);
      var rest := Run(d.state, es[1..], fixed);
      Drain(rest.state, d.batch + rest.batch)
  }

  /** Every event of the corrected machine keeps its invariant. */
  lemma StepKeepsValid(s: PlayerState, e: Event)
    requires Valid(s)
    ensures Valid(Step(s, e, true).state)
  {
    match e
    case Push(b, now) =>
      var r := Enqueue(s, b, now);
      if |b| > 0 {
        forall i, k | 0 <= i < |r.queue| && 0 <= k < |r.queue[i].data|
          ensures |r.queue[i].data[k]| > 0
        {
          if i < |s.queue| { assert r.queue[i] == s.queue[i]; }
        }
      }
    case Process =>
    case Ended =>
    case Meter(x) =>
    case Interrupt =>
  }

  /** Once stuck, the as-written machine stays stuck whatever happens, and
      never takes another fragment: all later speech is queued and dropped
      unheard. */
  lemma {:induction false} StuckForever(s: PlayerState, es: seq<Event>)
    requires Stuck(s)
    ensures Stuck(Run(s, es, false).state)
    ensures Run(s, es, false).batch == []
    decreases |es|
  {
    if es != [] {
      StuckForever(Step(s, es[0], false).state, es[1..]);
    }
  }

  /** The concrete input: one fragment plays, an interrupt arrives, a second
      fragment arrives and a drain runs. As written the second fragment is
      never taken; with the corrected flush it is. */
  lemma InterruptCounterexample()
    ensures var es := [Push([1, 0], 0), Process, Interrupt, Push([2, 0], 1), Process];
            Run(Idle, es, false).batch == [[1, 0]] &&
            Run(Idle, es, true).batch == [[1, 0], [2, 0]]
  {
    var es := [Push([1, 0], 0), Process, Interrupt, Push([2, 0], 1), Process];
    assert SampleCount([[1, 0]]) == 1;
    assert SampleCount([[2, 0]]) == 1;
    assert Flatten([AudioChunk([[1, 0]], 0)]) == [[1, 0]];
    assert Flatten([AudioChunk([[2, 0]], 1)]) == [[2, 0]];
    assert es[1..][1..][1..][1..] == [Process];
  }

  /** Fragments pushed into the corrected machine come out in push order:
      what was queued plus what was pushed equals what was taken plus what is
      still queued, as long as no interrupt discards the queue. */
  function Pushed(es: seq<Event>): seq<seq<byte>>
    decreases |es|
  {
    if es == [] then []
    else (if es[0].Push? && |es[0].bytes| > 0 then [es[0].bytes] else []) + Pushed(es[1..])
  }

  /** One event other than an interrupt: what was queued plus what it pushes
      is what it took plus what it leaves queued. */
  lemma StepKeepsOrder(s: PlayerState, e: Event)
    requires !e.Interrupt?
    ensures Flatten(s.queue) + Pushed([e]) == Step(s, e, true).batch + Flatten(Step(s, e, true).state.queue)
  {
    assert Pushed([e]) == (if e.Push? && |e.bytes| > 0 then [e.bytes] else []) + Pushed([]);
    if e.Process? {
      assert Flatten([]) == [];
    }
  }

  lemma PushedCons(es: seq<Event>)
    requires es != []
    ensures Pushed(es) == Pushed([es[0]]) + Pushed(es[1..])
  {
    assert [es[0]][1..] == [];
    assert Pushed([es[0]]) == (if es[0].Push? && |es[0].bytes| > 0 then [es[0].bytes] else []) + Pushed([]);
  }

  lemma {:induction false} FragmentsKeepOrder(s: PlayerState, es: seq<Event>)
    requires forall i :: 0 <= i < |es| ==> !es[i].Interrupt?
    ensures Flatten(s.queue) + Pushed(es) == Run(s, es, true).batch + Flatten(Run(s, es, true).state.queue)
    decreases |es|
  {
    if es != [] {
      var d := Step(s, es[0], true);
      var rest := Run(d.state, es[1..], true);
      assert Run(s, es, true) == Drain(rest.state, d.batch + rest.batch);
      assert forall i :: 0 <= i < |es[1..]| ==> es[1..][i] == es[i + 1];
      FragmentsKeepOrder(d.state, es[1..]);
      StepKeepsOrder(s, es[0]);
      PushedCons(es);
      Regroup(Flatten(s.queue), Pushed([es[0]]), Pushed(es[1..]), d.batch, Flatten(d.state.queue),
              rest.batch, Flatten(rest.state.queue));
    }
  }

  /** Two conservation steps chained: the algebra of `FragmentsKeepOrder`. */
  lemma Regroup<T>(queued: seq<T>, pushed1: seq<T>, pushed2: seq<T>, taken1: seq<T>, mid: seq<T>,
                   taken2: seq<T>, left: seq<T>)
    requires queued + pushed1 == taken1 + mid
    requires mid + pushed2 == taken2 + left
    ensures queued + (pushed1 + pushed2) == (taken1 + taken2) + left
  {
    calc {
      queued + (pushed1 + pushed2);
      (queued + pushed1) + pushed2;
      (taken1 + mid) + pushed2;
      taken1 + (mid + pushed2);
      taken1 + (taken2 + left);
      (taken1 + taken2) + left;
    }
  }

  /** With the corrected flush the queue never stalls: once the playing
      source ends, the next drain takes everything queued. */
  lemma DrainAfterEnd(s: PlayerState)
    requires Valid(s) && s.queue != []
    ensures TakeQueue(FinishPlayback(s)).batch == Flatten(s.queue)
    ensures TakeQueue(FinishPlayback(s)).state.queue == []
  {
  }

  /** After an interrupt the next fragment is played on the next drain. */
  lemma PlaysAfterFlushed(s: PlayerState, b: seq<byte>, now: int)
    requires |b| > 0
    ensures TakeQueue(Enqueue(Flushed(s), b, now)).batch == [b]
  {
    assert Flatten([AudioChunk([b], now)]) == [b] + Flatten([]);
  }

  /** The playback queue as the provider holds it: refs and state updated in
      place by the effect's handlers. */
  class PlaybackQueue {
    var queue: seq<AudioChunk>
    var isPlaybackActive: bool
    var source: Option<nat>
    var level: int

    function State(): PlayerState
      reads this
    {
      PlayerState(queue, isPlaybackActive, source, level)
    }

    constructor ()
      ensures State() == Idle
    {
      queue := [];
      isPlaybackActive := false;
      source := None;
      level := 0;
    }

    /** The queue's `push` (line 197); the drain it schedules is the caller's
        `ProcessQueue` event. */
    method Push(bytes: seq<byte>, now: int)
      modifies this
      ensures State() == Enqueue(old(State()), bytes, now)
    {
      if |bytes| > 0 {
        queue := queue + [AudioChunk([bytes], now)];
      }
    }

    /** `processQueue` together with the buffer fill of
        `playAudioChunkFromQueue`: returns the fragments taken and the samples
        handed to the audio device (none when nothing was started). */
    method ProcessQueue() returns (batch: seq<seq<byte>>, samples: seq<int>)
      modifies this
      ensures Drain(State(), batch) == TakeQueue(old(State()))
      ensures samples == if SampleCount(batch) > 0 then Samples(batch) else []
    {
      batch, samples := [], [];
      if isPlaybackActive || queue == [] {
        return;
      }
      isPlaybackActive := true;
      var chunks := queue;
      queue := [];
      batch := Flatten(chunks);
      var n := SampleCount(batch);
      if n == 0 {
        isPlaybackActive := false;
      } else {
        var channel := FillChannel(batch);
        samples := channel[..];
        source := Some(n);
      }
    }

    method PlaybackEnded()
      modifies this
      ensures State() == FinishPlayback(old(State()))
    {
      if source.Some? {
        source := None;
        level := 0;
        isPlaybackActive := false;
      }
    }

    method MeterTick(reading: int)
      modifies this
      ensures State() == MeterLevel(old(State()), reading)
    {
      if source.None? {
        level := 0;
      } else {
        level := Clamp(reading);
      }
    }

    /** The interrupt's flush, with the drain released. */
    method Flush()
      modifies this
      ensures State() == Flushed(old(State()))
    {
      source := None;
      queue := [];
      level := 0;
      isPlaybackActive := false;
    }
  }
}
