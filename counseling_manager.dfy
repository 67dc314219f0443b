/**
 * The counselling manager's bookkeeping for live voice streams: audio
 * chunks arrive out of order and are buffered per stream, sorted by index,
 * until a contiguous run of at least five (or more than eight of any kind)
 * is handed on for analysis; strategies and captions are looked up by
 * index; idle streams are dropped after four hours. The model's replies,
 * the clock and the analysis of a batch are parameters or left out.
 */
module CounselingManagerModel {
  import opened PsychologyTypes
  import opened Strings
  import opened TextUtilsModel

  /** A chunk of a voice stream; id tells apart chunks with the same index. */
  datatype Sink = Sink(index: int, id: int)

  predicate Sorted(b: seq<Sink>)
  {
    forall i, j :: 0 <= i < j < |b| ==> b[i].index <= b[j].index
  }

  /** Whether the indices run on without a gap from the first one. */
  predicate Contiguous(b: seq<Sink>)
    requires b != []
  {
    forall i :: 0 <= i < |b| ==> b[i].index == b[0].index + i
  }

  // ---- Buffering ----------------------------------------------------------

  /** Where a stable sort of the buffer with s added puts s. */
  function InsertPosition(b: seq<Sink>, s: Sink): (p: nat)
    ensures p <= |b|
  {
    if b == [] || s.index < b[0].index then 0 else 1 + InsertPosition(b[1..], s)
  }

  /**
   * The buffer after adding s and sorting by index: the list is kept
   * sorted, and a stable sort puts s after every chunk with an index no
   * greater than its own.
   */
  function Insert(b: seq<Sink>, s: Sink): (r: seq<Sink>)
    ensures |r| == |b| + 1
    ensures multiset(r) == multiset(b) + multiset{s}
  {
    var p := InsertPosition(b, s);
    assert b == b[..p] + b[p..];
    b[..p] + [s] + b[p..]
  }

  /** The chunks before the position are no greater than s, the one at it is greater. */
  lemma {:induction false} InsertShape(b: seq<Sink>, s: Sink)
    ensures var p := InsertPosition(b, s);
      (forall i :: 0 <= i < p ==> b[i].index <= s.index) &&
      (p < |b| ==> s.index < b[p].index)
    decreases |b|
  {
    if b != [] && s.index >= b[0].index {
      var rest := b[1..];
      InsertShape(rest, s);
      var p := InsertPosition(rest, s);
      forall i | 0 <= i < p + 1
        ensures b[i].index <= s.index
      {
        if i > 0 {
          assert b[i] == rest[i - 1];
        }
      }
    }
  }

  /**
   * On a sorted buffer, s goes in at the position after every chunk whose
   * index is at most its own and before every chunk whose index is greater:
   * the result is sorted.
   */
  lemma InsertPlaces(b: seq<Sink>, s: Sink)
    requires Sorted(b)
    ensures var p := InsertPosition(b, s);
      (forall i :: 0 <= i < p ==> b[i].index <= s.index) &&
      (forall i :: p <= i < |b| ==> b[i].index > s.index)
    ensures Sorted(Insert(b, s))
  {
    InsertShape(b, s);
    var p := InsertPosition(b, s);
    forall i | p <= i < |b|
      ensures b[i].index > s.index
    {
      assert b[p].index <= b[i].index;
    }
    InsertElements(b, s);
    InsertSorted(b, s, p);
  }

  /** The chunks of the new buffer, position by position. */
  lemma InsertElements(b: seq<Sink>, s: Sink)
    ensures var p := InsertPosition(b, s); var r := Insert(b, s);
      forall i :: 0 <= i < |r| ==> r[i] == if i < p then b[i] else if i == p then s else b[i - 1]
  {
  }

  /** A chunk put in between the no greater and the greater ones keeps the buffer sorted. */
  lemma InsertSorted(b: seq<Sink>, s: Sink, p: nat)
    requires Sorted(b) && p == InsertPosition(b, s)
    requires forall i :: 0 <= i < p ==> b[i].index <= s.index
    requires forall i :: p <= i < |b| ==> b[i].index > s.index
    requires forall i :: 0 <= i < |Insert(b, s)| ==>
      Insert(b, s)[i] == if i < p then b[i] else if i == p then s else b[i - 1]
    ensures Sorted(Insert(b, s))
  {
    var r := Insert(b, s);
    forall i, j | 0 <= i < j < |r|
      ensures r[i].index <= r[j].index
    {
      if j < p {
        assert r[i] == b[i] && r[j] == b[j];
      } else if j == p {
        assert r[j] == s;
      } else if i > p {
        assert r[i] == b[i - 1] && r[j] == b[j - 1];
      } else if i == p {
        assert r[i] == s && r[j] == b[j - 1];
      } else {
        assert r[i] == b[i] && r[j] == b[j - 1];
      }
    }
  }

  /** The buffer after a chunk is recorded, and the batch handed on, if any. */
  datatype Recorded = Recorded(buffer: seq<Sink>, batch: Option<seq<Sink>>)

  /**
   * Recording a chunk: the sorted buffer is handed on whole, and emptied,
   * when it holds at least five contiguous chunks or more than eight.
   */
  function RecordStep(b: seq<Sink>, s: Sink): (r: Recorded)
    ensures var full := Insert(b, s);
      (r.batch.Some? <==> (|full| >= 5 && Contiguous(full)) || |full| > 8) &&
      (r.batch.Some? ==> r.buffer == [] && r.batch.value == full) &&
      (r.batch.None? ==> r.buffer == full)
  {
    var full := Insert(b, s);
    if (|full| >= 5 && Contiguous(full)) || |full| > 8 then Recorded([], Some(full))
    else Recorded(full, None)
  }

  /**
   * Recording keeps a sorted buffer sorted and of at most eight chunks, and
   * hands on only batches of at least five sorted chunks.
   */
  lemma RecordKeepsBuffer(b: seq<Sink>, s: Sink)
    requires Sorted(b) && |b| <= 8
    ensures var r := RecordStep(b, s);
      Sorted(r.buffer) && |r.buffer| <= 8 &&
      (r.batch.Some? ==> |r.batch.value| >= 5 && Sorted(r.batch.value))
  {
    InsertPlaces(b, s);
  }

  /** Recording loses no chunk: what is buffered and handed on is what was buffered plus s. */
  lemma RecordLosesNothing(b: seq<Sink>, s: Sink)
    ensures var r := RecordStep(b, s);
      multiset(r.buffer) + (if r.batch.Some? then multiset(r.batch.value) else multiset{}) ==
        multiset(b) + multiset{s}
  {
  }

  /** A full buffer is handed on even when it has a gap. */
  lemma NineChunksFlush(b: seq<Sink>, s: Sink)
    requires |b| == 8
    ensures RecordStep(b, s).batch == Some(Insert(b, s))
  {
  }

  /** Four chunks never leave the buffer, however contiguous. */
  lemma FewChunksStay(b: seq<Sink>, s: Sink)
    requires |b| <= 3
    ensures RecordStep(b, s) == Recorded(Insert(b, s), None)
  {
  }

  /** The source's isContinuous: each index must be one more than the one before. */
  method IsContinuous(b: seq<Sink>) returns (r: bool)
    requires b != []
    ensures r <==> Contiguous(b)
  {
    var begin := b[0].index;
    var next := begin + 1;
    var i := 1;
    while i < |b|
      invariant 1 <= i <= |b|
      invariant next == begin + i
      invariant forall k :: 0 <= k < i ==> b[k].index == begin + k
    {
      if b[i].index != next {
        return false;
      }
      next := next + 1;
      i := i + 1;
    }
    return true;
  }

  // ---- Strategies and captions ---------------------------------------------

  /** A counselling strategy or a caption, numbered in the order it was made. */
  datatype Strategy = Strategy(index: int, content: string)

  /** The position of the first entry with the index, -1 for none. */
  function FindIndex(xs: seq<Strategy>, index: int): (r: int)
    ensures -1 <= r < |xs|
    ensures r >= 0 ==> xs[r].index == index && forall j :: 0 <= j < r ==> xs[j].index != index
    ensures r < 0 ==> forall j :: 0 <= j < |xs| ==> xs[j].index != index
  {
    if xs == [] then -1
    else if xs[|xs| - 1].index == index && FindIndex(xs[..|xs| - 1], index) < 0 then |xs| - 1
    else FindIndex(xs[..|xs| - 1], index)
  }

  /** The strategy asked for: the first with that index, otherwise the last. */
  function StrategyFor(xs: seq<Strategy>, index: int): Strategy
    requires xs != []
  {
    var k := FindIndex(xs, index);
    if k >= 0 then xs[k] else xs[|xs| - 1]
  }

  /** The caption asked for: the first with that index, else the one at that position, else the last. */
  function CaptionFor(xs: seq<Strategy>, index: int): Strategy
    requires xs != []
  {
    var k := FindIndex(xs, index);
    if k >= 0 then xs[k]
    else if 0 <= index < |xs| then xs[index]
    else xs[|xs| - 1]
  }

  /** Entries numbered by their position, as they are created. */
  predicate Numbered(xs: seq<Strategy>)
  {
    forall i :: 0 <= i < |xs| ==> xs[i].index == i
  }

  /** With entries numbered by position, a lookup is by position and falls back on the last. */
  lemma NumberedLookup(xs: seq<Strategy>, index: int)
    requires xs != [] && Numbered(xs)
    ensures StrategyFor(xs, index) == if 0 <= index < |xs| then xs[index] else xs[|xs| - 1]
    ensures CaptionFor(xs, index) == StrategyFor(xs, index)
  {
    if 0 <= index < |xs| {
      assert xs[index].index == index;
    }
  }

  /** The scan for an entry with the index. */
  method FindByIndex(xs: seq<Strategy>, index: int) returns (r: Option<Strategy>)
    ensures FindIndex(xs, index) >= 0 ==> r == Some(xs[FindIndex(xs, index)])
    ensures FindIndex(xs, index) < 0 ==> r.None?
  {
    var i := 0;
    while i < |xs|
      invariant 0 <= i <= |xs|
      invariant forall j :: 0 <= j < i ==> xs[j].index != index
    {
      if xs[i].index == index {
        return Some(xs[i]);
      }
      i := i + 1;
    }
    return None;
  }

  /** Appends one caption per line, each numbered by the count before it. */
  function NumberedFrom(start: int, lines: seq<string>): (r: seq<Strategy>)
    ensures |r| == |lines|
    ensures forall i :: 0 <= i < |r| ==> r[i] == Strategy(start + i, lines[i])
    decreases |lines|
  {
    if lines == [] then [] else [Strategy(start, lines[0])] + NumberedFrom(start + 1, lines[1..])
  }

  /** The per-stream state behind the strategy and caption queries. */
  datatype Wrapper = Wrapper(
    refreshTimestamp: int,
    strategies: seq<Strategy>,
    captions: seq<Strategy>,
    generatingStrategy: bool,
    generatingCaption: bool)

  /** Idle time after which a stream is dropped: four hours in milliseconds. */
  const Expiry: int := 4 * 60 * 60 * 1000

  predicate Expired(w: Wrapper, now: int)
  {
    now - w.refreshTimestamp > Expiry
  }

  /** Every buffer is sorted and holds at most eight chunks. */
  ghost predicate BuffersOk(m: map<string, seq<Sink>>)
  {
    forall k :: k in m ==> Sorted(m[k]) && |m[k]| <= 8
  }

  ghost predicate BatchesOk(batches: seq<seq<Sink>>)
  {
    forall i :: 0 <= i < |batches| ==> |batches[i]| >= 5
  }

  ghost predicate WrappersOk(m: map<string, Wrapper>)
  {
    forall k :: k in m ==> Numbered(m[k].strategies) && Numbered(m[k].captions)
  }

  lemma BuffersOkUpdate(m: map<string, seq<Sink>>, k: string, b: seq<Sink>)
    requires BuffersOk(m) && Sorted(b) && |b| <= 8
    ensures BuffersOk(m[k := b])
  {
  }

  lemma WrappersOkUpdate(m: map<string, Wrapper>, k: string, w: Wrapper)
    requires WrappersOk(m) && Numbered(w.strategies) && Numbered(w.captions)
    ensures WrappersOk(m[k := w])
  {
  }

  /** The map without the given keys. */
  function Without<V>(m: map<string, V>, ks: set<string>): (r: map<string, V>)
    ensures forall k :: k in r <==> k in m && k !in ks
    ensures forall k :: k in r ==> r[k] == m[k]
  {
    map k | k in m && k !in ks :: m[k]
  }

  lemma WithoutMore<V>(m: map<string, V>, ks: set<string>, k: string)
    ensures Without(Without(m, ks), {k}) == Without(m, ks + {k})
  {
  }

  /** The streams idle for longer than the expiry. */
  function ExpiredKeys(m: map<string, Wrapper>, now: int): (r: set<string>)
    ensures forall k :: k in r <==> k in m && Expired(m[k], now)
  {
    set k | k in m && Expired(m[k], now)
  }

  /** The source's numbering of new captions, one per line of the reply. */
  method NumberCaptions(contents: seq<string>) returns (captions: seq<Strategy>)
    ensures captions == NumberedFrom(0, contents)
  {
    captions := [];
    var i := 0;
    while i < |contents|
      invariant 0 <= i <= |contents|
      invariant |captions| == i
      invariant forall k :: 0 <= k < i ==> captions[k] == Strategy(k, contents[k])
    {
      captions := captions + [Strategy(|captions|, contents[i])];
      i := i + 1;
    }
  }

  /** The captions the source makes of a reply: one per line of its Markdown text, numbered from 0. */
  method CaptionsFromReply(reply: string) returns (captions: seq<Strategy>)
    ensures captions == NumberedFrom(0, MarkdownLines(JavaSplit(reply, '\n')))
    ensures Numbered(captions)
  {
    var contents := ExtractMarkdownTextAsList(reply);
    captions := NumberCaptions(contents);
  }

  method LookupStrategy(xs: seq<Strategy>, index: int) returns (r: Strategy)
    requires xs != []
    ensures r == StrategyFor(xs, index)
  {
    var found := FindByIndex(xs, index);
    if found.Some? {
      return found.value;
    }
    return xs[|xs| - 1];
  }

  method LookupCaption(xs: seq<Strategy>, index: int) returns (r: Strategy)
    requires xs != []
    ensures r == CaptionFor(xs, index)
  {
    var found := FindByIndex(xs, index);
    if found.Some? {
      return found.value;
    }
    if 0 <= index < |xs| {
      return xs[index];
    }
    return xs[|xs| - 1];
  }

  /** Insert the chunk and decide, as the source's record does, whether the buffer is flushed. */
  method Rebuffer(buffered: seq<Sink>, s: Sink) returns (buffer: seq<Sink>, batch: Option<seq<Sink>>)
    ensures Recorded(buffer, batch) == RecordStep(buffered, s)
  {
    var list := Insert(buffered, s);
    var flush := false;
    if |list| >= 5 {
      flush := IsContinuous(list);
    }
    if flush || |list| > 8 {
      return [], Some(list);
    }
    return list, None;
  }

  class CounselingManager {
    var streamSinks: map<string, seq<Sink>>
    var combinedVoices: map<string, seq<int>>
    var wrappers: map<string, Wrapper>
    var batches: seq<seq<Sink>>

    /** Every buffer is sorted and short; every batch handed on has at least five chunks. */
    ghost predicate Valid()
      reads this
    {
      BuffersOk(streamSinks) && BatchesOk(batches) && WrappersOk(wrappers)
    }

    constructor ()
      ensures streamSinks == map[] && combinedVoices == map[] && wrappers == map[] && batches == []
      ensures Valid()
    {
      streamSinks := map[];
      combinedVoices := map[];
      wrappers := map[];
      batches := [];
    }

    /** The source's record: buffer the chunk and hand on a batch when the rule says so. */
    method Record(stream: string, s: Sink)
      requires Valid()
      modifies this
      ensures Valid()
      ensures var step := RecordStep(if stream in old(streamSinks) then old(streamSinks)[stream] else [], s);
        streamSinks == old(streamSinks)[stream := step.buffer] &&
        batches == old(batches) + (if step.batch.Some? then [step.batch.value] else [])
      ensures combinedVoices == old(combinedVoices) && wrappers == old(wrappers)
    {
      var buffered := if stream in streamSinks then streamSinks[stream] else [];
      RecordKeepsBuffer(buffered, s);
      var buffer, batch := Rebuffer(buffered, s);
      Store(stream, buffer, batch);
    }

    /** Keeps the new buffer of a stream and hands on the batch, if any. */
    method Store(stream: string, buffer: seq<Sink>, batch: Option<seq<Sink>>)
      requires Valid()
      requires Sorted(buffer) && |buffer| <= 8 && (batch.Some? ==> |batch.value| >= 5)
      modifies this
      ensures Valid()
      ensures streamSinks == old(streamSinks)[stream := buffer]
      ensures batches == old(batches) + (if batch.Some? then [batch.value] else [])
      ensures combinedVoices == old(combinedVoices) && wrappers == old(wrappers)
    {
      BuffersOkUpdate(streamSinks, stream, buffer);
      streamSinks := streamSinks[stream := buffer];
      if batch.Some? {
        batches := batches + [batch.value];
      }
    }

    /** The wrapper of a stream, created on first use with the current time. */
    function WrapperOf(stream: string, now: int): Wrapper
      reads this
    {
      if stream in wrappers then wrappers[stream] else Wrapper(now, [], [], false, false)
    }

    /**
     * The source's queryCounselingStrategy. The stream is refreshed; with no
     * strategy yet, the model's reply (None when there is none or one is
     * already being generated) becomes strategy 0; otherwise the lookup
     * decides.
     */
    method QueryStrategy(stream: string, index: int, reply: Option<string>, now: int) returns (r: Option<Strategy>)
      requires Valid()
      modifies this
      ensures Valid()
      ensures var w := old(WrapperOf(stream, now));
        var w2 := w.(refreshTimestamp := now);
        if w.strategies != [] then
          r == Some(StrategyFor(w.strategies, index)) && wrappers == old(wrappers)[stream := w2]
        else if w.generatingStrategy || reply.None? then
          r.None? && wrappers == old(wrappers)[stream := w2]
        else
          r == Some(Strategy(0, reply.value)) &&
          wrappers == old(wrappers)[stream := w2.(strategies := [Strategy(0, reply.value)])]
      ensures streamSinks == old(streamSinks) && combinedVoices == old(combinedVoices) && batches == old(batches)
    {
      var w := WrapperOf(stream, now);
      w := w.(refreshTimestamp := now);
      wrappers := wrappers[stream := w];
      if w.strategies == [] {
        if w.generatingStrategy || reply.None? {
          return None;
        }
        var strategy := Strategy(|w.strategies|, reply.value);
        assert w.strategies + [strategy] == [Strategy(0, reply.value)];
        wrappers := wrappers[stream := w.(strategies := w.strategies + [strategy])];
        return Some(strategy);
      }
      var found := LookupStrategy(w.strategies, index);
      return Some(found);
    }

    /**
     * The source's queryCounselingCaption. With no caption yet, each line
     * of the model's Markdown reply becomes a caption and the first is
     * returned; an empty reply leaves nothing to return (the source
     * throws). Otherwise the caption lookup decides. The stream is not
     * refreshed.
     */
    method QueryCaption(stream: string, index: int, reply: Option<string>, now: int) returns (r: Option<Strategy>)
      requires Valid()
      modifies this
      ensures Valid()
      ensures var w := old(WrapperOf(stream, now));
        if w.captions != [] then
          r == Some(CaptionFor(w.captions, index)) && wrappers == old(wrappers)[stream := w]
        else if w.generatingCaption || reply.None? then
          r.None? && wrappers == old(wrappers)[stream := w]
        else
          var captions := NumberedFrom(0, MarkdownLines(JavaSplit(reply.value, '\n')));
          wrappers == old(wrappers)[stream := w.(captions := captions)] &&
          r == (if captions == [] then None else Some(captions[0]))
      ensures streamSinks == old(streamSinks) && combinedVoices == old(combinedVoices) && batches == old(batches)
    {
      var w := WrapperOf(stream, now);
      if w.captions == [] && !w.generatingCaption && reply.Some? {
        var captions := CaptionsFromReply(reply.value);
        WrappersOkUpdate(wrappers, stream, w.(captions := captions));
        wrappers := wrappers[stream := w.(captions := captions)];
        r := if captions == [] then None else Some(captions[0]);
        return;
      }
      WrappersOkUpdate(wrappers, stream, w);
      wrappers := wrappers[stream := w];
      if w.captions == [] {
        return None;
      }
      var found := LookupCaption(w.captions, index);
      return Some(found);
    }

    /** Removes one stream from all three maps. */
    method Drop(k: string)
      requires Valid()
      modifies this
      ensures Valid()
      ensures wrappers == Without(old(wrappers), {k}) &&
        streamSinks == Without(old(streamSinks), {k}) &&
        combinedVoices == Without(old(combinedVoices), {k})
      ensures batches == old(batches)
    {
      streamSinks := Without(streamSinks, {k});
      combinedVoices := Without(combinedVoices, {k});
      wrappers := Without(wrappers, {k});
    }

    /** The source's onTick: a stream idle for more than four hours is dropped from all three maps. */
    method OnTick(now: int)
      requires Valid()
      modifies this
      ensures Valid()
      ensures var gone := ExpiredKeys(old(wrappers), now);
        wrappers == Without(old(wrappers), gone) &&
        streamSinks == Without(old(streamSinks), gone) &&
        combinedVoices == Without(old(combinedVoices), gone)
      ensures batches == old(batches)
    {
      var keys := wrappers.Keys;
      ghost var w0 := wrappers;
      ghost var s0 := streamSinks;
      ghost var c0 := combinedVoices;
      ghost var removed: set<string> := {};
      assert Without(w0, {}) == w0 && Without(s0, {}) == s0 && Without(c0, {}) == c0;
      while keys != {}
        invariant keys <= w0.Keys
        invariant removed == ExpiredKeys(w0, now) - keys
        invariant Valid()
        invariant batches == old(batches)
        invariant wrappers == Without(w0, removed)
        invariant streamSinks == Without(s0, removed)
        invariant combinedVoices == Without(c0, removed)
        decreases keys
      {
        var k :| k in keys;
        if Expired(wrappers[k], now) {
          WithoutMore(s0, removed, k);
          WithoutMore(c0, removed, k);
          WithoutMore(w0, removed, k);
          Drop(k);
          removed := removed + {k};
        }
        keys := keys - {k};
      }
    }
  }
}
