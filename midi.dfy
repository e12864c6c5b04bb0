/** `MidiBuffer` of juce_MidiBuffer.h: a sequence of time-stamped MIDI events
    kept sorted by sample position, and its `Iterator`.

    Only the class declaration and its documentation are part of this model,
    so each operation is stated by the contract its documentation gives and
    implemented over a sequence of events.  The scan the private
    `findEventAfter` performs (skip every event at or before a position) is
    the one search all operations share.  Messages are opaque: their bytes
    are carried along and never looked into. */
module Midi {

  /** A MIDI message, as the bytes it was made from. */
  datatype Msg = Msg(bytes: seq<int>)

  datatype Event = Event(pos: int, msg: Msg)

  /** The buffer's ordering rule: sample positions never decrease. */
  predicate Sorted(es: seq<Event>)
  {
    forall i, j :: 0 <= i < j < |es| ==> es[i].pos <= es[j].pos
  }

  /** The index of the first event at or after `from` whose position is
      later than p, or |es| if there is none. */
  function EventAfter(es: seq<Event>, from: nat, p: int): (k: nat)
    requires from <= |es|
    ensures from <= k <= |es|
    decreases |es| - from
  {
    if from == |es| || es[from].pos > p then from else EventAfter(es, from + 1, p)
  }

  /** The scan passes only events at or before p and stops at one later
      than p. */
  lemma {:induction false} EventAfterSplits(es: seq<Event>, from: nat, p: int)
    requires from <= |es|
    ensures forall i :: from <= i < EventAfter(es, from, p) ==> es[i].pos <= p
    ensures EventAfter(es, from, p) < |es| ==> es[EventAfter(es, from, p)].pos > p
    decreases |es| - from
  {
    if from < |es| && es[from].pos <= p {
      EventAfterSplits(es, from + 1, p);
    }
  }

  /** In a sorted buffer the scan stops at the boundary: the events it
      passes are at or before p and every event from the returned index on
      is later than p. */
  lemma SortedAfter(es: seq<Event>, from: nat, p: int)
    requires from <= |es| && Sorted(es)
    ensures forall i :: from <= i < EventAfter(es, from, p) ==> es[i].pos <= p
    ensures forall i :: EventAfter(es, from, p) <= i < |es| ==> es[i].pos > p
  {
    EventAfterSplits(es, from, p);
  }

  /** The events of es before every event at position p, then an event at
      p, then the rest: the new event goes after the ones already at p. */
  function Insert(es: seq<Event>, e: Event): seq<Event>
  {
    var k := EventAfter(es, 0, e.pos);
    es[..k] + [e] + es[k..]
  }

  /** Inserting adds exactly the one event, at the index the scan finds,
      after every event at or before its position, and leaves the order of
      the others as it was. */
  lemma InsertPlaces(es: seq<Event>, e: Event)
    ensures var r := Insert(es, e); var k := EventAfter(es, 0, e.pos);
      |r| == |es| + 1 && r[k] == e && r[..k] + r[k + 1..] == es &&
      (forall i :: 0 <= i < k ==> r[i].pos <= e.pos)
  {
    var k := EventAfter(es, 0, e.pos);
    var r := Insert(es, e);
    var a, b := es[..k], es[k..];
    assert es == a + b;
    assert r[..k] == a && r[k + 1..] == b;
    EventAfterSplits(es, 0, e.pos);
    assert forall i :: 0 <= i < k ==> r[i] == es[i];
  }

  /** Inserting adds the one event and keeps every other. */
  lemma InsertCounts(es: seq<Event>, e: Event)
    ensures multiset(Insert(es, e)) == multiset(es) + multiset{e}
  {
    var k := EventAfter(es, 0, e.pos);
    var a, b := es[..k], es[k..];
    assert es == a + b;
    assert Insert(es, e) == a + [e] + b;
  }

  /** In a sorted buffer every event after the inserted one is later than
      it. */
  lemma InsertBefore(es: seq<Event>, e: Event)
    requires Sorted(es)
    ensures var r := Insert(es, e); var k := EventAfter(es, 0, e.pos);
      forall i :: k < i < |r| ==> r[i].pos > e.pos
  {
    var k := EventAfter(es, 0, e.pos);
    SortedAfter(es, 0, e.pos);
    var r := Insert(es, e);
    forall i | k < i < |r|
      ensures r[i].pos > e.pos
    {
      assert r[i] == es[k..][i - k - 1];
    }
  }

  /** Inserting keeps a buffer sorted. */
  lemma InsertSorted(es: seq<Event>, e: Event)
    requires Sorted(es)
    ensures Sorted(Insert(es, e))
  {
    var k := EventAfter(es, 0, e.pos);
    SortedAfter(es, 0, e.pos);
    var r := Insert(es, e);
    assert forall i :: 0 <= i < k ==> r[i] == es[i];
    assert forall i :: k < i < |r| ==> r[i] == es[i - 1];
    forall i, j | 0 <= i < j < |r|
      ensures r[i].pos <= r[j].pos
    {
      if j < k {
      } else if i < k && j == k {
      } else if i < k {
        assert es[i].pos <= es[j - 1].pos;
      } else if i == k {
      } else {
        assert es[i - 1].pos <= es[j - 1].pos;
      }
    }
  }

  /** An event moved by d samples. */
  function Moved(e: Event, d: int): Event
  {
    Event(e.pos + d, e.msg)
  }

  /** The buffer after the events xs, each moved by d samples, are added one
      after another. */
  function InsertAll(es: seq<Event>, xs: seq<Event>, d: int): seq<Event>
    decreases |xs|
  {
    if xs == [] then es else Insert(InsertAll(es, xs[..|xs| - 1], d), Moved(xs[|xs| - 1], d))
  }

  /** Adding several events keeps the buffer sorted and adds exactly them,
      moved. */
  lemma {:induction false} InsertAllProperties(es: seq<Event>, xs: seq<Event>, d: int)
    requires Sorted(es)
    ensures Sorted(InsertAll(es, xs, d))
    ensures multiset(InsertAll(es, xs, d)) == multiset(es) + multiset(Shift(xs, d))
    decreases |xs|
  {
    if xs != [] {
      var init, last := xs[..|xs| - 1], Moved(xs[|xs| - 1], d);
      ShiftSnoc(xs, d);
      assert multiset(Shift(xs, d)) == multiset(Shift(init, d)) + multiset{last};
      InsertAllProperties(es, init, d);
      InsertCounts(InsertAll(es, init, d), last);
      InsertSorted(InsertAll(es, init, d), last);
    }
  }

  /** The events of es outside [start, start + n), in order. */
  function Outside(es: seq<Event>, start: int, n: int): (r: seq<Event>)
    ensures |r| <= |es|
    decreases |es|
  {
    if es == [] then []
    else
      var head := if start <= es[0].pos < start + n then [] else [es[0]];
      head + Outside(es[1..], start, n)
  }

  lemma {:induction false} OutsideAppend(a: seq<Event>, b: seq<Event>, start: int, n: int)
    ensures Outside(a + b, start, n) == Outside(a, start, n) + Outside(b, start, n)
    decreases |a|
  {
    if a == [] {
      assert a + b == b;
    } else {
      var ab := a + b;
      assert ab[0] == a[0] && ab[1..] == a[1..] + b;
      OutsideAppend(a[1..], b, start, n);
      var head := if start <= a[0].pos < start + n then [] else [a[0]];
      calc {
        Outside(ab, start, n);
        head + Outside(a[1..] + b, start, n);
        head + (Outside(a[1..], start, n) + Outside(b, start, n));
        (head + Outside(a[1..], start, n)) + Outside(b, start, n);
      }
    }
  }

  /** Outside keeps a run of events none of which is in the range, and drops
      a run all of which are. */
  lemma {:induction false} OutsideAll(es: seq<Event>, lo: nat, hi: nat, start: int, n: int, inside: bool)
    requires lo <= hi <= |es|
    requires forall k :: lo <= k < hi ==> (start <= es[k].pos < start + n <==> inside)
    ensures Outside(es[lo..hi], start, n) == if inside then [] else es[lo..hi]
    decreases hi - lo
  {
    if lo < hi {
      OutsideAll(es, lo + 1, hi, start, n, inside);
      var s := es[lo..hi];
      assert s[0] == es[lo] && s[1..] == es[lo + 1..hi];
      assert s == [es[lo]] + es[lo + 1..hi];
    }
  }

  /** `clear(start, n)` keeps an event exactly when it lies outside the
      range. */
  lemma {:induction false} OutsideMembers(es: seq<Event>, start: int, n: int, e: Event)
    ensures e in Outside(es, start, n) <==> e in es && !(start <= e.pos < start + n)
    decreases |es|
  {
    if es != [] {
      OutsideMembers(es[1..], start, n, e);
      assert es == [es[0]] + es[1..];
    }
  }

  /** Removing the middle block of a buffer split into the events before
      [start, start + n), inside it and after it removes exactly the events
      inside. */
  lemma OutsideBlocks(es: seq<Event>, i: nat, j: nat, start: int, n: int)
    requires i <= j <= |es|
    requires forall k :: 0 <= k < i ==> es[k].pos < start
    requires forall k :: i <= k < j ==> start <= es[k].pos < start + n
    requires forall k :: j <= k < |es| ==> es[k].pos >= start + n
    ensures es[..i] + es[j..] == Outside(es, start, n)
  {
    var a, b, c := es[0..i], es[i..j], es[j..|es|];
    OutsideAll(es, 0, i, start, n, false);
    OutsideAll(es, i, j, start, n, true);
    OutsideAll(es, j, |es|, start, n, false);
    OutsideThree(a, b, c, start, n);
    SplitThree(es, i, j);
  }

  /** A sequence is its three consecutive slices. */
  lemma SplitThree(es: seq<Event>, i: nat, j: nat)
    requires i <= j <= |es|
    ensures es == es[0..i] + es[i..j] + es[j..|es|]
    ensures es[..i] == es[0..i] && es[j..] == es[j..|es|]
  {
    assert es[0..i] + es[i..j] == es[..j];
  }

  lemma OutsideThree(a: seq<Event>, b: seq<Event>, c: seq<Event>, start: int, n: int)
    requires Outside(a, start, n) == a && Outside(b, start, n) == [] && Outside(c, start, n) == c
    ensures Outside(a + b + c, start, n) == a + c
  {
    OutsideAppend(a + b, c, start, n);
    OutsideAppend(a, b, start, n);
    assert a + [] == a;
  }

  /** Cutting a block out of a sorted buffer leaves it sorted. */
  lemma SortedCut(es: seq<Event>, i: nat, j: nat)
    requires i <= j <= |es| && Sorted(es)
    ensures Sorted(es[..i] + es[j..])
  {
    var r := es[..i] + es[j..];
    assert forall k :: 0 <= k < |r| ==> r[k] == if k < i then es[k] else es[k - i + j];
  }

  /** In a sorted buffer the events inside [start, start + n) form one block,
      found by two scans: removing that block is removing exactly those
      events. */
  lemma ClearBlock(es: seq<Event>, start: int, n: int)
    requires Sorted(es)
    ensures var i := EventAfter(es, 0, start - 1); var j := EventAfter(es, i, start + n - 1);
      es[..i] + es[j..] == Outside(es, start, n)
  {
    var i := EventAfter(es, 0, start - 1);
    var j := EventAfter(es, i, start + n - 1);
    SortedAfter(es, 0, start - 1);
    SortedAfter(es, i, start + n - 1);
    OutsideBlocks(es, i, j, start, n);
  }

  /** The events `addEvents` takes from a source buffer: those at or after
      start and, when n is not negative, before start + n, in order. */
  function Window(es: seq<Event>, start: int, n: int): (r: seq<Event>)
    ensures |r| <= |es|
    decreases |es|
  {
    if es == [] then []
    else
      var head := if start <= es[0].pos && (n < 0 || es[0].pos < start + n) then [es[0]] else [];
      head + Window(es[1..], start, n)
  }

  /** The events es, each moved by d samples. */
  function Shift(es: seq<Event>, d: int): (r: seq<Event>)
    ensures |r| == |es|
    ensures forall i :: 0 <= i < |es| ==> r[i] == Moved(es[i], d)
  {
    seq(|es|, i requires 0 <= i < |es| => Moved(es[i], d))
  }

  lemma ShiftSnoc(xs: seq<Event>, d: int)
    requires xs != []
    ensures Shift(xs, d) == Shift(xs[..|xs| - 1], d) + [Moved(xs[|xs| - 1], d)]
  {
  }

  /** es after inserting the source events src[i..j], each moved by d, one
      after another, by index. */
  function InsertFrom(es: seq<Event>, src: seq<Event>, i: nat, j: nat, d: int): seq<Event>
    requires i <= j <= |src|
    decreases j - i
  {
    if j == i then es else Insert(InsertFrom(es, src, i, j - 1, d), Moved(src[j - 1], d))
  }

  /** Inserting src[i..j] by index is inserting that slice. */
  lemma {:induction false} InsertFromSlice(es: seq<Event>, src: seq<Event>, i: nat, j: nat, d: int)
    requires i <= j <= |src|
    ensures InsertFrom(es, src, i, j, d) == InsertAll(es, src[i..j], d)
    decreases j - i
  {
    if j > i {
      InsertFromSlice(es, src, i, j - 1, d);
      var xs := src[i..j];
      assert xs[..|xs| - 1] == src[i..j - 1] && xs[|xs| - 1] == src[j - 1];
    }
  }

  lemma {:induction false} WindowAppend(a: seq<Event>, b: seq<Event>, start: int, n: int)
    ensures Window(a + b, start, n) == Window(a, start, n) + Window(b, start, n)
    decreases |a|
  {
    if a == [] {
      assert a + b == b;
    } else {
      var ab := a + b;
      assert ab[0] == a[0] && ab[1..] == a[1..] + b;
      WindowAppend(a[1..], b, start, n);
      var head := if start <= a[0].pos && (n < 0 || a[0].pos < start + n) then [a[0]] else [];
      calc {
        Window(ab, start, n);
        head + Window(a[1..] + b, start, n);
        head + (Window(a[1..], start, n) + Window(b, start, n));
        (head + Window(a[1..], start, n)) + Window(b, start, n);
      }
    }
  }

  lemma {:induction false} WindowAll(es: seq<Event>, lo: nat, hi: nat, start: int, n: int, inside: bool)
    requires lo <= hi <= |es|
    requires forall k :: lo <= k < hi ==> (start <= es[k].pos && (n < 0 || es[k].pos < start + n) <==> inside)
    ensures Window(es[lo..hi], start, n) == if inside then es[lo..hi] else []
    decreases hi - lo
  {
    if lo < hi {
      WindowAll(es, lo + 1, hi, start, n, inside);
      var s := es[lo..hi];
      assert s[0] == es[lo] && s[1..] == es[lo + 1..hi];
      assert s == [es[lo]] + es[lo + 1..hi];
    }
  }

  /** The window holds exactly the source events in the range. */
  lemma {:induction false} WindowMembers(es: seq<Event>, start: int, n: int, e: Event)
    ensures e in Window(es, start, n) <==> e in es && start <= e.pos && (n < 0 || e.pos < start + n)
    decreases |es|
  {
    if es != [] {
      WindowMembers(es[1..], start, n, e);
      assert es == [es[0]] + es[1..];
    }
  }

  /** The window of a source split into the events before it, inside it
      and after it is the middle block. */
  lemma WindowBlocks(es: seq<Event>, i: nat, j: nat, start: int, n: int)
    requires i <= j <= |es|
    requires forall k :: 0 <= k < i ==> es[k].pos < start
    requires forall k :: i <= k < j ==> start <= es[k].pos && (n < 0 || es[k].pos < start + n)
    requires forall k :: j <= k < |es| ==> !(start <= es[k].pos && (n < 0 || es[k].pos < start + n))
    ensures es[i..j] == Window(es, start, n)
  {
    var a, b, c := es[0..i], es[i..j], es[j..|es|];
    WindowAll(es, 0, i, start, n, false);
    WindowAll(es, i, j, start, n, true);
    WindowAll(es, j, |es|, start, n, false);
    WindowThree(a, b, c, start, n);
    SplitThree(es, i, j);
  }

  lemma WindowThree(a: seq<Event>, b: seq<Event>, c: seq<Event>, start: int, n: int)
    requires Window(a, start, n) == [] && Window(b, start, n) == b && Window(c, start, n) == []
    ensures Window(a + b + c, start, n) == b
  {
    WindowAppend(a + b, c, start, n);
    WindowAppend(a, b, start, n);
    assert [] + b + [] == b;
  }

  /** In a sorted source the window is the block from the first event at or
      after start up to the first event the range excludes. */
  lemma WindowBlock(es: seq<Event>, start: int, n: int, j: nat)
    requires Sorted(es)
    requires EventAfter(es, 0, start - 1) <= j <= |es|
    requires EventAfter(es, 0, start - 1) < j ==> n < 0 || es[j - 1].pos < start + n
    requires j < |es| ==> !(n < 0 || es[j].pos < start + n)
    ensures es[EventAfter(es, 0, start - 1)..j] == Window(es, start, n)
  {
    var i := EventAfter(es, 0, start - 1);
    SortedAfter(es, 0, start - 1);
    assert forall k :: i <= k < j ==> es[k].pos <= es[j - 1].pos;
    assert forall k :: j <= k < |es| ==> es[j].pos <= es[k].pos;
    WindowBlocks(es, i, j, start, n);
  }

  // ---------------------------------------------------------------------

  class MidiBuffer {
    var events: seq<Event>

    ghost predicate Valid()
      reads this
    {
      Sorted(events)
    }

    /** An empty buffer. */
    constructor ()
      ensures Valid() && events == []
    {
      events := [];
    }

    /** `clear()`: removes all events. */
    method Clear()
      modifies this
      ensures Valid() && events == []
    {
      events := [];
    }

    /** The private `findEventAfter`: from index `from`, skips every event at
        or before position p. */
    method FindEventAfter(from: nat, p: int) returns (k: nat)
      requires from <= |events|
      ensures k == EventAfter(events, from, p)
    {
      k := from;
      while k < |events| && events[k].pos <= p
        invariant from <= k <= |events|
        invariant EventAfter(events, k, p) == EventAfter(events, from, p)
        decreases |events| - k
      {
        k := k + 1;
      }
    }

    /** `clear(start, numSamples)`: removes exactly the events with
        start <= position < start + numSamples and keeps the others in
        order. */
    method ClearRange(start: int, numSamples: int)
      requires Valid()
      modifies this
      ensures Valid() && events == Outside(old(events), start, numSamples)
    {
      ClearBlock(events, start, numSamples);
      var i := FindEventAfter(0, start - 1);
      var j := FindEventAfter(i, start + numSamples - 1);
      SortedCut(events, i, j);
      events := events[..i] + events[j..];
    }

    function IsEmpty(): (b: bool)
      reads this
      ensures b <==> events == []
    {
      |events| == 0
    }

    function GetNumEvents(): (n: int)
      reads this
      ensures n == |events|
    {
      |events|
    }

    /** `addEvent`: the new event goes after every event at or before its
        sample number. */
    method AddEvent(m: Msg, sampleNumber: int)
      requires Valid()
      modifies this
      ensures Valid() && events == Insert(old(events), Event(sampleNumber, m))
    {
      InsertSorted(events, Event(sampleNumber, m));
      var k := FindEventAfter(0, sampleNumber);
      events := events[..k] + [Event(sampleNumber, m)] + events[k..];
    }

    /** `addEvents`: adds the other buffer's events in the window given by
        startSample and numSamples (all from startSample on when numSamples
        is negative), shifted by sampleDeltaToAdd, one after another.  The
        other buffer is read through an iterator while this one changes, so
        the two must be different buffers. */
    method AddEvents(other: MidiBuffer, startSample: int, numSamples: int, sampleDeltaToAdd: int)
      requires Valid() && other.Valid() && other != this
      modifies this
      ensures Valid()
      ensures events == InsertAll(old(events), Window(other.events, startSample, numSamples), sampleDeltaToAdd)
    {
      var i := other.FindEventAfter(0, startSample - 1);
      var j := AddWindow(other.events, i, startSample, numSamples, sampleDeltaToAdd);
      WindowBlock(other.events, startSample, numSamples, j);
      InsertFromSlice(old(events), other.events, i, j, sampleDeltaToAdd);
    }

    /** The loop of `addEvents` over a copy src of the source events: from
        index i on, add each one, shifted, until one lies beyond the window;
        j is where it stops. */
    method AddWindow(src: seq<Event>, i: nat, startSample: int, numSamples: int, sampleDeltaToAdd: int)
      returns (j: nat)
      requires Valid() && i <= |src|
      modifies this
      ensures i <= j <= |src|
      ensures i < j ==> numSamples < 0 || src[j - 1].pos < startSample + numSamples
      ensures j < |src| ==> !(numSamples < 0 || src[j].pos < startSample + numSamples)
      ensures Valid() && events == InsertFrom(old(events), src, i, j, sampleDeltaToAdd)
    {
      ghost var es0 := events;
      j := i;
      while j < |src| && (numSamples < 0 || src[j].pos < startSample + numSamples)
        invariant i <= j <= |src|
        invariant i < j ==> numSamples < 0 || src[j - 1].pos < startSample + numSamples
        invariant Valid() && events == InsertFrom(es0, src, i, j, sampleDeltaToAdd)
        decreases |src| - j
      {
        AddEvent(src[j].msg, src[j].pos + sampleDeltaToAdd);
        j := j + 1;
      }
    }

    /** `getFirstEventTime`: the earliest position, 0 for an empty buffer. */
    function GetFirstEventTime(): (t: int)
      reads this
      requires Valid()
      ensures events == [] ==> t == 0
      ensures events != [] ==> Event(t, events[0].msg) in events && forall e :: e in events ==> t <= e.pos
    {
      if |events| == 0 then 0 else events[0].pos
    }

    /** `getLastEventTime`: the latest position, 0 for an empty buffer. */
    function GetLastEventTime(): (t: int)
      reads this
      requires Valid()
      ensures events == [] ==> t == 0
      ensures events != [] ==> Event(t, events[|events| - 1].msg) in events && forall e :: e in events ==> e.pos <= t
    {
      if |events| == 0 then 0 else events[|events| - 1].pos
    }

    /** `swapWith`: the two buffers exchange their events. */
    method SwapWith(other: MidiBuffer)
      modifies this, other
      ensures events == old(other.events) && other.events == old(events)
    {
      var mine := events;
      events := other.events;
      other.events := mine;
    }
  }

  /** The `Iterator` of a buffer: the index of the next event to hand out. */
  class MidiIterator {
    const buffer: MidiBuffer
    var next: nat

    ghost predicate Valid()
      reads this, buffer
    {
      buffer.Valid() && next <= |buffer.events|
    }

    constructor (buffer: MidiBuffer)
      requires buffer.Valid()
      ensures Valid() && this.buffer == buffer && next == 0
    {
      this.buffer := buffer;
      next := 0;
    }

    /** `setNextSamplePosition`: the next event handed out is the first one
        at or after the position, or none if every event is earlier. */
    method SetNextSamplePosition(samplePosition: int)
      requires Valid()
      modifies this
      ensures Valid() && next == EventAfter(buffer.events, 0, samplePosition - 1)
      ensures forall i :: 0 <= i < next ==> buffer.events[i].pos < samplePosition
      ensures forall i :: next <= i < |buffer.events| ==> buffer.events[i].pos >= samplePosition
    {
      SortedAfter(buffer.events, 0, samplePosition - 1);
      next := buffer.FindEventAfter(0, samplePosition - 1);
    }

    /** `getNextEvent`: hands out the next event and moves past it, or
        reports that the end of the buffer is reached. */
    method GetNextEvent() returns (found: bool, result: Msg, samplePosition: int)
      requires Valid()
      modifies this
      ensures Valid()
      ensures found <==> old(next) < |buffer.events|
      ensures found ==> Event(samplePosition, result) == buffer.events[old(next)] && next == old(next) + 1
      ensures !found ==> next == old(next)
    {
      if next < |buffer.events| {
        var e := buffer.events[next];
        found, result, samplePosition := true, e.msg, e.pos;
        next := next + 1;
      } else {
        found, result, samplePosition := false, Msg([]), 0;
      }
    }
  }

  /** Positioning an iterator and then asking for an event yields the first
      event at or after the position, or nothing if there is none. */
  lemma SeekThenNext(es: seq<Event>, p: int)
    requires Sorted(es)
    ensures var k := EventAfter(es, 0, p - 1);
      (k < |es| <==> exists e :: e in es && e.pos >= p) &&
      (k < |es| ==> es[k].pos >= p && forall i :: 0 <= i < k ==> es[i].pos < p)
  {
    var k := EventAfter(es, 0, p - 1);
    SortedAfter(es, 0, p - 1);
    if k < |es| {
      assert es[k] in es;
    }
  }
}
