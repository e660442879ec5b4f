/**
 The notification replay buffer: a deque bounded by entry count and by bytes, and
 the cursor paging that reads it.
 */
module Replay {
  import opened Wrappers

  datatype Entry<+P> = Entry(eventId: nat, payload: P, bytes: nat)

  // ---- what the buffer should hold ----

  function TotalBytes<P>(entries: seq<Entry<P>>): nat {
    if entries == [] then 0 else entries[0].bytes + TotalBytes(entries[1..])
  }

  predicate Fits<P>(entries: seq<Entry<P>>, capacity: nat, maxBytes: nat) {
    |entries| <= capacity && TotalBytes(entries) <= maxBytes
  }

  /** Dropping the n oldest entries leaves the longest suffix that fits. */
  ghost predicate LongestFitting<P>(history: seq<Entry<P>>, n: nat, capacity: nat, maxBytes: nat) {
    && n <= |history|
    && Fits(history[n..], capacity, maxBytes)
    && forall m :: 0 <= m < n ==> !Fits(history[m..], capacity, maxBytes)
  }

  ghost predicate Increasing<P>(entries: seq<Entry<P>>) {
    forall i, j :: 0 <= i < j < |entries| ==> entries[i].eventId < entries[j].eventId
  }

  lemma {:induction false} TotalBytesAppend<P>(a: seq<Entry<P>>, b: seq<Entry<P>>)
    ensures TotalBytes(a + b) == TotalBytes(a) + TotalBytes(b)
  {
    if a == [] {
      assert a + b == b;
    } else {
      assert (a + b)[1..] == a[1..] + b;
      TotalBytesAppend(a[1..], b);
    }
  }

  lemma TotalBytesSplit<P>(entries: seq<Entry<P>>)
    requires entries != []
    ensures TotalBytes(entries) == entries[0].bytes + TotalBytes(entries[1..])
    ensures |entries| == 1 ==> TotalBytes(entries) == entries[0].bytes
  {
  }

  /** The longest fitting suffix is one suffix: the number of dropped entries is determined. */
  lemma LongestFittingUnique<P>(history: seq<Entry<P>>, n: nat, m: nat, capacity: nat, maxBytes: nat)
    requires LongestFitting(history, n, capacity, maxBytes)
    requires LongestFitting(history, m, capacity, maxBytes)
    ensures n == m
  {
  }

  /** A suffix that did not fit does not fit with one more entry behind it. */
  lemma GrowingNeverFits<P>(history: seq<Entry<P>>, m: nat, e: Entry<P>, capacity: nat, maxBytes: nat)
    requires m <= |history| && !Fits(history[m..], capacity, maxBytes)
    ensures !Fits((history + [e])[m..], capacity, maxBytes)
  {
    assert (history + [e])[m..] == history[m..] + [e];
    TotalBytesAppend(history[m..], [e]);
  }

  /** The buffer of `replay.rs`. */
  class NotificationReplay<P> {
    const capacity: nat
    const maxBytes: nat
    var entries: seq<Entry<P>>
    var droppedOversize: nat
    var evicted: nat
    /** Every notification the buffer admitted, oldest first. */
    ghost var admitted: seq<Entry<P>>

    ghost predicate Valid()
      reads this
    {
      && LongestFitting(admitted, evicted, capacity, maxBytes)
      && entries == admitted[evicted..]
      && (admitted != [] ==> entries != [])
    }

    constructor (capacity: nat, maxBytes: nat)
      ensures Valid() && admitted == [] && droppedOversize == 0 && evicted == 0
      ensures this.capacity == capacity && this.maxBytes == maxBytes
    {
      this.capacity, this.maxBytes := capacity, maxBytes;
      entries, droppedOversize, evicted, admitted := [], 0, 0, [];
    }

    /** Whether a notification can be stored at all. */
    predicate Storable(bytes: nat) {
      capacity > 0 && bytes <= maxBytes
    }

    method Push(eventId: nat, payload: P, bytes: nat)
      requires Valid()
      modifies this
      ensures Valid()
      ensures !Storable(bytes) ==> admitted == old(admitted) && entries == old(entries)
                                   && droppedOversize == old(droppedOversize) + 1
      ensures Storable(bytes) ==> admitted == old(admitted) + [Entry(eventId, payload, bytes)]
                                  && droppedOversize == old(droppedOversize)
                                  && entries != [] && entries[|entries| - 1] == Entry(eventId, payload, bytes)
      ensures |admitted| == |entries| + evicted
    {
      hide TotalBytes;
      if capacity == 0 || bytes > maxBytes {
        droppedOversize := droppedOversize + 1;
        return;
      }
      var entry := Entry(eventId, payload, bytes);
      ghost var before := admitted;
      entries := entries + [entry];
      admitted := admitted + [entry];
      var totalBytes := TotalBytes(entries);
      forall m | 0 <= m < evicted ensures !Fits(admitted[m..], capacity, maxBytes) {
        GrowingNeverFits(before, m, entry, capacity, maxBytes);
      }
      while |entries| > capacity || totalBytes > maxBytes
        invariant admitted == before + [entry] && droppedOversize == old(droppedOversize)
        invariant evicted < |admitted|
        invariant entries == admitted[evicted..] && totalBytes == TotalBytes(entries)
        invariant forall m :: 0 <= m < evicted ==> !Fits(admitted[m..], capacity, maxBytes)
        decreases |entries|
      {
        // The newest entry alone is within both bounds, so the one removed is an older one.
        assert entries[|entries| - 1] == entry;
        TotalBytesSplit(entries);
        var removed := entries[0];
        entries := entries[1..];
        totalBytes := if totalBytes < removed.bytes then 0 else totalBytes - removed.bytes;
        evicted := evicted + 1;
      }
    }

    method Since(afterEventId: Option<nat>, limit: nat, maxResponse: nat)
      returns (events: seq<P>, hasMore: bool, responseBytes: nat)
      ensures var rest := After(entries, if afterEventId.Some? then afterEventId.value else 0);
              && IsPage(rest, |events|, limit, maxResponse)
              && events == Payloads(rest[..|events|])
              && responseBytes == TotalBytes(rest[..|events|])
              && (hasMore <==> |events| < |rest|)
    {
      hide After, TotalBytes, Payloads;
      var cursor := Cursor(afterEventId);
      NothingTaken(entries, cursor);
      events, hasMore, responseBytes := [], false, 0;
      ghost var taken: seq<Entry<P>> := [];
      var i := 0;
      while i < |entries|
        invariant i <= |entries| && !hasMore
        invariant taken == After(entries[..i], cursor) && events == Payloads(taken)
        invariant |events| == |taken| <= limit && responseBytes == TotalBytes(taken) <= maxResponse
        invariant taken <= After(entries, cursor)
      {
        var entry := entries[i];
        TakeNext(entries, i, cursor);
        if entry.eventId > cursor {
          if |events| >= limit || responseBytes + entry.bytes > maxResponse {
            hasMore := true;
            assert After(entries, cursor)[..|taken|] == taken;
            assert After(entries, cursor)[|taken|] == (taken + [entry])[|taken|];
            return;
          }
          taken := taken + [entry];
          events := events + [entry.payload];
          responseBytes := responseBytes + entry.bytes;
        }
        i := i + 1;
      }
      assert entries[..i] == entries && taken[..|taken|] == taken;
    }

    method EarliestEventId() returns (id: Option<nat>)
      ensures id == if entries == [] then None else Some(entries[0].eventId)
    {
      if entries == [] {
        id := None;
      } else {
        id := Some(entries[0].eventId);
      }
    }
  }

  // ---- what paging reads ----

  function Cursor(afterEventId: Option<nat>): nat {
    match afterEventId
    case None => 0
    case Some(id) => id
  }

  /** The entries behind a cursor, in order. */
  function After<P>(entries: seq<Entry<P>>, cursor: nat): (rest: seq<Entry<P>>)
    ensures |rest| <= |entries|
  {
    if entries == [] then []
    else (if entries[0].eventId > cursor then [entries[0]] else []) + After(entries[1..], cursor)
  }

  function Payloads<P>(entries: seq<Entry<P>>): (r: seq<P>)
    ensures |r| == |entries| && forall i :: 0 <= i < |r| ==> r[i] == entries[i].payload
  {
    if entries == [] then [] else [entries[0].payload] + Payloads(entries[1..])
  }

  /** k entries are a full page of rest: within both bounds, and stopped only by one of them. */
  predicate IsPage<P>(rest: seq<Entry<P>>, k: nat, limit: nat, maxResponse: nat) {
    && k <= |rest| && k <= limit
    && TotalBytes(rest[..k]) <= maxResponse
    && (k < |rest| ==> k == limit || TotalBytes(rest[..k]) + rest[k].bytes > maxResponse)
  }

  lemma {:induction false} AfterAppend<P>(a: seq<Entry<P>>, b: seq<Entry<P>>, cursor: nat)
    ensures After(a + b, cursor) == After(a, cursor) + After(b, cursor)
  {
    if a == [] {
      assert a + b == b;
    } else {
      assert (a + b)[1..] == a[1..] + b;
      AfterAppend(a[1..], b, cursor);
    }
  }

  lemma {:induction false} PayloadsAppend<P>(a: seq<Entry<P>>, b: seq<Entry<P>>)
    ensures Payloads(a + b) == Payloads(a) + Payloads(b)
  {
    if a == [] {
      assert a + b == b;
    } else {
      assert (a + b)[1..] == a[1..] + b;
      PayloadsAppend(a[1..], b);
    }
  }

  lemma NothingTaken<P>(entries: seq<Entry<P>>, cursor: nat)
    ensures After(entries[..0], cursor) == [] && Payloads<P>([]) == [] && TotalBytes<P>([]) == 0
  {
  }

  /** What looking at one more entry adds to the part taken so far. */
  lemma TakeNext<P>(entries: seq<Entry<P>>, i: nat, cursor: nat)
    requires i < |entries|
    ensures var taken, next := After(entries[..i], cursor), After(entries[..i + 1], cursor);
            && next == (if entries[i].eventId > cursor then taken + [entries[i]] else taken)
            && next <= After(entries, cursor)
            && Payloads(taken + [entries[i]]) == Payloads(taken) + [entries[i].payload]
            && TotalBytes(taken + [entries[i]]) == TotalBytes(taken) + entries[i].bytes
  {
    assert entries[..i + 1] == entries[..i] + [entries[i]];
    AfterAppend(entries[..i], [entries[i]], cursor);
    assert entries == entries[..i + 1] + entries[i + 1..];
    AfterAppend(entries[..i + 1], entries[i + 1..], cursor);
    PayloadsAppend(After(entries[..i], cursor), [entries[i]]);
    TotalBytesAppend(After(entries[..i], cursor), [entries[i]]);
  }

  /** When the first entry is behind the cursor, all are. */
  lemma {:induction false} AfterAll<P>(entries: seq<Entry<P>>, cursor: nat)
    requires forall i :: 0 <= i < |entries| ==> entries[i].eventId > cursor
    ensures After(entries, cursor) == entries
  {
    if entries != [] {
      AfterAll(entries[1..], cursor);
      assert entries == [entries[0]] + entries[1..];
    }
  }

  lemma AfterSkip<P>(entries: seq<Entry<P>>, cursor: nat)
    requires entries != [] && entries[0].eventId <= cursor
    ensures After(entries, cursor) == After(entries[1..], cursor)
  {
    assert [] + After(entries[1..], cursor) == After(entries[1..], cursor);
  }

  /** In a buffer with increasing ids the entries behind a cursor are a suffix. */
  lemma {:induction false} AfterIsSuffix<P>(entries: seq<Entry<P>>, cursor: nat) returns (from: nat)
    requires Increasing(entries)
    ensures from <= |entries| && After(entries, cursor) == entries[from..]
    ensures forall i :: 0 <= i < |entries| ==> (i >= from <==> entries[i].eventId > cursor)
  {
    if entries == [] || entries[0].eventId > cursor {
      AfterAll(entries, cursor);
      from := 0;
    } else {
      AfterSkip(entries, cursor);
      hide After;
      var tail := AfterIsSuffix(entries[1..], cursor);
      from := tail + 1;
      assert entries[1..][tail..] == entries[from..];
      forall i | 0 <= i < |entries| ensures i >= from <==> entries[i].eventId > cursor {
        assert i > 0 ==> entries[i] == entries[1..][i - 1];
      }
    }
  }

  /** The size of the page `Since` returns: it is the only one. */
  function PageSize<P>(rest: seq<Entry<P>>, limit: nat, maxResponse: nat): (k: nat)
    ensures IsPage(rest, k, limit, maxResponse)
  {
    if rest == [] || limit == 0 || rest[0].bytes > maxResponse then 0
    else
      var k := 1 + PageSize(rest[1..], limit - 1, maxResponse - rest[0].bytes);
      assert rest[..k][1..] == rest[1..][..k - 1];
      k
  }

  lemma {:induction false} TotalBytesMonotone<P>(rest: seq<Entry<P>>, i: nat, j: nat)
    requires i <= j <= |rest|
    ensures TotalBytes(rest[..i]) <= TotalBytes(rest[..j])
    ensures i < j ==> TotalBytes(rest[..i]) + rest[i].bytes <= TotalBytes(rest[..j])
  {
    assert rest[..j] == rest[..i] + rest[i..j];
    TotalBytesAppend(rest[..i], rest[i..j]);
  }

  lemma PageUnique<P>(rest: seq<Entry<P>>, k: nat, m: nat, limit: nat, maxResponse: nat)
    requires IsPage(rest, k, limit, maxResponse) && IsPage(rest, m, limit, maxResponse)
    ensures k == m
  {
    if k < m {
      TotalBytesMonotone(rest, k, m);
    } else if m < k {
      TotalBytesMonotone(rest, m, k);
    }
  }

  // ---- reading to the end ----

  /** Every entry fits a response on its own. */
  ghost predicate AllWithin<P>(entries: seq<Entry<P>>, maxResponse: nat) {
    forall i :: 0 <= i < |entries| ==> entries[i].bytes <= maxResponse
  }

  /** A client that reads page after page from the last id returned, until `hasMore` is false. */
  ghost function ReadAll<P>(entries: seq<Entry<P>>, cursor: nat, limit: nat, maxResponse: nat): seq<Entry<P>>
    requires Increasing(entries) && limit >= 1
    requires AllWithin(entries, maxResponse)
    decreases |After(entries, cursor)|
  {
    var rest := After(entries, cursor);
    var k := PageSize(rest, limit, maxResponse);
    if k == |rest| then rest
    else
      PageAdvances(entries, cursor, limit, maxResponse);
      rest[..k] + ReadAll(entries, rest[k - 1].eventId, limit, maxResponse)
  }

  lemma PageNotEmpty<P>(rest: seq<Entry<P>>, limit: nat, maxResponse: nat)
    requires rest != [] && limit >= 1 && rest[0].bytes <= maxResponse
    ensures 0 < PageSize(rest, limit, maxResponse) <= |rest|
  {
  }

  /** Behind an entry of an increasing sequence come exactly the entries after it. */
  lemma AfterEntry<P>(entries: seq<Entry<P>>, i: nat)
    requires Increasing(entries) && i < |entries|
    ensures After(entries, entries[i].eventId) == entries[i + 1..]
  {
    hide After;
    var next := AfterIsSuffix(entries, entries[i].eventId);
    assert i < next;
    assert i + 1 < |entries| ==> entries[i].eventId < entries[i + 1].eventId;
  }

  /** A page of a non-exhausted read is not empty, and reading goes on right behind it. */
  lemma PageAdvances<P>(entries: seq<Entry<P>>, cursor: nat, limit: nat, maxResponse: nat)
    requires Increasing(entries) && limit >= 1
    requires AllWithin(entries, maxResponse)
    requires After(entries, cursor) != []
    ensures var rest := After(entries, cursor);
            var k := PageSize(rest, limit, maxResponse);
            0 < k <= |rest| && After(entries, rest[k - 1].eventId) == rest[k..]
  {
    hide After, PageSize, TotalBytes;
    var rest := After(entries, cursor);
    var from := AfterIsSuffix(entries, cursor);
    assert rest[0] == entries[from];
    PageNotEmpty(rest, limit, maxResponse);
    var k := PageSize(rest, limit, maxResponse);
    assert rest[k - 1] == entries[from + k - 1];
    hide AllWithin, Increasing;
    AfterEntry(entries, from + k - 1);
    assert entries[from..][k..] == entries[from + k..];
  }

  /** Paging returns exactly the retained entries behind the cursor, in order, once each. */
  lemma {:induction false} ReadAllIsComplete<P>(entries: seq<Entry<P>>, cursor: nat, limit: nat, maxResponse: nat)
    requires Increasing(entries) && limit >= 1
    requires AllWithin(entries, maxResponse)
    ensures ReadAll(entries, cursor, limit, maxResponse) == After(entries, cursor)
    decreases |After(entries, cursor)|
  {
    hide PageSize, TotalBytes, After;
    var rest := After(entries, cursor);
    var k := PageSize(rest, limit, maxResponse);
    if k < |rest| {
      PageAdvances(entries, cursor, limit, maxResponse);
      ReadAllIsComplete(entries, rest[k - 1].eventId, limit, maxResponse);
      assert rest == rest[..k] + rest[k..];
    }
  }

  // ---- reading while notifications are pushed ----

  /** What the buffer holds at one fetch: the history between two positions. */
  datatype Window = Window(lo: nat, hi: nat)

  ghost predicate WindowsOf<P>(history: seq<Entry<P>>, windows: seq<Window>) {
    forall i :: 0 <= i < |windows| ==> windows[i].lo <= windows[i].hi <= |history|
  }

  ghost function Fetch<P>(history: seq<Entry<P>>, w: Window, cursor: nat, limit: nat, maxResponse: nat): seq<Entry<P>>
    requires w.lo <= w.hi <= |history|
  {
    var rest := After(history[w.lo..w.hi], cursor);
    rest[..PageSize(rest, limit, maxResponse)]
  }

  /** The cursor of a client after a page. */
  function CursorAfter<P>(page: seq<Entry<P>>, cursor: nat): nat {
    if page == [] then cursor else page[|page| - 1].eventId
  }

  /** All that a client receives from one fetch per window, each from the last id it has. */
  ghost function Received<P>(history: seq<Entry<P>>, windows: seq<Window>, cursor: nat, limit: nat, maxResponse: nat)
    : seq<Entry<P>>
    requires WindowsOf(history, windows)
    decreases |windows|
  {
    if windows == [] then []
    else
      var page := Fetch(history, windows[0], cursor, limit, maxResponse);
      page + Received(history, windows[1..], CursorAfter(page, cursor), limit, maxResponse)
  }

  lemma SliceOfSlice<P>(history: seq<Entry<P>>, lo: nat, hi: nat, from: nat, len: nat)
    requires lo <= hi <= |history| && from + len <= hi - lo
    ensures history[lo..hi][from..][..len] == history[lo + from..lo + from + len]
  {
    forall i | 0 <= i < len
      ensures history[lo..hi][from..][..len][i] == history[lo + from..lo + from + len][i]
    {
      assert history[lo..hi][from + i] == history[lo + from + i];
    }
  }

  /** A page is a run of the history, beginning with the first entry held behind the cursor. */
  lemma FetchIsSlice<P>(history: seq<Entry<P>>, w: Window, cursor: nat, limit: nat, maxResponse: nat)
    returns (start: nat, len: nat)
    requires w.lo <= w.hi <= |history| && Increasing(history)
    ensures w.lo <= start && start + len <= w.hi
    ensures Fetch(history, w, cursor, limit, maxResponse) == history[start..start + len]
    ensures forall i :: w.lo <= i < w.hi ==> (i >= start <==> history[i].eventId > cursor)
  {
    hide PageSize, TotalBytes, After;
    var held := history[w.lo..w.hi];
    var from := AfterIsSuffix(held, cursor);
    start, len := w.lo + from, PageSize(held[from..], limit, maxResponse);
    assert held[from..][..len] == history[start..start + len] by {
      SliceOfSlice(history, w.lo, w.hi, from, len);
    }
    forall i | w.lo <= i < w.hi ensures i >= start <==> history[i].eventId > cursor {
      assert held[i - w.lo] == history[i];
    }
  }

  lemma FetchIsIncreasing<P>(history: seq<Entry<P>>, w: Window, cursor: nat, limit: nat, maxResponse: nat)
    requires w.lo <= w.hi <= |history| && Increasing(history)
    ensures var page := Fetch(history, w, cursor, limit, maxResponse);
            && Increasing(page)
            && (forall i :: 0 <= i < |page| ==> cursor < page[i].eventId <= CursorAfter(page, cursor))
  {
    var start, len := FetchIsSlice(history, w, cursor, limit, maxResponse);
    var page := history[start..start + len];
    assert Increasing(page);
  }

  lemma IncreasingConcat<P>(a: seq<Entry<P>>, b: seq<Entry<P>>, between: nat)
    requires Increasing(a) && Increasing(b)
    requires forall i :: 0 <= i < |a| ==> a[i].eventId <= between
    requires forall i :: 0 <= i < |b| ==> between < b[i].eventId
    ensures Increasing(a + b)
  {
  }

  /** Whatever is pushed and evicted between fetches, the ids a client receives strictly increase. */
  lemma {:induction false} ReceivedIsIncreasing<P>(
    history: seq<Entry<P>>, windows: seq<Window>, cursor: nat, limit: nat, maxResponse: nat)
    requires WindowsOf(history, windows) && Increasing(history)
    ensures var got := Received(history, windows, cursor, limit, maxResponse);
            Increasing(got) && forall i :: 0 <= i < |got| ==> got[i].eventId > cursor
    decreases |windows|
  {
    hide Fetch;
    if windows != [] {
      var page := Fetch(history, windows[0], cursor, limit, maxResponse);
      FetchIsIncreasing(history, windows[0], cursor, limit, maxResponse);
      var next := CursorAfter(page, cursor);
      ReceivedIsIncreasing(history, windows[1..], next, limit, maxResponse);
      var more := Received(history, windows[1..], next, limit, maxResponse);
      IncreasingConcat(page, more, next);
    }
  }

  /** A fetch passes over an entry only when it returns it, or when the buffer no longer holds it. */
  lemma FetchSkipsOnlyEvicted<P>(history: seq<Entry<P>>, w: Window, cursor: nat, limit: nat, maxResponse: nat, k: nat)
    requires w.lo <= w.hi <= |history| && Increasing(history) && k < |history|
    requires cursor < history[k].eventId <= CursorAfter(Fetch(history, w, cursor, limit, maxResponse), cursor)
    ensures history[k] in Fetch(history, w, cursor, limit, maxResponse) || k < w.lo
  {
    var start, len := FetchIsSlice(history, w, cursor, limit, maxResponse);
    if k >= w.lo {
      var page := history[start..start + len];
      assert page[len - 1] == history[start + len - 1];
      assert k < start + len;
      assert page[k - start] == history[k];
    }
  }

  /** Over a whole interleaved read, every entry the cursor passed was received or had been evicted. */
  lemma {:induction false} ReceivedSkipsOnlyEvicted<P>(
    history: seq<Entry<P>>, windows: seq<Window>, cursor: nat, limit: nat, maxResponse: nat, k: nat)
    requires WindowsOf(history, windows) && Increasing(history) && k < |history|
    requires cursor < history[k].eventId
    requires history[k].eventId <= CursorAfter(Received(history, windows, cursor, limit, maxResponse), cursor)
    ensures history[k] in Received(history, windows, cursor, limit, maxResponse)
            || exists i :: 0 <= i < |windows| && k < windows[i].lo
    decreases |windows|
  {
    if windows != [] {
      var page := Fetch(history, windows[0], cursor, limit, maxResponse);
      var next := CursorAfter(page, cursor);
      if history[k].eventId <= next {
        FetchSkipsOnlyEvicted(history, windows[0], cursor, limit, maxResponse, k);
      } else {
        ReceivedSkipsOnlyEvicted(history, windows[1..], next, limit, maxResponse, k);
        if i :| 0 <= i < |windows[1..]| && k < windows[1..][i].lo {
          assert windows[i + 1] == windows[1..][i];
        }
      }
    }
  }
}
