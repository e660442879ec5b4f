/**
 The snapshot cache of chats on the phone: at most twenty entries and eight mebibytes, the selected
 chat first and then the most recently accessed, taken greedily.
 */
module ChatCache {
  import opened Wrappers

  const CHAT_SNAPSHOT_CACHE_MAX_ENTRIES: nat := 20
  const CHAT_SNAPSHOT_CACHE_MAX_BYTES: nat := 8 * 1024 * 1024

  type Id = nat

  /** The chat's body and the times only matter for size and order. */
  datatype Entry = Entry(chat: Id, body: nat, cachedAt: nat, lastAccessedAt: nat)

  datatype Cache = Cache(profile: Id, selected: Option<Id>, updatedAt: nat, entries: seq<Entry>)

  predicate Selected(c: Cache, e: Entry) {
    c.selected == Some(e.chat)
  }

  predicate DistinctChats(entries: seq<Entry>) {
    forall i, j :: 0 <= i < j < |entries| ==> entries[i].chat != entries[j].chat
  }

  // ---- the order ----

  /** The selected chat first, then later accesses before earlier ones. */
  predicate Before(c: Cache, a: Entry, b: Entry) {
    (Selected(c, a) && !Selected(c, b)) || (Selected(c, a) == Selected(c, b) && a.lastAccessedAt > b.lastAccessedAt)
  }

  function Insert(c: Cache, e: Entry, sorted: seq<Entry>): seq<Entry> {
    if sorted == [] then [e]
    else if Before(c, sorted[0], e) then [sorted[0]] + Insert(c, e, sorted[1..])
    else [e] + sorted
  }

  /** The stable sort of the language's library, for this order. */
  function Sort(c: Cache, entries: seq<Entry>): seq<Entry> {
    if entries == [] then [] else Insert(c, entries[0], Sort(c, entries[1..]))
  }

  predicate Sorted(c: Cache, entries: seq<Entry>) {
    forall i, j :: 0 <= i < j < |entries| ==> !Before(c, entries[j], entries[i])
  }

  lemma {:induction false} InsertMultiset(c: Cache, e: Entry, sorted: seq<Entry>)
    ensures multiset(Insert(c, e, sorted)) == multiset{e} + multiset(sorted)
  {
    hide Before;
    if sorted != [] && Before(c, sorted[0], e) {
      InsertMultiset(c, e, sorted[1..]);
      assert sorted == [sorted[0]] + sorted[1..];
    }
  }

  /** Nothing in the sequence is before this entry. */
  predicate First(c: Cache, e: Entry, entries: seq<Entry>) {
    forall j :: 0 <= j < |entries| ==> !Before(c, entries[j], e)
  }

  lemma SortedCons(c: Cache, e: Entry, entries: seq<Entry>)
    requires First(c, e, entries) && Sorted(c, entries)
    ensures Sorted(c, [e] + entries)
  {
    hide Before;
  }

  lemma {:induction false} FirstOfInsert(c: Cache, first: Entry, e: Entry, sorted: seq<Entry>)
    requires First(c, first, sorted) && !Before(c, e, first)
    ensures First(c, first, Insert(c, e, sorted))
  {
    hide Before;
    if sorted != [] {
      FirstOfInsert(c, first, e, sorted[1..]);
    }
  }

  lemma FirstOfSorted(c: Cache, e: Entry, sorted: seq<Entry>)
    requires Sorted(c, sorted) && sorted != [] && !Before(c, sorted[0], e)
    ensures First(c, e, sorted)
  {
    forall j | 0 <= j < |sorted| ensures !Before(c, sorted[j], e) {
      assert j > 0 ==> !Before(c, sorted[j], sorted[0]);
    }
  }

  lemma {:induction false} InsertSorted(c: Cache, e: Entry, sorted: seq<Entry>)
    requires Sorted(c, sorted)
    ensures Sorted(c, Insert(c, e, sorted))
  {
    if sorted != [] {
      BeforeOneWay(c, sorted[0], e);
      if Before(c, sorted[0], e) {
        InsertSorted(c, e, sorted[1..]);
        FirstOfInsert(c, sorted[0], e, sorted[1..]);
        SortedCons(c, sorted[0], Insert(c, e, sorted[1..]));
      } else {
        FirstOfSorted(c, e, sorted);
        SortedCons(c, e, sorted);
      }
    }
  }

  lemma BeforeOneWay(c: Cache, a: Entry, b: Entry)
    ensures !(Before(c, a, b) && Before(c, b, a))
  {
  }

  lemma {:induction false} SortSorted(c: Cache, entries: seq<Entry>)
    ensures Sorted(c, Sort(c, entries)) && multiset(Sort(c, entries)) == multiset(entries)
  {
    if entries != [] {
      SortSorted(c, entries[1..]);
      InsertSorted(c, entries[0], Sort(c, entries[1..]));
      InsertMultiset(c, entries[0], Sort(c, entries[1..]));
      assert entries == [entries[0]] + entries[1..];
    }
  }

  /** In the order, the selected chat comes first, and of two others the one accessed later. */
  lemma SortIsRecency(c: Cache, entries: seq<Entry>, i: nat, j: nat)
    requires i < j < |Sort(c, entries)|
    ensures var a, b := Sort(c, entries)[i], Sort(c, entries)[j];
            && (c.selected == Some(b.chat) ==> c.selected == Some(a.chat))
            && ((c.selected == Some(a.chat)) == (c.selected == Some(b.chat)) ==> a.lastAccessedAt >= b.lastAccessedAt)
  {
    SortSorted(c, entries);
    assert !Before(c, Sort(c, entries)[j], Sort(c, entries)[i]);
  }

  lemma {:induction false} SortOfSorted(c: Cache, entries: seq<Entry>)
    requires Sorted(c, entries)
    ensures Sort(c, entries) == entries
  {
    if entries != [] {
      SortOfSorted(c, entries[1..]);
      if |entries| > 1 {
        assert !Before(c, entries[1], entries[0]);
        assert entries[1..][0] == entries[1];
      }
      assert entries == [entries[0]] + entries[1..];
    }
  }

  // ---- the greedy bound ----

  predicate Takes(size: Cache -> nat, c: Cache, kept: seq<Entry>, e: Entry) {
    |kept| < CHAT_SNAPSHOT_CACHE_MAX_ENTRIES && size(c.(entries := kept + [e])) <= CHAT_SNAPSHOT_CACHE_MAX_BYTES
  }

  /** What is kept of the entries, one after the other. */
  function Greedy(size: Cache -> nat, c: Cache, ordered: seq<Entry>): seq<Entry> {
    if ordered == [] then []
    else
      var kept, e := Greedy(size, c, ordered[..|ordered| - 1]), ordered[|ordered| - 1];
      if Takes(size, c, kept, e) then kept + [e] else kept
  }

  function Bound(size: Cache -> nat, c: Cache): Cache {
    var kept := Greedy(size, c, Sort(c, c.entries));
    c.(entries := kept, selected := if exists i :: 0 <= i < |kept| && Selected(c, kept[i]) then c.selected else None)
  }

  /** Once twenty are kept, nothing more is. */
  lemma {:induction false} FullStaysFull(size: Cache -> nat, c: Cache, ordered: seq<Entry>, n: nat)
    requires n <= |ordered| && |Greedy(size, c, ordered[..n])| >= CHAT_SNAPSHOT_CACHE_MAX_ENTRIES
    ensures Greedy(size, c, ordered) == Greedy(size, c, ordered[..n])
    decreases |ordered|
  {
    if n < |ordered| {
      var init := ordered[..|ordered| - 1];
      assert init[..n] == ordered[..n];
      FullStaysFull(size, c, init, n);
    } else {
      assert ordered[..n] == ordered;
    }
  }

  /** `boundChatSnapshotCache`: the loop stops at twenty entries and skips what does not fit. */
  method BoundChatSnapshotCache(size: Cache -> nat, c: Cache) returns (r: Cache)
    ensures r == Bound(size, c)
  {
    var ordered := Sort(c, c.entries);
    var entries: seq<Entry> := [];
    var i := 0;
    while i < |ordered| && |entries| < CHAT_SNAPSHOT_CACHE_MAX_ENTRIES
      invariant i <= |ordered| && entries == Greedy(size, c, ordered[..i])
    {
      assert ordered[..i + 1][..i] == ordered[..i];
      var candidate := c.(entries := entries + [ordered[i]]);
      if size(candidate) <= CHAT_SNAPSHOT_CACHE_MAX_BYTES {
        entries := entries + [ordered[i]];
      }
      i := i + 1;
    }
    if |entries| >= CHAT_SNAPSHOT_CACHE_MAX_ENTRIES {
      FullStaysFull(size, c, ordered, i);
    } else {
      assert ordered[..i] == ordered;
    }
    var found := false;
    i := 0;
    while i < |entries|
      invariant i <= |entries| && (found <==> exists k :: 0 <= k < i && Selected(c, entries[k]))
    {
      found := found || Selected(c, entries[i]);
      i := i + 1;
    }
    r := c.(entries := entries, selected := if found then c.selected else None);
  }

  // ---- what the bound promises ----

  /** Where the kept entries stand in the order. */
  lemma {:induction false} GreedyIndices(size: Cache -> nat, c: Cache, ordered: seq<Entry>) returns (at: seq<nat>)
    ensures var kept := Greedy(size, c, ordered);
            && |at| == |kept| && (forall i :: 0 <= i < |at| ==> at[i] < |ordered| && kept[i] == ordered[at[i]])
            && (forall i, j :: 0 <= i < j < |at| ==> at[i] < at[j])
    ensures |Greedy(size, c, ordered)| <= CHAT_SNAPSHOT_CACHE_MAX_ENTRIES
    decreases |ordered|
  {
    if ordered == [] {
      at := [];
    } else {
      var init := ordered[..|ordered| - 1];
      at := GreedyIndices(size, c, init);
      if Takes(size, c, Greedy(size, c, init), ordered[|init|]) {
        at := at + [|init|];
      }
    }
  }

  lemma {:induction false} GreedyGrows(size: Cache -> nat, c: Cache, ordered: seq<Entry>, n: nat)
    requires n <= |ordered|
    ensures Greedy(size, c, ordered[..n]) <= Greedy(size, c, ordered)
    decreases |ordered|
  {
    if n < |ordered| {
      var init := ordered[..|ordered| - 1];
      assert init[..n] == ordered[..n];
      GreedyGrows(size, c, init, n);
    } else {
      assert ordered[..n] == ordered;
    }
  }

  /**
   The kept entries are at most twenty and stand in selected-first recency order; an entry is kept exactly when there
   is room for one more and the cache with it, beside those kept before it, is small enough.
   */
  lemma BoundIsGreedy(size: Cache -> nat, c: Cache, n: nat)
    requires DistinctChats(Sort(c, c.entries)) && n < |Sort(c, c.entries)|
    ensures var ordered := Sort(c, c.entries);
            var before := Greedy(size, c, ordered[..n]);
            && |Bound(size, c).entries| <= CHAT_SNAPSHOT_CACHE_MAX_ENTRIES
            && before <= Bound(size, c).entries
            && (ordered[n] in Bound(size, c).entries
                <==> |before| < 20 && size(c.(entries := before + [ordered[n]])) <= 8 * 1024 * 1024)
  {
    var ordered := Sort(c, c.entries);
    var kept, before := Greedy(size, c, ordered), Greedy(size, c, ordered[..n]);
    GreedyGrows(size, c, ordered, n);
    GreedyGrows(size, c, ordered, n + 1);
    assert ordered[..n + 1][..n] == ordered[..n];
    var at := GreedyIndices(size, c, ordered);
    var upTo := Greedy(size, c, ordered[..n + 1]);
    var atUpTo := GreedyIndices(size, c, ordered[..n + 1]);
    var atBefore := GreedyIndices(size, c, ordered[..n]);
    if Takes(size, c, before, ordered[n]) {
      assert upTo[|upTo| - 1] == ordered[n];
      assert kept[|upTo| - 1] == ordered[n];
    } else if ordered[n] in kept {
      KeptWhenSeen(size, c, ordered, n);
    }
  }

  lemma EarlierAreOthers(size: Cache -> nat, c: Cache, ordered: seq<Entry>, n: nat)
    requires DistinctChats(ordered) && n < |ordered|
    ensures ordered[n] !in Greedy(size, c, ordered[..n])
  {
    var at := GreedyIndices(size, c, ordered[..n]);
    var kept := Greedy(size, c, ordered[..n]);
    forall k | 0 <= k < |kept| ensures kept[k] != ordered[n] {
      assert kept[k] == ordered[at[k]];
    }
  }

  /** With distinct chats an entry that is kept at all is kept at its own turn. */
  lemma {:induction false} KeptWhenSeen(size: Cache -> nat, c: Cache, ordered: seq<Entry>, n: nat)
    requires DistinctChats(ordered) && n < |ordered| && ordered[n] in Greedy(size, c, ordered)
    ensures Takes(size, c, Greedy(size, c, ordered[..n]), ordered[n])
    decreases |ordered|
  {
    var init := ordered[..|ordered| - 1];
    if n < |init| {
      assert init[..n] == ordered[..n] && init[n] == ordered[n];
      assert ordered[n].chat != ordered[|init|].chat;
      KeptWhenSeen(size, c, init, n);
    } else {
      assert ordered[..n] == init;
      EarlierAreOthers(size, c, ordered, n);
    }
  }

  lemma SortKeepsDistinct(c: Cache, entries: seq<Entry>)
    requires DistinctChats(entries)
    ensures DistinctChats(Sort(c, entries))
  {
    SortSorted(c, entries);
    var sorted := Sort(c, entries);
    forall i, j | 0 <= i < j < |sorted| ensures sorted[i].chat != sorted[j].chat {
      if sorted[i].chat == sorted[j].chat {
        SameMultisetSameChats(entries, sorted, i, j);
      }
    }
  }

  lemma SameMultisetSameChats(entries: seq<Entry>, sorted: seq<Entry>, i: nat, j: nat)
    requires multiset(sorted) == multiset(entries) && DistinctChats(entries)
    requires i < j < |sorted|
    ensures sorted[i].chat != sorted[j].chat
  {
    assert sorted[i] in multiset(entries) && sorted[j] in multiset(entries);
    var a :| 0 <= a < |entries| && entries[a] == sorted[i];
    var b :| 0 <= b < |entries| && entries[b] == sorted[j];
    if sorted[i] == sorted[j] {
      assert sorted == sorted[..j] + sorted[j..];
      assert sorted[..j][i] in multiset(sorted[..j]) && sorted[j..][0] in multiset(sorted[j..]);
      assert multiset(sorted)[sorted[i]] >= 2;
      DistinctCountedOnce(entries, sorted[i]);
    } else {
      assert a != b;
    }
  }

  lemma {:induction false} DistinctCountedOnce(entries: seq<Entry>, e: Entry)
    requires DistinctChats(entries)
    ensures multiset(entries)[e] <= 1
  {
    if entries != [] {
      DistinctCountedOnce(entries[1..], e);
      assert entries == [entries[0]] + entries[1..];
      assert entries[0] == e ==> e !in entries[1..];
    }
  }

  lemma SelectedIsFirst(c: Cache, ordered: seq<Entry>, k: nat)
    requires Sorted(c, ordered) && DistinctChats(ordered) && k < |ordered| && Selected(c, ordered[k])
    ensures k == 0
  {
    SelectedBefore(c, ordered[k], ordered[0]);
  }

  lemma SelectedBefore(c: Cache, a: Entry, b: Entry)
    ensures Selected(c, a) && a.chat != b.chat ==> Before(c, a, b)
  {
  }

  /** The selected chat is kept whenever it fits alone, and then stays selected. */
  lemma SelectedKept(size: Cache -> nat, c: Cache, e: Entry)
    requires DistinctChats(c.entries) && e in c.entries && Selected(c, e)
    ensures size(c.(entries := [e])) <= CHAT_SNAPSHOT_CACHE_MAX_BYTES ==>
              Bound(size, c).selected == c.selected && Bound(size, c).entries != [] && Bound(size, c).entries[0] == e
  {
    var ordered := Sort(c, c.entries);
    SortSorted(c, c.entries);
    SortKeepsDistinct(c, c.entries);
    assert e in multiset(ordered);
    var k :| 0 <= k < |ordered| && ordered[k] == e;
    SelectedIsFirst(c, ordered, k);
    GreedyGrows(size, c, ordered, 1);
    assert ordered[..1][..0] == [] && ordered[..1] == [e];
    assert [] + [e] == [e];
  }

  lemma {:induction false} GreedySorted(size: Cache -> nat, c: Cache, ordered: seq<Entry>)
    requires Sorted(c, ordered)
    ensures Sorted(c, Greedy(size, c, ordered))
  {
    var kept := Greedy(size, c, ordered);
    var at := GreedyIndices(size, c, ordered);
    forall i, j | 0 <= i < j < |kept| ensures !Before(c, kept[j], kept[i]) {
      assert at[i] < at[j];
    }
  }

  /** Every beginning of what was kept was small enough when it was completed. */
  lemma {:induction false} BeginningsFit(size: Cache -> nat, c: Cache, ordered: seq<Entry>, n: nat)
    requires n < |Greedy(size, c, ordered)|
    ensures Takes(size, c, Greedy(size, c, ordered)[..n], Greedy(size, c, ordered)[n])
    decreases |ordered|
  {
    var init := ordered[..|ordered| - 1];
    var kept := Greedy(size, c, init);
    if n < |kept| {
      assert Greedy(size, c, ordered)[..n] == kept[..n];
      BeginningsFit(size, c, init, n);
    } else {
      assert Greedy(size, c, ordered)[..n] == kept;
    }
  }

  lemma {:induction false} GreedyOfKept(size: Cache -> nat, c: Cache, ordered: seq<Entry>, n: nat)
    requires n <= |Greedy(size, c, ordered)|
    ensures Greedy(size, c, Greedy(size, c, ordered)[..n]) == Greedy(size, c, ordered)[..n]
    decreases n
  {
    if n > 0 {
      hide Greedy, Takes;
      var kept := Greedy(size, c, ordered);
      GreedyOfKept(size, c, ordered, n - 1);
      BeginningsFit(size, c, ordered, n - 1);
      assert kept[..n] == kept[..n - 1] + [kept[n - 1]];
      GreedyTakes(size, c, kept[..n - 1], kept[n - 1]);
    }
  }

  lemma GreedyTakes(size: Cache -> nat, c: Cache, kept: seq<Entry>, e: Entry)
    requires Greedy(size, c, kept) == kept && Takes(size, c, kept, e)
    ensures Greedy(size, c, kept + [e]) == kept + [e]
  {
    hide Takes;
    assert (kept + [e])[..|kept|] == kept;
  }

  /** Bounding again changes nothing, as long as the selection was kept. */
  lemma BoundTwice(size: Cache -> nat, c: Cache)
    requires Bound(size, c).selected == c.selected
    ensures Bound(size, Bound(size, c)) == Bound(size, c)
  {
    var ordered := Sort(c, c.entries);
    var kept := Greedy(size, c, ordered);
    var b := Bound(size, c);
    assert b == c.(entries := kept);
    SortSorted(c, c.entries);
    GreedySorted(size, c, ordered);
    SameOrder(c, b, kept);
    SortOfSorted(b, kept);
    GreedyOfKept(size, c, ordered, |kept|);
    assert kept[..|kept|] == kept;
    SameGreedy(size, c, b, kept);
  }

  lemma SameOrder(c: Cache, b: Cache, entries: seq<Entry>)
    requires b.selected == c.selected && Sorted(c, entries)
    ensures Sorted(b, entries)
  {
    forall i, j | 0 <= i < j < |entries| ensures !Before(b, entries[j], entries[i]) {
      assert !Before(c, entries[j], entries[i]);
    }
  }

  /** The entries a cache came with do not matter to what is kept of others. */
  lemma {:induction false} SameGreedy(size: Cache -> nat, c: Cache, b: Cache, ordered: seq<Entry>)
    requires b.(entries := []) == c.(entries := [])
    ensures Greedy(size, b, ordered) == Greedy(size, c, ordered)
    decreases |ordered|
  {
    if ordered != [] {
      var init := ordered[..|ordered| - 1];
      SameGreedy(size, c, b, init);
      var candidate := Greedy(size, c, init) + [ordered[|init|]];
      assert b.(entries := candidate) == c.(entries := candidate);
    }
  }

  // ---- an update ----

  function WithoutChat(entries: seq<Entry>, chat: Option<Id>): seq<Entry> {
    if entries == [] then []
    else if Some(entries[0].chat) == chat then WithoutChat(entries[1..], chat)
    else [entries[0]] + WithoutChat(entries[1..], chat)
  }

  /** The accessed time of the first entry of this chat is set. */
  function Touch(entries: seq<Entry>, chat: Id, now: nat): seq<Entry> {
    if entries == [] then []
    else if entries[0].chat == chat then [entries[0].(lastAccessedAt := now)] + entries[1..]
    else [entries[0]] + Touch(entries[1..], chat, now)
  }

  /** A chat that came in, and whether it is well formed. */
  datatype Update = Update(chat: Id, body: nat, wellFormed: bool)

  function Entries(c: Cache, selected: Option<Id>, u: Option<Update>, now: nat): seq<Entry> {
    var others := WithoutChat(c.entries, if u.Some? then Some(u.value.chat) else None);
    if u.Some? && u.value.wellFormed then [Entry(u.value.chat, u.value.body, now, now)] + others
    else if selected.Some? then Touch(others, selected.value, now)
    else others
  }

  /** The entry before and after: only the time of its last access may have been set. */
  predicate SameChat(had: Entry, e: Entry, touched: bool, now: nat) {
    e == Entry(had.chat, had.body, had.cachedAt, if touched then now else had.lastAccessedAt)
  }

  predicate Stays(had: seq<Entry>, i: nat, gone: Option<Id>) {
    i < |had| && Some(had[i].chat) != gone
  }

  /** These are the places of the entries whose chat did not come in, in order. */
  ghost predicate Enumerates(at: seq<nat>, had: seq<Entry>, gone: Option<Id>) {
    && (forall k :: 0 <= k < |at| ==> at[k] < |had| && Some(had[at[k]].chat) != gone)
    && (forall k, l :: 0 <= k < l < |at| ==> at[k] < at[l])
    && (forall i :: Stays(had, i, gone) ==> i in at)
  }

  /** The place `k` is the first of this chat. */
  ghost predicate FirstOf(entries: seq<Entry>, k: nat, chat: Option<Id>)
    requires k < |entries|
  {
    Some(entries[k].chat) == chat && forall l :: 0 <= l < k ==> Some(entries[l].chat) != chat
  }

  /** The old entries of the other chats, in order, as they were but for the access time of the touched chat. */
  ghost predicate OthersOf(had: seq<Entry>, gone: Option<Id>, touched: Option<Id>, now: nat, rest: seq<Entry>) {
    exists at :: Enumerates(at, had, gone) && |at| == |rest|
                 && forall k :: 0 <= k < |rest| ==>
                      at[k] < |had| && SameChat(had[at[k]], rest[k], FirstOf(rest, k, touched), now)
  }

  /**
   What an update bounds: a well-formed chat that came in, first and new, and the other entries; the selected one of
   these counts as accessed now when no well-formed chat came in.
   */
  ghost predicate Candidates(c: Cache, selected: Option<Id>, u: Option<Update>, now: nat, entries: seq<Entry>) {
    var gone := if u.Some? then Some(u.value.chat) else None;
    if u.Some? && u.value.wellFormed then
      entries != [] && entries[0] == Entry(u.value.chat, u.value.body, now, now)
      && OthersOf(c.entries, gone, None, now, entries[1..])
    else OthersOf(c.entries, gone, selected, now, entries)
  }

  lemma {:induction false} WithoutChatConcat(a: seq<Entry>, b: seq<Entry>, gone: Option<Id>)
    ensures WithoutChat(a + b, gone) == WithoutChat(a, gone) + WithoutChat(b, gone)
  {
    if a == [] {
      assert a + b == b;
    } else {
      assert (a + b)[1..] == a[1..] + b;
      WithoutChatConcat(a[1..], b, gone);
    }
  }

  lemma EnumeratesNext(at: seq<nat>, had: seq<Entry>, e: Entry, gone: Option<Id>)
    requires Enumerates(at, had, gone)
    ensures Enumerates(if Some(e.chat) == gone then at else at + [|had|], had + [e], gone)
  {
    var more := if Some(e.chat) == gone then at else at + [|had|];
    assert forall k :: 0 <= k < |at| ==> (had + [e])[at[k]] == had[at[k]];
    forall i: nat | Stays(had + [e], i, gone) ensures i in more {
      if i < |had| {
        assert Stays(had, i, gone);
      } else {
        assert more[|at|] == i;
      }
    }
  }

  function Places(had: seq<Entry>, gone: Option<Id>): seq<nat> {
    if had == [] then []
    else
      var last := |had| - 1;
      Places(had[..last], gone) + if Some(had[last].chat) == gone then [] else [last]
  }

  lemma NothingToEnumerate(gone: Option<Id>)
    ensures Enumerates(Places([], gone), [], gone)
  {
  }

  lemma PlacesNext(had: seq<Entry>, e: Entry, gone: Option<Id>)
    ensures Places(had + [e], gone) == if Some(e.chat) == gone then Places(had, gone) else Places(had, gone) + [|had|]
  {
    assert (had + [e])[..|had|] == had;
  }

  lemma {:induction false} PlacesEnumerate(had: seq<Entry>, gone: Option<Id>)
    ensures Enumerates(Places(had, gone), had, gone)
    decreases |had|
  {
    hide Enumerates, Places;
    if had == [] {
      NothingToEnumerate(gone);
    } else {
      var init, last := had[..|had| - 1], had[|had| - 1];
      PlacesEnumerate(init, gone);
      EnumeratesNext(Places(init, gone), init, last, gone);
      PlacesNext(init, last, gone);
      assert had == init + [last];
    }
  }

  lemma WithoutChatLast(had: seq<Entry>, gone: Option<Id>)
    requires had != []
    ensures var last := |had| - 1;
            WithoutChat(had, gone)
            == WithoutChat(had[..last], gone) + if Some(had[last].chat) == gone then [] else [had[last]]
  {
    var last := |had| - 1;
    assert had == had[..last] + [had[last]] && [had[last]][1..] == [];
    WithoutChatConcat(had[..last], [had[last]], gone);
  }

  lemma {:induction false} WithoutChatIs(had: seq<Entry>, gone: Option<Id>)
    ensures |Places(had, gone)| == |WithoutChat(had, gone)|
    ensures forall k :: 0 <= k < |Places(had, gone)| ==>
              Places(had, gone)[k] < |had| && WithoutChat(had, gone)[k] == had[Places(had, gone)[k]]
    decreases |had|
  {
    if had != [] {
      WithoutChatIs(had[..|had| - 1], gone);
      WithoutChatLast(had, gone);
      hide WithoutChat;
    }
  }

  lemma {:induction false} TouchIs(entries: seq<Entry>, chat: Id, now: nat)
    ensures |Touch(entries, chat, now)| == |entries|
    ensures forall k :: 0 <= k < |entries| ==>
              SameChat(entries[k], Touch(entries, chat, now)[k], FirstOf(entries, k, Some(chat)), now)
  {
    if entries != [] && entries[0].chat != chat {
      TouchIs(entries[1..], chat, now);
      forall k | 0 <= k < |entries|
        ensures SameChat(entries[k], Touch(entries, chat, now)[k], FirstOf(entries, k, Some(chat)), now)
      {
        if k > 0 {
          FirstOfTail(entries, k, chat);
        }
      }
    }
  }

  lemma FirstOfTail(entries: seq<Entry>, k: nat, chat: Id)
    requires 0 < k < |entries| && entries[0].chat != chat
    ensures FirstOf(entries[1..], k - 1, Some(chat)) <==> FirstOf(entries, k, Some(chat))
  {
    if FirstOf(entries[1..], k - 1, Some(chat)) {
      forall l | 0 <= l < k ensures entries[l].chat != chat {
        assert l > 0 ==> entries[1..][l - 1] == entries[l];
      }
    }
    if FirstOf(entries, k, Some(chat)) {
      forall l | 0 <= l < k - 1 ensures entries[1..][l].chat != chat {
        assert entries[1..][l] == entries[l + 1];
      }
    }
  }

  lemma SameFirst(a: seq<Entry>, b: seq<Entry>, k: nat, chat: Option<Id>)
    requires |a| == |b| && k < |a| && forall l :: 0 <= l < |a| ==> a[l].chat == b[l].chat
    ensures FirstOf(a, k, chat) <==> FirstOf(b, k, chat)
  {
  }

  lemma OthersAre(c: Cache, gone: Option<Id>, now: nat)
    ensures OthersOf(c.entries, gone, None, now, WithoutChat(c.entries, gone))
  {
    PlacesEnumerate(c.entries, gone);
    WithoutChatIs(c.entries, gone);
    hide WithoutChat, Enumerates, Places;
    assert |Places(c.entries, gone)| == |WithoutChat(c.entries, gone)|;
  }

  lemma TouchedAre(c: Cache, gone: Option<Id>, selected: Id, now: nat)
    ensures OthersOf(c.entries, gone, Some(selected), now, Touch(WithoutChat(c.entries, gone), selected, now))
  {
    var others, at := WithoutChat(c.entries, gone), Places(c.entries, gone);
    PlacesEnumerate(c.entries, gone);
    WithoutChatIs(c.entries, gone);
    hide WithoutChat, Enumerates, Places;
    TouchIs(others, selected, now);
    hide FirstOf, Touch;
    var touched := Touch(others, selected, now);
    forall k | 0 <= k < |others|
      ensures at[k] < |c.entries| && SameChat(c.entries[at[k]], touched[k], FirstOf(touched, k, Some(selected)), now)
    {
      SameFirst(others, touched, k, Some(selected));
    }
  }

  lemma EntriesAreCandidates(c: Cache, selected: Option<Id>, u: Option<Update>, now: nat)
    ensures Candidates(c, selected, u, now, Entries(c, selected, u, now))
  {
    var gone := if u.Some? then Some(u.value.chat) else None;
    OthersAre(c, gone, now);
    if selected.Some? {
      TouchedAre(c, gone, selected.value, now);
    }
    hide WithoutChat, OthersOf, Touch;
    if u.Some? && u.value.wellFormed {
      assert Entries(c, selected, u, now)[1..] == WithoutChat(c.entries, gone);
    }
  }

  /** When the candidates are few enough and every beginning of their order fits, all are kept. */
  lemma AllKept(size: Cache -> nat, c: Cache)
    requires |c.entries| <= CHAT_SNAPSHOT_CACHE_MAX_ENTRIES
    requires forall n :: 0 <= n <= |Sort(c, c.entries)| ==>
                           size(c.(entries := Sort(c, c.entries)[..n])) <= CHAT_SNAPSHOT_CACHE_MAX_BYTES
    ensures Bound(size, c).entries == Sort(c, c.entries)
    ensures multiset(Bound(size, c).entries) == multiset(c.entries)
  {
    SortSorted(c, c.entries);
    var ordered := Sort(c, c.entries);
    assert |ordered| == |multiset(ordered)| == |multiset(c.entries)| == |c.entries|;
    assert ordered[..|ordered|] == ordered;
    hide Sort, Sorted;
    GreedyKeepsAll(size, c, ordered, |ordered|);
  }

  /** Then no other chat is lost by an update, and none changes but for its access time. */
  lemma UpdateKeepsOthers(size: Cache -> nat, c: Cache, selected: Option<Id>, u: Option<Update>, now: nat,
                          entries: seq<Entry>, i: nat)
    requires Candidates(c, selected, u, now, entries) && |entries| <= CHAT_SNAPSHOT_CACHE_MAX_ENTRIES
    requires var before := Cache(c.profile, selected, now, entries);
             forall n :: 0 <= n <= |Sort(before, entries)| ==>
                           size(before.(entries := Sort(before, entries)[..n])) <= CHAT_SNAPSHOT_CACHE_MAX_BYTES
    requires i < |c.entries| && (u.Some? ==> c.entries[i].chat != u.value.chat)
    ensures var after := Bound(size, Cache(c.profile, selected, now, entries));
            exists k :: 0 <= k < |after.entries| && SameBut(c.entries[i], after.entries[k])
  {
    var before := Cache(c.profile, selected, now, entries);
    AllKept(size, before);
    var e := StaysCandidate(c, selected, u, now, entries, i);
    hide Sort, Bound, Candidates;
    assert e in multiset(entries);
    var after := Bound(size, before);
    assert e in multiset(after.entries);
    var k :| 0 <= k < |after.entries| && after.entries[k] == e;
  }

  predicate SameBut(had: Entry, e: Entry) {
    e.chat == had.chat && e.body == had.body && e.cachedAt == had.cachedAt
  }

  lemma StaysCandidate(c: Cache, selected: Option<Id>, u: Option<Update>, now: nat, entries: seq<Entry>, i: nat)
    returns (e: Entry)
    requires Candidates(c, selected, u, now, entries)
    requires i < |c.entries| && (u.Some? ==> c.entries[i].chat != u.value.chat)
    ensures e in entries && SameBut(c.entries[i], e)
  {
    var gone := if u.Some? then Some(u.value.chat) else None;
    var comesIn := u.Some? && u.value.wellFormed;
    var rest := if comesIn then entries[1..] else entries;
    var touched := if comesIn then None else selected;
    assert OthersOf(c.entries, gone, touched, now, rest);
    var at: seq<nat> :| Enumerates(at, c.entries, gone) && |at| == |rest| &&
      forall k :: 0 <= k < |rest| ==>
        at[k] < |c.entries| && SameChat(c.entries[at[k]], rest[k], FirstOf(rest, k, touched), now);
    assert Stays(c.entries, i, gone);
    var k :| 0 <= k < |at| && at[k] == i;
    e := rest[k];
    assert e in rest;
  }

  lemma {:induction false} GreedyKeepsAll(size: Cache -> nat, c: Cache, ordered: seq<Entry>, n: nat)
    requires n <= |ordered| <= CHAT_SNAPSHOT_CACHE_MAX_ENTRIES
    requires forall k :: 0 <= k <= |ordered| ==> size(c.(entries := ordered[..k])) <= CHAT_SNAPSHOT_CACHE_MAX_BYTES
    ensures Greedy(size, c, ordered[..n]) == ordered[..n]
    decreases n
  {
    if n > 0 {
      GreedyKeepsAll(size, c, ordered, n - 1);
      assert ordered[..n][..n - 1] == ordered[..n - 1];
      assert ordered[..n - 1] + [ordered[n - 1]] == ordered[..n];
    }
  }

  /** `updateChatSnapshotCache`. */
  method UpdateChatSnapshotCache(size: Cache -> nat, c: Cache, selected: Option<Id>, u: Option<Update>, now: nat)
    returns (r: Cache)
    ensures r == Bound(size, Cache(c.profile, selected, now, Entries(c, selected, u, now)))
    ensures exists entries ::
              Candidates(c, selected, u, now, entries) && r == Bound(size, Cache(c.profile, selected, now, entries))
    ensures r.profile == c.profile && r.updatedAt == now
    ensures r.selected == if selected.Some? && exists i :: 0 <= i < |r.entries| && r.entries[i].chat == selected.value
                          then selected else None
  {
    EntriesAreCandidates(c, selected, u, now);
    var entries := WithoutChat(c.entries, if u.Some? then Some(u.value.chat) else None);
    if u.Some? && u.value.wellFormed {
      entries := [Entry(u.value.chat, u.value.body, now, now)] + entries;
    } else if selected.Some? {
      entries := Touch(entries, selected.value, now);
    }
    r := BoundChatSnapshotCache(size, Cache(c.profile, selected, now, entries));
  }

  lemma {:induction false} WithoutChatKeepsDistinct(entries: seq<Entry>, chat: Option<Id>)
    requires DistinctChats(entries)
    ensures var rest := WithoutChat(entries, chat);
            && DistinctChats(rest)
            && (forall i :: 0 <= i < |rest| ==> rest[i] in entries && Some(rest[i].chat) != chat)
  {
    if entries != [] {
      WithoutChatKeepsDistinct(entries[1..], chat);
      assert entries == [entries[0]] + entries[1..];
      var rest := WithoutChat(entries[1..], chat);
      forall i | 0 <= i < |rest| ensures rest[i].chat != entries[0].chat {
        var k :| 0 <= k < |entries[1..]| && entries[1..][k] == rest[i];
        assert entries[k + 1].chat != entries[0].chat;
      }
    }
  }

  lemma {:induction false} TouchKeepsChats(entries: seq<Entry>, chat: Id, now: nat)
    ensures |Touch(entries, chat, now)| == |entries|
    ensures forall i :: 0 <= i < |entries| ==> Touch(entries, chat, now)[i].chat == entries[i].chat
  {
    if entries != [] {
      TouchKeepsChats(entries[1..], chat, now);
    }
  }

  /**
   An update keeps the chats distinct; and a chat that comes in selected is first afterwards, with the content it came
   with, whenever it fits alone.
   */
  lemma UpdateKeepsDistinct(size: Cache -> nat, c: Cache, selected: Option<Id>, u: Option<Update>, now: nat)
    requires DistinctChats(c.entries)
    ensures var before := Cache(c.profile, selected, now, Entries(c, selected, u, now));
            var after := Bound(size, before);
            && DistinctChats(after.entries)
            && (u.Some? && u.value.wellFormed && selected == Some(u.value.chat)
                && size(before.(entries := [Entry(u.value.chat, u.value.body, now, now)])) <= CHAT_SNAPSHOT_CACHE_MAX_BYTES
                ==> after.selected == selected && after.entries != []
                    && after.entries[0] == Entry(u.value.chat, u.value.body, now, now))
  {
    var gone := if u.Some? then Some(u.value.chat) else None;
    WithoutChatKeepsDistinct(c.entries, gone);
    if selected.Some? {
      TouchKeepsChats(WithoutChat(c.entries, gone), selected.value, now);
    }
    var entries := Entries(c, selected, u, now);
    var before := Cache(c.profile, selected, now, entries);
    assert DistinctChats(entries);
    SortKeepsDistinct(before, entries);
    var at := GreedyIndices(size, before, Sort(before, entries));
    if u.Some? && u.value.wellFormed && selected == Some(u.value.chat) {
      assert entries[0] == Entry(u.value.chat, u.value.body, now, now);
      SelectedKept(size, before, entries[0]);
    }
  }
}
