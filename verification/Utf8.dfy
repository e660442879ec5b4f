/**
 Strings as the bytes of their UTF-8 form (section 4 of RFC 3629), and the three
 byte-budget operations of the bridge: cutting a string at a budget, cutting it
 with a flag, and splitting it into chunks.
 */
module Utf8 {
  newtype Byte = n: int | 0 <= n < 256

  /** The byte may only follow another byte of the same scalar. */
  predicate Continuation(b: Byte) {
    0x80 <= b < 0xC0
  }

  predicate ThreeByteLead(first: Byte, second: Byte) {
    || (first == 0xE0 && 0xA0 <= second < 0xC0)
    || (0xE1 <= first <= 0xEC && Continuation(second))
    || (first == 0xED && 0x80 <= second < 0xA0)
    || (0xEE <= first <= 0xEF && Continuation(second))
  }

  predicate FourByteLead(first: Byte, second: Byte) {
    || (first == 0xF0 && 0x90 <= second < 0xC0)
    || (0xF1 <= first <= 0xF3 && Continuation(second))
    || (first == 0xF4 && 0x80 <= second < 0x90)
  }

  /** Length of the well-formed scalar at index i; 0 when there is none. */
  function ScalarLen(s: seq<Byte>, i: nat): (n: nat)
    requires i <= |s|
    ensures n <= 4 && i + n <= |s|
    ensures n > 0 ==> !Continuation(s[i])
    ensures forall k :: i < k < i + n ==> Continuation(s[k])
  {
    var left := |s| - i;
    if left >= 1 && s[i] < 0x80 then 1
    else if left >= 2 && 0xC2 <= s[i] <= 0xDF && Continuation(s[i + 1]) then 2
    else if left >= 3 && ThreeByteLead(s[i], s[i + 1]) && Continuation(s[i + 2]) then 3
    else if left >= 4 && FourByteLead(s[i], s[i + 1]) && Continuation(s[i + 2]) && Continuation(s[i + 3]) then 4
    else 0
  }

  /** An index at which the string may be cut without splitting a scalar. */
  predicate IsBoundary(s: seq<Byte>, i: nat) {
    i == 0 || i == |s| || (i < |s| && !Continuation(s[i]))
  }

  /** A scalar begins at i and ends at a boundary. */
  predicate ScalarAt(s: seq<Byte>, i: nat)
    requires i < |s|
  {
    ScalarLen(s, i) > 0 && IsBoundary(s, i + ScalarLen(s, i))
  }

  /** Well-formed, said locally: every byte that begins a scalar begins a whole one, and the first byte does. */
  predicate Valid(s: seq<Byte>) {
    && (s == [] || !Continuation(s[0]))
    && forall i {:trigger ScalarAt(s, i)} :: 0 <= i < |s| && !Continuation(s[i]) ==> ScalarAt(s, i)
  }

  /** A string of the bridge: its bytes are always well-formed. */
  type Text = s: seq<Byte> | Valid(s) witness []

  /** Well-formed as the grammar of section 4 of RFC 3629 says it: one scalar after another. */
  ghost predicate Scalars(s: seq<Byte>, i: nat)
    requires i <= |s|
    decreases |s| - i
  {
    i == |s| || (ScalarLen(s, i) > 0 && Scalars(s, i + ScalarLen(s, i)))
  }

  lemma {:induction false} ValidFromBoundary(s: Text, i: nat)
    requires i <= |s| && IsBoundary(s, i)
    ensures Scalars(s, i)
    decreases |s| - i
  {
    if i < |s| {
      assert ScalarAt(s, i);
      ValidFromBoundary(s, i + ScalarLen(s, i));
    }
  }

  lemma {:induction false} ScalarsFromBoundary(s: seq<Byte>, i: nat, k: nat)
    requires i <= k < |s| && Scalars(s, i) && !Continuation(s[k])
    ensures ScalarAt(s, k)
    decreases |s| - i
  {
    var next := i + ScalarLen(s, i);
    if k == i {
      if next < |s| {
        assert ScalarLen(s, next) > 0;
      }
    } else {
      assert !(i < k < next);
      ScalarsFromBoundary(s, next, k);
    }
  }

  /** The local reading and the grammar agree on every byte sequence. */
  lemma ValidIsGrammar(s: seq<Byte>)
    ensures Valid(s) <==> Scalars(s, 0)
  {
    if Valid(s) {
      ValidFromBoundary(s, 0);
    }
    if Scalars(s, 0) {
      forall k | 0 <= k < |s| && !Continuation(s[k]) ensures ScalarAt(s, k) {
        ScalarsFromBoundary(s, 0, k);
      }
    }
  }

  // ---- validity under cutting and joining ----

  /** A scalar depends on its own bytes only. */
  lemma ScalarLenLocal(s: seq<Byte>, i: nat, t: seq<Byte>, j: nat, n: nat)
    requires i + n <= |s| && j + n <= |t|
    requires ScalarLen(s, i) == n > 0
    requires s[i..i + n] == t[j..j + n]
    ensures ScalarLen(t, j) == n
  {
    assert s[i] == s[i..i + n][0] == t[j];
    if n > 1 { assert s[i + 1] == s[i..i + n][1] == t[j + 1]; }
    if n > 2 { assert s[i + 2] == s[i..i + n][2] == t[j + 2]; }
    if n > 3 { assert s[i + 3] == s[i..i + n][3] == t[j + 3]; }
  }

  /** A scalar seen at index i of s is seen at index j of t, when t holds it and cuts after it. */
  lemma ScalarAtMoves(s: Text, i: nat, t: seq<Byte>, j: nat)
    requires i < |s| && !Continuation(s[i])
    requires j + ScalarLen(s, i) <= |t| && s[i..i + ScalarLen(s, i)] == t[j..j + ScalarLen(s, i)]
    requires IsBoundary(t, j + ScalarLen(s, i))
    ensures j < |t| && ScalarAt(t, j)
  {
    assert ScalarAt(s, i);
    ScalarLenLocal(s, i, t, j, ScalarLen(s, i));
  }

  lemma SplitValid(s: Text, i: nat)
    requires i <= |s| && IsBoundary(s, i)
    ensures Valid(s[..i]) && Valid(s[i..])
  {
    var head, tail := s[..i], s[i..];
    forall k | 0 <= k < i && !Continuation(head[k]) ensures ScalarAt(head, k) {
      HeadScalar(s, i, k);
    }
    forall k | 0 <= k < |tail| && !Continuation(tail[k]) ensures ScalarAt(tail, k) {
      TailScalar(s, i, k);
    }
  }

  lemma HeadScalar(s: Text, i: nat, k: nat)
    requires k < i <= |s| && IsBoundary(s, i) && !Continuation(s[k])
    ensures ScalarAt(s[..i], k)
  {
    assert ScalarAt(s, k);
    var n := ScalarLen(s, k);
    assert !(k < i < k + n);
    assert s[..i][k..k + n] == s[k..k + n];
    ScalarAtMoves(s, k, s[..i], k);
  }

  lemma TailScalar(s: Text, i: nat, k: nat)
    requires i + k < |s| && !Continuation(s[i + k])
    ensures ScalarAt(s[i..], k)
  {
    assert ScalarAt(s, i + k);
    var n := ScalarLen(s, i + k);
    assert s[i..][k..k + n] == s[i + k..i + k + n];
    ScalarAtMoves(s, i + k, s[i..], k);
  }

  lemma ConcatValid(a: Text, b: Text)
    ensures Valid(a + b)
  {
    var s := a + b;
    forall k | 0 <= k < |s| && !Continuation(s[k]) ensures ScalarAt(s, k) {
      if k < |a| {
        JoinedHeadScalar(a, b, k);
      } else {
        JoinedTailScalar(a, b, k - |a|);
      }
    }
  }

  lemma JoinedHeadScalar(a: Text, b: Text, k: nat)
    requires k < |a| && !Continuation(a[k])
    ensures ScalarAt(a + b, k)
  {
    assert ScalarAt(a, k);
    var n := ScalarLen(a, k);
    assert (a + b)[k..k + n] == a[k..k + n];
    assert IsBoundary(a + b, k + n);
    ScalarAtMoves(a, k, a + b, k);
  }

  lemma JoinedTailScalar(a: Text, b: Text, j: nat)
    requires j < |b| && !Continuation(b[j])
    ensures ScalarAt(a + b, |a| + j)
  {
    assert ScalarAt(b, j);
    var n := ScalarLen(b, j);
    assert (a + b)[|a| + j..|a| + j + n] == b[j..j + n];
    assert IsBoundary(a + b, |a| + j + n);
    ScalarAtMoves(b, j, a + b, |a| + j);
  }

  /** Only the cuts at boundaries leave a string behind. */
  lemma ValidPrefixIsBoundary(s: Text, i: nat)
    requires i <= |s| && Valid(s[..i])
    ensures IsBoundary(s, i)
  {
    if 0 < i < |s| {
      // The last scalar of the prefix ends at i, and in s a scalar ends at a boundary.
      var p := s[..i];
      var k := FloorBoundary(p, i - 1);
      assert ScalarAt(p, k);
      assert k + ScalarLen(p, k) == i;
      assert p[k..i] == s[k..i];
      ScalarLenLocal(p, k, s, k, i - k);
      assert ScalarAt(s, k);
    }
  }

  function Concat(a: Text, b: Text): Text {
    ConcatValid(a, b);
    a + b
  }

  // ---- the longest prefix within a byte budget ----

  /** The last boundary at or before i. */
  function FloorBoundary(s: seq<Byte>, i: nat): (r: nat)
    requires i <= |s|
    ensures r <= i && IsBoundary(s, r)
    ensures forall j :: r < j <= i ==> !IsBoundary(s, j)
  {
    if IsBoundary(s, i) then i else FloorBoundary(s, i - 1)
  }

  function LongestPrefix(s: Text, maxBytes: nat): (r: Text)
  {
    if |s| <= maxBytes then s
    else
      var end := FloorBoundary(s, maxBytes);
      SplitValid(s, end);
      s[..end]
  }

  /** What cutting promises: a prefix within the budget, and no longer string prefix is. */
  lemma LongestPrefixIsLongest(s: Text, maxBytes: nat, p: Text)
    requires p <= s && |p| <= maxBytes
    ensures LongestPrefix(s, maxBytes) <= s && |LongestPrefix(s, maxBytes)| <= maxBytes
    ensures |p| <= |LongestPrefix(s, maxBytes)|
  {
    assert s[..|p|] == p;
    ValidPrefixIsBoundary(s, |p|);
  }

  /** Something is kept exactly when the first scalar fits. */
  lemma LongestPrefixStarts(s: Text, maxBytes: nat)
    ensures LongestPrefix(s, maxBytes) != [] <==> s != [] && ScalarLen(s, 0) <= maxBytes
  {
    if s != [] {
      assert ScalarAt(s, 0);
      assert IsBoundary(s, ScalarLen(s, 0));
    }
  }

  /** Cutting loses at most three bytes of the budget, because a scalar has at most four. */
  lemma LongestPrefixSlack(s: Text, maxBytes: nat)
    requires |s| > maxBytes
    ensures |LongestPrefix(s, maxBytes)| + 3 >= maxBytes
  {
    var e := FloorBoundary(s, maxBytes);
    assert ScalarAt(s, e);
    assert IsBoundary(s, e + ScalarLen(s, e));
  }

  /** The walk down to a boundary that `bounded`, `truncate_utf8_bytes` and `utf8_chunks` share. */
  method WalkToBoundary(s: Text, start: nat) returns (end: nat)
    requires start <= |s|
    ensures end == FloorBoundary(s, start)
  {
    end := start;
    while !IsBoundary(s, end)
      invariant end <= start
      invariant FloorBoundary(s, end) == FloorBoundary(s, start)
      decreases end
    {
      end := end - 1;
    }
  }

  /** `bounded` in the projector. */
  method BoundedText(value: Text, maxBytes: nat) returns (r: Text)
    ensures r == LongestPrefix(value, maxBytes)
  {
    r := value;
    if |value| > maxBytes {
      var end := WalkToBoundary(value, maxBytes);
      SplitValid(value, end);
      r := value[..end];
    }
  }

  /** `truncate_utf8_bytes` in the resource limits. */
  method TruncateUtf8Bytes(value: Text, maxBytes: nat) returns (r: Text, truncated: bool)
    ensures r == LongestPrefix(value, maxBytes)
    ensures truncated <==> r != value
  {
    if |value| <= maxBytes {
      return value, false;
    }
    var boundary := WalkToBoundary(value, Min(maxBytes, |value|));
    SplitValid(value, boundary);
    r, truncated := value[..boundary], true;
  }

  // ---- chunking ----

  function Min(a: nat, b: nat): nat { if a < b then a else b }

  function AtLeastOne(cap: nat): nat { if cap < 1 then 1 else cap }

  /** The end of the first chunk of s for a cap. */
  function ChunkEnd(s: Text, cap: nat): nat {
    FloorBoundary(s, Min(|s|, AtLeastOne(cap)))
  }

  /**
   The chunk loop advances on a string exactly when its first scalar fits the cap;
   otherwise the source yields empty chunks for ever.
   */
  lemma ChunkProgress(s: Text, cap: nat)
    requires s != []
    ensures ChunkEnd(s, cap) > 0 <==> ScalarLen(s, 0) <= AtLeastOne(cap)
  {
    assert ScalarAt(s, 0);
    assert IsBoundary(s, ScalarLen(s, 0));
  }

  /** Four bytes is the least cap that makes every string advance. */
  lemma ChunkProgressForEveryString(cap: nat)
    ensures (forall s: Text :: s != [] ==> ChunkEnd(s, cap) > 0) <==> cap >= 4
  {
    forall s: Text | s != [] && cap >= 4 ensures ChunkEnd(s, cap) > 0 {
      ChunkProgress(s, cap);
    }
    if cap < 4 {
      var rocket: seq<Byte> := [0xF0, 0x9F, 0x9A, 0x80];
      assert ScalarLen(rocket, 0) == 4;
      assert Valid(rocket);
      ChunkProgress(rocket, cap);
    }
  }

  /** The chunks of s, for a cap on which the source's loop always advances. */
  function Chunks(s: Text, cap: nat): (chunks: seq<Text>)
    requires cap >= 4
    decreases |s|
  {
    if s == [] then []
    else
      var end := ChunkEnd(s, cap);
      ChunkProgress(s, cap);
      SplitValid(s, end);
      var head: Text := s[..end];
      [head] + Chunks(s[end..], cap)
  }

  function Join(parts: seq<Text>): (r: Text)
  {
    if parts == [] then [] else Concat(parts[0], Join(parts[1..]))
  }

  lemma {:induction false} JoinAppend(parts: seq<Text>, more: seq<Text>)
    ensures Join(parts + more) == Join(parts) + Join(more)
  {
    if parts == [] {
      assert parts + more == more;
    } else {
      assert (parts + more)[1..] == parts[1..] + more;
      JoinAppend(parts[1..], more);
    }
  }

  lemma ChunksUnfold(s: Text, cap: nat)
    requires cap >= 4 && s != []
    ensures 0 < ChunkEnd(s, cap) <= |s| && ChunkEnd(s, cap) <= cap
    ensures |s| <= cap ==> ChunkEnd(s, cap) == |s|
    ensures Valid(s[..ChunkEnd(s, cap)]) && Valid(s[ChunkEnd(s, cap)..])
    ensures Chunks(s, cap) == [s[..ChunkEnd(s, cap)]] + Chunks(s[ChunkEnd(s, cap)..], cap)
  {
    ChunkProgress(s, cap);
    SplitValid(s, ChunkEnd(s, cap));
  }

  /** Chunks are non-empty strings within the cap whose concatenation is the input. */
  lemma {:induction false} ChunksRoundTrip(s: Text, cap: nat)
    requires cap >= 4
    ensures Join(Chunks(s, cap)) == s
    ensures forall c :: c in Chunks(s, cap) ==> 0 < |c| <= cap
    decreases |s|
  {
    hide Valid, ChunkEnd;
    if s != [] {
      ChunksUnfold(s, cap);
      var end := ChunkEnd(s, cap);
      ChunksRoundTrip(s[end..], cap);
      assert s == s[..end] + s[end..];
    }
  }

  /** A string within the cap is its own chunk; only the empty string has none. */
  lemma ChunksOfShort(s: Text, cap: nat)
    requires cap >= 4
    ensures (Chunks(s, cap) == []) <==> (s == [])
    ensures 0 < |s| <= cap ==> Chunks(s, cap) == [s]
  {
    hide Valid, ChunkEnd;
    if s != [] {
      ChunksUnfold(s, cap);
      if |s| <= cap {
        assert s[|s|..] == [] && s[..|s|] == s;
      }
    }
  }

  /** The first chunk could not have taken the scalar after it. */
  lemma FirstChunkGreedy(s: Text, cap: nat)
    requires cap >= 4 && s != [] && ChunkEnd(s, cap) < |s|
    ensures ChunkEnd(s, cap) + ScalarLen(s, ChunkEnd(s, cap)) > cap
  {
    var end := ChunkEnd(s, cap);
    ChunkProgress(s, cap);
    assert ScalarAt(s, end);
    assert IsBoundary(s, end + ScalarLen(s, end));
  }

  /** The scalar that begins the second chunk is the one after the first chunk. */
  lemma SecondChunkHead(s: Text, end: nat, second: Text)
    requires end <= |s| && second != [] && second <= s[end..]
    ensures ScalarLen(second, 0) == ScalarLen(s, end)
  {
    assert ScalarAt(second, 0);
    var n := ScalarLen(second, 0);
    assert second[0..n] == s[end..end + n];
    ScalarLenLocal(second, 0, s, end, n);
  }

  /** The chunking is greedy: no chunk could have taken the scalar that follows it. */
  lemma {:induction false} ChunksGreedy(s: Text, cap: nat, k: nat)
    requires cap >= 4 && k + 1 < |Chunks(s, cap)|
    ensures |Chunks(s, cap)[k]| + ScalarLen(Chunks(s, cap)[k + 1], 0) > cap
    decreases |s|
  {
    hide Valid, ScalarLen, ChunkEnd;
    ChunksUnfold(s, cap);
    var end := ChunkEnd(s, cap);
    var rest: Text := s[end..];
    if k > 0 {
      ChunksGreedy(rest, cap, k - 1);
    } else {
      ChunksUnfold(rest, cap);
      FirstChunkGreedy(s, cap);
      SecondChunkHead(s, end, rest[..ChunkEnd(rest, cap)]);
    }
  }

  /** One call of the closure behind `utf8_chunks`. */
  method NextChunk(remaining: Text, cap: nat) returns (chunk: Text, rest: Text)
    requires remaining != [] && cap >= 4
    ensures chunk != [] && remaining == chunk + rest
    ensures Chunks(remaining, cap) == [chunk] + Chunks(rest, cap)
  {
    var end := WalkToBoundary(remaining, Min(|remaining|, AtLeastOne(cap)));
    hide Valid;
    ChunksUnfold(remaining, cap);
    chunk, rest := remaining[..end], remaining[end..];
  }

  lemma ConcatAssoc<T>(a: seq<T>, b: seq<T>, c: seq<T>)
    ensures a + (b + c) == (a + b) + c
  {
  }

  /** `utf8_chunks`, run to the end of its iterator. */
  method Utf8Chunks(value: Text, cap: nat) returns (chunks: seq<Text>)
    requires cap >= 4
    ensures chunks == Chunks(value, cap)
  {
    chunks := [];
    var remaining := value;
    while remaining != []
      invariant chunks + Chunks(remaining, cap) == Chunks(value, cap)
      decreases |remaining|
    {
      var chunk, rest := NextChunk(remaining, cap);
      ConcatAssoc(chunks, [chunk], Chunks(rest, cap));
      chunks := chunks + [chunk];
      remaining := rest;
    }
  }
}
