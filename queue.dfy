/**
 * The index bookkeeping both navigator copies share: looking an item up by
 * identity, reading `items[index]`, the sequential wrap-around, and the
 * consistency a working set keeps between navigation steps.
 */
module Queue {
  import opened Wrappers
  import opened Media
  import opened Filtering

  /** `items[index]`, which is `undefined` outside the bounds. */
  function ItemAt(s: seq<MediaItem>, index: int): (r: Option<MediaItem>)
    ensures r.Some? <==> 0 <= index < |s|
    ensures r.Some? ==> r.value == s[index]
  {
    if 0 <= index < |s| then Some(s[index]) else None
  }

  /** `s.findIndex(item => item === x)`: the first position of `x`, or -1. */
  function FindIndex<T(==)>(s: seq<T>, x: T): (r: int)
    ensures -1 <= r < |s|
    ensures r == -1 <==> x !in s
    ensures 0 <= r ==> s[r] == x && x !in s[..r]
  {
    if s == [] then -1
    else if s[0] == x then 0
    else
      var k := FindIndex(s[1..], x);
      if k == -1 then -1
      else
        assert s[..k + 1] == [s[0]] + s[1..][..k];
        k + 1
  }

  /** `findIndex` for a current item that may be `undefined`: no item of `s` is `undefined`. */
  function FindIndexOf(s: seq<MediaItem>, x: Option<MediaItem>): (r: int)
    ensures -1 <= r < |s|
    ensures r == -1 <==> x.None? || x.value !in s
    ensures 0 <= r ==> s[r] == x.value && x.value !in s[..r]
  {
    match x
    case None => -1
    case Some(item) => FindIndex(s, item)
  }

  /**
   * Where the previously current item lands in a rebuilt list: its first
   * position when it is still there, position 0 when it is not.
   */
  function Relocate(s: seq<MediaItem>, previous: Option<MediaItem>): (r: nat)
    ensures |s| > 0 ==> r < |s|
    ensures previous.Some? && previous.value in s ==> s[r] == previous.value && previous.value !in s[..r]
    ensures previous.None? || previous.value !in s ==> r == 0
  {
    var k := FindIndexOf(s, previous);
    if k == -1 then 0 else k
  }

  /**
   * The index sequential navigation proposes: one step of `direction` from
   * `index`, to 0 past the end and to the last index before the start.
   */
  function SequentialStep(index: int, direction: int, length: int): (r: int)
    ensures length > 0 ==> 0 <= r < length
    ensures 0 <= index + direction < length ==> r == index + direction
  {
    var next := index + direction;
    if next >= length then 0
    else if next < 0 then length - 1
    else next
  }

  /** Whatever the step, a non-empty list gets a valid index back. */
  lemma SequentialStepInRange(index: int, direction: int, length: int)
    requires length > 0
    ensures 0 <= SequentialStep(index, direction, length) < length
  {
  }

  /** For a single step from a valid index, sequential navigation is exactly circular. */
  lemma SequentialStepIsCircular(index: int, direction: int, length: int)
    requires 0 <= index < length
    requires direction == 1 || direction == -1
    ensures SequentialStep(index, direction, length) == (index + direction) % length
  {
    var next := index + direction;
    if next == length {
      ModWrap(next, length, 0);
    } else if next < 0 {
      ModWrap(next, length, length - 1);
    } else {
      ModWrap(next, length, next);
    }
  }

  /** The Euclidean remainder of a number at most one length away from the range `[0, length)`. */
  lemma ModWrap(n: int, length: int, b: int)
    requires 0 <= b < length && (n == b - length || n == b || n == b + length)
    ensures n % length == b
  {
  }

  /** Next followed by previous, and previous followed by next, come back to where they started. */
  lemma SequentialStepUndo(index: int, length: int)
    requires 0 <= index < length
    ensures SequentialStep(SequentialStep(index, 1, length), -1, length) == index
    ensures SequentialStep(SequentialStep(index, -1, length), 1, length) == index
  {
  }

  /**
   * A working set the navigator can render from: the index is valid whenever
   * there is an item; in shuffle mode the items are the shuffled queue, the two
   * indices agree and the queue is a permutation of the filtered catalog; in
   * sequential mode the items are the filtered catalog itself and the queue is
   * cleared.
   */
  ghost predicate WorkingSetValid(
    original: seq<MediaItem>, items: seq<MediaItem>, queue: seq<MediaItem>,
    index: int, queueIndex: int, showPictures: bool, showVideos: bool, shuffle: bool)
  {
    (|items| > 0 ==> 0 <= index < |items|) &&
    if shuffle then
      items == queue && index == queueIndex &&
      multiset(items) == multiset(Filter(original, showPictures, showVideos))
    else
      items == Filter(original, showPictures, showVideos) && queue == [] && queueIndex == 0
  }

  /** Moving to another valid index keeps a sequential working set valid. */
  lemma SequentialReindex(original: seq<MediaItem>, items: seq<MediaItem>, queue: seq<MediaItem>,
                          index: int, index': int, queueIndex: int, showPictures: bool, showVideos: bool)
    requires WorkingSetValid(original, items, queue, index, queueIndex, showPictures, showVideos, false)
    requires 0 <= index' < |items|
    ensures WorkingSetValid(original, items, queue, index', queueIndex, showPictures, showVideos, false)
  {
  }

  /** Two lists with the same multiset have the same members. */
  lemma SameElements(a: seq<MediaItem>, b: seq<MediaItem>)
    requires multiset(a) == multiset(b)
    ensures forall x :: x in a <==> x in b
  {
    forall x ensures x in a <==> x in b {
      assert x in a <==> x in multiset(a);
      assert x in b <==> x in multiset(b);
    }
  }

  /** An item that passes the filter is found again in a list holding exactly the passing items. */
  lemma RelocateSurvivor(items: seq<MediaItem>, original: seq<MediaItem>, showPictures: bool, showVideos: bool,
                         previous: Option<MediaItem>)
    requires forall x :: x in items <==> x in original && Passes(x, showPictures, showVideos)
    ensures previous.Some? && previous.value in original && Passes(previous.value, showPictures, showVideos)
            ==> ItemAt(items, Relocate(items, previous)) == previous
  {
  }

  /** A valid working set, in either mode, holds exactly the catalog items that pass the filter. */
  lemma WorkingSetMembers(
    original: seq<MediaItem>, items: seq<MediaItem>, queue: seq<MediaItem>,
    index: int, queueIndex: int, showPictures: bool, showVideos: bool, shuffle: bool)
    requires WorkingSetValid(original, items, queue, index, queueIndex, showPictures, showVideos, shuffle)
    ensures forall x :: x in items <==> x in original && Passes(x, showPictures, showVideos)
  {
    FilterMembers(original, showPictures, showVideos);
    if shuffle {
      SameElements(items, Filter(original, showPictures, showVideos));
    }
  }

  /**
   * After a rebuild that put the index where the previously current item
   * landed, an item that passes the filter is still the current one.
   */
  lemma SurvivorStaysCurrent(
    original: seq<MediaItem>, items: seq<MediaItem>, queue: seq<MediaItem>,
    index: int, queueIndex: int, showPictures: bool, showVideos: bool, shuffle: bool,
    previous: Option<MediaItem>)
    requires WorkingSetValid(original, items, queue, index, queueIndex, showPictures, showVideos, shuffle)
    requires index == Relocate(items, previous)
    ensures previous.Some? && previous.value in original && Passes(previous.value, showPictures, showVideos)
            ==> ItemAt(items, index) == previous
  {
    WorkingSetMembers(original, items, queue, index, queueIndex, showPictures, showVideos, shuffle);
    RelocateSurvivor(items, original, showPictures, showVideos, previous);
  }

  /** A permutation of a non-empty list is not empty. */
  lemma NonEmptyPermutation(a: seq<MediaItem>, b: seq<MediaItem>)
    requires multiset(a) == multiset(b)
    requires |a| > 0
    ensures b != []
  {
    assert |multiset(a)| == |a|;
  }
}
