/** The type filter applied to the catalog before navigation. */
module Filtering {
  import opened Media

  /**
   * An item is shown unless it is an image while pictures are hidden, or a
   * video while videos are hidden. Audio and every other kind always pass.
   */
  predicate Passes(item: MediaItem, showPictures: bool, showVideos: bool)
    ensures item.kind == Image ==> (Passes(item, showPictures, showVideos) <==> showPictures)
    ensures item.kind == Video ==> (Passes(item, showPictures, showVideos) <==> showVideos)
    ensures item.kind == Audio || item.kind == Other ==> Passes(item, showPictures, showVideos)
  {
    !(item.kind == Image && !showPictures) && !(item.kind == Video && !showVideos)
  }

  /** `Array.prototype.filter` with the predicate above. */
  function Filter(s: seq<MediaItem>, showPictures: bool, showVideos: bool): (r: seq<MediaItem>)
    ensures |r| <= |s|
    ensures forall i :: 0 <= i < |r| ==> Passes(r[i], showPictures, showVideos)
  {
    if s == [] then []
    else
      (if Passes(s[0], showPictures, showVideos) then [s[0]] else [])
      + Filter(s[1..], showPictures, showVideos)
  }

  /** Filtering keeps the catalog order: it distributes over concatenation. */
  lemma {:induction false} FilterAppend(a: seq<MediaItem>, b: seq<MediaItem>, showPictures: bool, showVideos: bool)
    ensures Filter(a + b, showPictures, showVideos)
         == Filter(a, showPictures, showVideos) + Filter(b, showPictures, showVideos)
  {
    if a == [] {
      assert a + b == b;
    } else {
      assert (a + b)[0] == a[0] && (a + b)[1..] == a[1..] + b;
      FilterAppend(a[1..], b, showPictures, showVideos);
    }
  }

  /** Each item occurs in the result exactly as often as in the input if it passes, and not at all otherwise. */
  lemma {:induction false} FilterCount(s: seq<MediaItem>, showPictures: bool, showVideos: bool, x: MediaItem)
    ensures multiset(Filter(s, showPictures, showVideos))[x]
         == if Passes(x, showPictures, showVideos) then multiset(s)[x] else 0
  {
    if s != [] {
      var head := if Passes(s[0], showPictures, showVideos) then [s[0]] else [];
      assert multiset(Filter(s, showPictures, showVideos))
          == multiset(head) + multiset(Filter(s[1..], showPictures, showVideos));
      assert s == [s[0]] + s[1..];
      assert multiset(s) == multiset([s[0]]) + multiset(s[1..]);
      FilterCount(s[1..], showPictures, showVideos, x);
    }
  }

  /** The members of a filtered list are exactly the passing members of the input. */
  lemma FilterMembers(s: seq<MediaItem>, showPictures: bool, showVideos: bool)
    ensures forall x :: x in Filter(s, showPictures, showVideos) <==> x in s && Passes(x, showPictures, showVideos)
  {
    var r := Filter(s, showPictures, showVideos);
    forall x ensures x in r <==> x in s && Passes(x, showPictures, showVideos) {
      FilterCount(s, showPictures, showVideos, x);
      assert x in r <==> x in multiset(r);
      assert x in s <==> x in multiset(s);
    }
  }

  /** With both kinds shown, nothing is dropped. */
  lemma {:induction false} FilterShowAll(s: seq<MediaItem>)
    ensures Filter(s, true, true) == s
  {
    if s != [] {
      FilterShowAll(s[1..]);
      assert s == [s[0]] + s[1..];
    }
  }

  /** With both kinds hidden, only audio and other kinds are left, and all of them are. */
  lemma FilterHideAll(s: seq<MediaItem>)
    ensures forall i :: 0 <= i < |Filter(s, false, false)| ==> Filter(s, false, false)[i].kind in {Audio, Other}
    ensures forall x :: x in s && x.kind in {Audio, Other} ==> x in Filter(s, false, false)
  {
    FilterMembers(s, false, false);
  }

  /**
   * A worked example: the catalog [A image, B video, C audio, D image] with
   * pictures hidden and videos shown leaves [B, C].
   */
  lemma ExampleCatalog(a: MediaItem, b: MediaItem, c: MediaItem, d: MediaItem)
    requires a.kind == Image && b.kind == Video && c.kind == Audio && d.kind == Image
    ensures Filter([a, b, c, d], false, true) == [b, c]
  {
    assert [a, b, c, d][1..] == [b, c, d] && [b, c, d][1..] == [c, d] && [c, d][1..] == [d];
    assert Filter([d], false, true) == [];
    assert Filter([c, d], false, true) == [c];
    assert Filter([b, c, d], false, true) == [b, c];
  }
}
