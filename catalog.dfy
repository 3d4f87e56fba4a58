/** The catalog: the selected folder's files, sorted by name. */
module Catalog {
  import opened Media

  /**
   * `leq(a, b)` stands for `a.localeCompare(b) <= 0`. The collation itself is
   * not modelled; sorting only needs the comparator to be total and transitive.
   */
  ghost predicate TotalPreorder(leq: (string, string) -> bool)
  {
    (forall a, b :: leq(a, b) || leq(b, a)) &&
    (forall a, b, c :: leq(a, b) && leq(b, c) ==> leq(a, c))
  }

  ghost predicate SortedByName(s: seq<MediaItem>, leq: (string, string) -> bool)
  {
    forall i, j :: 0 <= i < j < |s| ==> leq(s[i].name, s[j].name)
  }

  /** Puts `x` in front of the first item it does not sort after. */
  function Insert(x: MediaItem, s: seq<MediaItem>, leq: (string, string) -> bool): (r: seq<MediaItem>)
    ensures multiset(r) == multiset(s) + multiset{x}
  {
    if s == [] then [x]
    else if leq(x.name, s[0].name) then [x] + s
    else
      assert s == [s[0]] + s[1..];
      [s[0]] + Insert(x, s[1..], leq)
  }

  /**
   * `files.sort((a, b) => a.name.localeCompare(b.name))` as an insertion sort.
   * It is stable by construction, since an earlier item goes in front of later
   * items with an equal name, as under the stable `Array.prototype.sort`. The
   * contracts state the permutation and the order by name, not that stability.
   */
  function SortByName(s: seq<MediaItem>, leq: (string, string) -> bool): (r: seq<MediaItem>)
    ensures multiset(r) == multiset(s)
  {
    if s == [] then []
    else
      assert s == [s[0]] + s[1..];
      Insert(s[0], SortByName(s[1..], leq), leq)
  }

  /** A name that sorts before `x` and before every item of `s` sorts before every item of the insertion. */
  lemma {:induction false} InsertLowerBound(y: string, x: MediaItem, s: seq<MediaItem>, leq: (string, string) -> bool)
    requires leq(y, x.name)
    requires forall k :: 0 <= k < |s| ==> leq(y, s[k].name)
    ensures forall k :: 0 <= k < |Insert(x, s, leq)| ==> leq(y, Insert(x, s, leq)[k].name)
  {
    if s != [] && !leq(x.name, s[0].name) {
      InsertLowerBound(y, x, s[1..], leq);
      assert Insert(x, s, leq) == [s[0]] + Insert(x, s[1..], leq);
    }
  }

  lemma {:induction false} InsertSorted(x: MediaItem, s: seq<MediaItem>, leq: (string, string) -> bool)
    requires TotalPreorder(leq)
    requires SortedByName(s, leq)
    ensures SortedByName(Insert(x, s, leq), leq)
  {
    if s != [] && !leq(x.name, s[0].name) {
      var rest := Insert(x, s[1..], leq);
      InsertSorted(x, s[1..], leq);
      assert leq(s[0].name, x.name);
      InsertLowerBound(s[0].name, x, s[1..], leq);
      assert Insert(x, s, leq) == [s[0]] + rest;
    } else if s != [] {
      var r := [x] + s;
      forall i, j | 0 <= i < j < |r| ensures leq(r[i].name, r[j].name) {
        if i == 0 && j > 1 {
          assert leq(x.name, s[0].name) && leq(s[0].name, s[j - 1].name);
        }
      }
    }
  }

  /** The catalog is sorted by name. */
  lemma {:induction false} SortByNameSorted(s: seq<MediaItem>, leq: (string, string) -> bool)
    requires TotalPreorder(leq)
    ensures SortedByName(SortByName(s, leq), leq)
  {
    if s != [] {
      SortByNameSorted(s[1..], leq);
      InsertSorted(s[0], SortByName(s[1..], leq), leq);
    }
  }
}
