/** The modular navigator: the `Navigation` class and its caller's step (navigation.js, app.js). */
module Navigator {
  import opened Wrappers
  import opened Media
  import opened Filtering
  import opened Queue
  import opened Catalog
  import opened Shuffle

  /** A `setTimeout` handle; browsers hand out positive integers. */
  type TimerId = x: int | x > 0 witness 1

  /** What `applyFilters` returns to its caller. */
  datatype FilterOutcome = FilterOutcome(items: seq<MediaItem>, currentIndex: int, hasItems: bool)

  /**
   * `this.showPictures` and `this.showVideos` are read by `getNextShuffledItem`
   * but never assigned; they are `undefined`, which the filter treats as false.
   */
  const UnsetShowPictures: bool := false
  const UnsetShowVideos: bool := false

  class Navigation {
    var items: seq<MediaItem>
    var currentIndex: int
    var originalItems: seq<MediaItem>
    var shuffledQueue: seq<MediaItem>
    var currentQueueIndex: int
    var autoScrollTimer: Option<TimerId>

    constructor ()
      ensures items == [] && currentIndex == 0 && originalItems == []
      ensures shuffledQueue == [] && currentQueueIndex == 0 && autoScrollTimer == None
    {
      items := [];
      currentIndex := 0;
      originalItems := [];
      shuffledQueue := [];
      currentQueueIndex := 0;
      autoScrollTimer := None;
    }

    /** The working set is fit to render under the given flags and mode. */
    ghost predicate Consistent(showPictures: bool, showVideos: bool, shuffleEnabled: bool)
      reads this
    {
      WorkingSetValid(originalItems, items, shuffledQueue, currentIndex, currentQueueIndex,
                      showPictures, showVideos, shuffleEnabled)
    }

    /** `this.items[this.currentIndex]`, `undefined` when the index is out of range. */
    function GetCurrentItem(): (r: Option<MediaItem>)
      reads this
      ensures r.Some? <==> 0 <= currentIndex < |items|
      ensures r.Some? ==> r.value == items[currentIndex]
    {
      ItemAt(items, currentIndex)
    }

    function GetCurrentIndex(): (r: int)
      reads this
      ensures r == currentIndex
    {
      currentIndex
    }

    function GetItems(): (r: seq<MediaItem>)
      reads this
      ensures r == items
    {
      items
    }

    function GetOriginalItems(): (r: seq<MediaItem>)
      reads this
      ensures r == originalItems
    {
      originalItems
    }

    function HasTimer(): (r: bool)
      reads this
      ensures r <==> autoScrollTimer.Some?
    {
      autoScrollTimer.Some?
    }

    method SetCurrentIndex(index: int)
      modifies this`currentIndex
      ensures currentIndex == index
    {
      currentIndex := index;
    }

    method SetItems(newItems: seq<MediaItem>)
      modifies this`items
      ensures items == newItems
    {
      items := newItems;
    }

    /**
     * Replaces the catalog with the files sorted by name and resets the
     * index; the working set is rebuilt only by the next `ApplyFilters`.
     */
    method LoadFiles(files: seq<MediaItem>, leq: (string, string) -> bool) returns (r: seq<MediaItem>)
      modifies this`originalItems, this`currentIndex
      ensures originalItems == SortByName(files, leq) && r == originalItems
      ensures multiset(originalItems) == multiset(files)
      ensures TotalPreorder(leq) ==> SortedByName(originalItems, leq)
      ensures currentIndex == 0
    {
      originalItems := SortByName(files, leq);
      if TotalPreorder(leq) {
        SortByNameSorted(files, leq);
      }
      currentIndex := 0;
      r := originalItems;
    }

    /** A fresh random permutation of `filteredItems`, read from its start. */
    method CreateShuffledQueue(filteredItems: seq<MediaItem>)
      modifies this`shuffledQueue, this`currentQueueIndex
      ensures |shuffledQueue| == |filteredItems|
      ensures multiset(shuffledQueue) == multiset(filteredItems)
      ensures currentQueueIndex == 0
    {
      shuffledQueue := ShuffleArray(filteredItems);
      currentQueueIndex := 0;
    }

    /**
     * The item under the queue cursor, rebuilding the queue first when the
     * cursor has run off its end. The rebuild filters with the unset flags, so
     * it keeps only audio and other kinds; when nothing is left it returns
     * `null` and leaves the queue as it was.
     */
    method GetNextShuffledItem() returns (r: Option<MediaItem>)
      modifies this`shuffledQueue, this`currentQueueIndex
      ensures old(currentQueueIndex) < |old(shuffledQueue)| ==>
        shuffledQueue == old(shuffledQueue) && currentQueueIndex == old(currentQueueIndex) &&
        r == ItemAt(shuffledQueue, currentQueueIndex)
      ensures old(currentQueueIndex) >= |old(shuffledQueue)| ==>
        var filtered := Filter(originalItems, UnsetShowPictures, UnsetShowVideos);
        if filtered == [] then
          r == None && shuffledQueue == old(shuffledQueue) && currentQueueIndex == old(currentQueueIndex)
        else
          multiset(shuffledQueue) == multiset(filtered) && currentQueueIndex == 0 &&
          r == Some(shuffledQueue[0]) && r.value.kind in {Audio, Other}
    {
      if currentQueueIndex >= |shuffledQueue| {
        var filteredItems := Filter(originalItems, UnsetShowPictures, UnsetShowVideos);
        if |filteredItems| == 0 {
          return None;
        }
        CreateShuffledQueue(filteredItems);
        assert shuffledQueue[0] in multiset(filteredItems);
      }
      r := ItemAt(shuffledQueue, currentQueueIndex);
    }

    /**
     * Rebuilds the working set from the catalog under the given flags and
     * mode, and keeps the previously current item current when it survived.
     * The catalog is not touched.
     */
    method ApplyFilters(showPictures: bool, showVideos: bool, shuffleEnabled: bool) returns (res: FilterOutcome)
      modifies this`items, this`currentIndex, this`shuffledQueue, this`currentQueueIndex
      ensures Consistent(showPictures, showVideos, shuffleEnabled)
      ensures currentIndex == Relocate(items, old(GetCurrentItem()))
      ensures res == FilterOutcome(items, currentIndex, |items| > 0)
      ensures res.hasItems ==> 0 <= res.currentIndex < |res.items|
    {
      var currentItem := GetCurrentItem();
      var filteredItems := Filter(originalItems, showPictures, showVideos);
      if shuffleEnabled {
        RebuildShuffled(currentItem, filteredItems);
      } else {
        RebuildSequential(currentItem, filteredItems);
      }
      res := FilterOutcome(items, currentIndex, |items| > 0);
    }

    /** The shuffle branch of `applyFilters`: a fresh queue, with the previous item's place in it. */
    method RebuildShuffled(currentItem: Option<MediaItem>, filteredItems: seq<MediaItem>)
      modifies this`items, this`currentIndex, this`shuffledQueue, this`currentQueueIndex
      ensures multiset(shuffledQueue) == multiset(filteredItems)
      ensures items == shuffledQueue && currentIndex == currentQueueIndex
      ensures currentIndex == Relocate(items, currentItem)
    {
      CreateShuffledQueue(filteredItems);
      var currentItemIndex := FindIndexOf(shuffledQueue, currentItem);
      if currentItemIndex != -1 {
        currentQueueIndex := currentItemIndex;
      } else {
        currentQueueIndex := 0;
      }
      items := shuffledQueue;
      currentIndex := currentQueueIndex;
    }

    /** The sequential branch of `applyFilters`: the filtered catalog, with the previous item's place in it. */
    method RebuildSequential(currentItem: Option<MediaItem>, filteredItems: seq<MediaItem>)
      modifies this`items, this`currentIndex, this`shuffledQueue, this`currentQueueIndex
      ensures items == filteredItems && shuffledQueue == [] && currentQueueIndex == 0
      ensures currentIndex == Relocate(items, currentItem)
    {
      items := filteredItems;
      shuffledQueue := [];
      currentQueueIndex := 0;
      var newIndex := FindIndexOf(items, currentItem);
      if newIndex == -1 {
        newIndex := 0;
      }
      currentIndex := newIndex;
    }

    /**
     * One navigation step. An empty working set gives -1 and nothing changes.
     * Sequential mode only proposes the wrapped index and stores nothing. Shuffle
     * mode moves the queue cursor: past the end it rebuilds the queue from the
     * flags passed in and returns 0 (or -1, with the cursor left past the end,
     * when the filter leaves nothing); before the start it returns the last
     * index of the same queue; otherwise the moved cursor.
     */
    method GetNextValidIndex(direction: int, shuffleEnabled: bool, showPictures: bool, showVideos: bool)
      returns (r: int)
      modifies this`items, this`currentIndex, this`shuffledQueue, this`currentQueueIndex
      ensures |old(items)| == 0 ==> r == -1 && unchanged(this)
      ensures |old(items)| > 0 && !shuffleEnabled ==>
        r == SequentialStep(currentIndex, direction, |items|) && unchanged(this)
      ensures |old(items)| > 0 && shuffleEnabled ==>
        var moved := old(currentQueueIndex) + direction;
        var filtered := Filter(originalItems, showPictures, showVideos);
        if moved >= |old(shuffledQueue)| then
          if filtered == [] then
            r == -1 && currentQueueIndex == moved && currentIndex == old(currentIndex) &&
            items == old(items) && shuffledQueue == old(shuffledQueue)
          else
            r == 0 && currentIndex == 0 && currentQueueIndex == 0 && items == shuffledQueue &&
            multiset(shuffledQueue) == multiset(filtered)
        else if moved < 0 then
          r == |shuffledQueue| - 1 && currentQueueIndex == r && currentIndex == r &&
          items == old(items) && shuffledQueue == old(shuffledQueue)
        else
          r == moved && currentQueueIndex == moved && currentIndex == moved &&
          items == old(items) && shuffledQueue == old(shuffledQueue)
    {
      if |items| == 0 {
        return -1;
      }
      if shuffleEnabled {
        currentQueueIndex := currentQueueIndex + direction;
        if currentQueueIndex >= |shuffledQueue| {
          var filteredItems := Filter(originalItems, showPictures, showVideos);
          if |filteredItems| == 0 {
            return -1;
          }
          CreateShuffledQueue(filteredItems);
          items := shuffledQueue;
          currentIndex := 0;
          return 0;
        } else if currentQueueIndex < 0 {
          currentQueueIndex := |shuffledQueue| - 1;
          currentIndex := currentQueueIndex;
          return currentIndex;
        }
        currentIndex := currentQueueIndex;
        return currentIndex;
      } else {
        var newIndex := currentIndex + direction;
        if newIndex >= |items| {
          newIndex := 0;
        } else if newIndex < 0 {
          newIndex := |items| - 1;
        }
        return newIndex;
      }
    }

    /**
     * A navigation request as the application handles it: the proposed index
     * is stored when it is not -1 and lies inside the working set, which is
     * the guard of the application's `showItem`. A consistent working set stays
     * consistent, and -1 comes back exactly when there is nothing to show.
     */
    method Navigate(direction: int, shuffleEnabled: bool, showPictures: bool, showVideos: bool) returns (r: int)
      requires Consistent(showPictures, showVideos, shuffleEnabled)
      modifies this`items, this`currentIndex, this`shuffledQueue, this`currentQueueIndex
      ensures Consistent(showPictures, showVideos, shuffleEnabled)
      ensures originalItems == old(originalItems)
      ensures r == -1 <==> |old(items)| == 0
      ensures r != -1 ==> currentIndex == r && 0 <= r < |items|
      ensures !shuffleEnabled && |old(items)| > 0 ==>
        items == old(items) && currentIndex == SequentialStep(old(currentIndex), direction, |items|)
      ensures shuffleEnabled && |old(items)| > 0 && old(currentIndex) + direction >= |old(items)| ==>
        r == 0
      ensures shuffleEnabled && |old(items)| > 0 && old(currentIndex) + direction < 0 ==>
        items == old(items) && r == |items| - 1
      ensures shuffleEnabled && 0 <= old(currentIndex) + direction < |old(items)| ==>
        items == old(items) && r == old(currentIndex) + direction
    {
      ghost var index0, length0 := currentIndex, |items|;
      r := GetNextValidIndex(direction, shuffleEnabled, showPictures, showVideos);
      if r != -1 && 0 <= r < |items| {
        SetCurrentIndex(r);
      }
      if !shuffleEnabled && length0 > 0 {
        SequentialStepInRange(index0, direction, length0);
      }
      if shuffleEnabled && |old(items)| > 0 && old(currentIndex) + direction >= |old(items)| {
        NonEmptyPermutation(old(items), Filter(originalItems, showPictures, showVideos));
      }
    }

    /** Clears the auto-advance handle; cancelling the browser timer itself is not modelled. */
    method ClearTimer()
      modifies this`autoScrollTimer
      ensures !HasTimer()
    {
      if autoScrollTimer.Some? {
        autoScrollTimer := None;
      }
    }

    /**
     * The handle bookkeeping of `startImageTimer`: the handle `setTimeout`
     * returned replaces the previous one. The timer callback is not modelled.
     */
    method StartImageTimer(handle: TimerId)
      modifies this`autoScrollTimer
      ensures HasTimer() && autoScrollTimer == Some(handle)
    {
      autoScrollTimer := Some(handle);
    }
  }
}
