/**
 * The single-file copy of the navigator (script.js). Its state lives in
 * module-level variables that every handler mutates; here they are the
 * fields of one `Globals` object. Unlike the modular copy, it reads the
 * filter flags and the shuffle mode from that shared state.
 */
module Monolith {
  import opened Wrappers
  import opened Media
  import opened Filtering
  import opened Queue
  import opened Catalog
  import opened Shuffle

  class Globals {
    var items: seq<MediaItem>
    var currentIndex: int
    var currentMedia: MediaElement?
    var globalVolume: real
    var shuffleEnabled: bool
    var originalItems: seq<MediaItem>
    var isMuted: bool
    var volumeBeforeMute: real
    var showPictures: bool
    var showVideos: bool
    var shuffledQueue: seq<MediaItem>
    var currentQueueIndex: int
    var folderLoaded: bool

    /** The initial values of the module-level variables. */
    constructor ()
      ensures items == [] && currentIndex == 0 && currentMedia == null
      ensures globalVolume == 0.1 && volumeBeforeMute == 0.1 && !isMuted
      ensures !shuffleEnabled && showPictures && showVideos
      ensures originalItems == [] && shuffledQueue == [] && currentQueueIndex == 0 && !folderLoaded
      ensures Consistent()
    {
      items := [];
      currentIndex := 0;
      currentMedia := null;
      globalVolume := 0.1;
      shuffleEnabled := false;
      originalItems := [];
      isMuted := false;
      volumeBeforeMute := 0.1;
      showPictures := true;
      showVideos := true;
      shuffledQueue := [];
      currentQueueIndex := 0;
      folderLoaded := false;
    }

    /** The working set is fit to render under the current flags and mode. */
    ghost predicate Consistent()
      reads this
    {
      WorkingSetValid(originalItems, items, shuffledQueue, currentIndex, currentQueueIndex,
                      showPictures, showVideos, shuffleEnabled)
    }

    /** None of the four navigation fields changed. */
    twostate predicate WorkingSetUnchanged()
      reads this
    {
      items == old(items) && currentIndex == old(currentIndex) &&
      shuffledQueue == old(shuffledQueue) && currentQueueIndex == old(currentQueueIndex)
    }

    /** The state part of `showItem`: an index outside the working set is ignored. */
    method ShowItem(index: int)
      modifies this`currentIndex
      ensures 0 <= index < |items| ==> currentIndex == index
      ensures !(0 <= index < |items|) ==> currentIndex == old(currentIndex)
    {
      if index < 0 || index >= |items| {
        return;
      }
      currentIndex := index;
    }

    method CreateShuffledQueue(filteredItems: seq<MediaItem>)
      modifies this`shuffledQueue, this`currentQueueIndex
      ensures |shuffledQueue| == |filteredItems|
      ensures multiset(shuffledQueue) == multiset(filteredItems)
      ensures currentQueueIndex == 0
    {
      shuffledQueue := ShuffleArray(filteredItems);
      currentQueueIndex := 0;
    }

    /**
     * The item under the queue cursor, rebuilding the queue first when the
     * cursor has run off its end. This copy refilters with the live flags.
     */
    method GetNextShuffledItem() returns (r: Option<MediaItem>)
      modifies this`shuffledQueue, this`currentQueueIndex
      ensures old(currentQueueIndex) < |old(shuffledQueue)| ==>
        shuffledQueue == old(shuffledQueue) && currentQueueIndex == old(currentQueueIndex) &&
        r == ItemAt(shuffledQueue, currentQueueIndex)
      ensures old(currentQueueIndex) >= |old(shuffledQueue)| ==>
        var filtered := Filter(originalItems, showPictures, showVideos);
        if filtered == [] then
          r == None && shuffledQueue == old(shuffledQueue) && currentQueueIndex == old(currentQueueIndex)
        else
          multiset(shuffledQueue) == multiset(filtered) && currentQueueIndex == 0 &&
          r == Some(shuffledQueue[0]) && Passes(r.value, showPictures, showVideos)
    {
      if currentQueueIndex >= |shuffledQueue| {
        var filteredItems := Filter(originalItems, showPictures, showVideos);
        if |filteredItems| == 0 {
          return None;
        }
        CreateShuffledQueue(filteredItems);
        assert shuffledQueue[0] in multiset(filteredItems);
      }
      r := ItemAt(shuffledQueue, currentQueueIndex);
    }

    /**
     * The state part of `applyFilters`: rebuild the working set from the
     * catalog under the live flags and mode and keep the previously current
     * item current when it survived.
     */
    method ApplyFilters()
      modifies this`items, this`currentIndex, this`shuffledQueue, this`currentQueueIndex
      ensures Consistent()
      ensures currentIndex == Relocate(items, old(ItemAt(items, currentIndex)))
    {
      var currentItem := ItemAt(items, currentIndex);
      var filteredItems := Filter(originalItems, showPictures, showVideos);
      if shuffleEnabled {
        RebuildShuffled(currentItem, filteredItems);
      } else {
        RebuildSequential(currentItem, filteredItems);
      }
      // The closing `showItem(currentIndex)` renders the item; its state part
      // assigns `currentIndex` the valid index it already holds.
    }

    /** The shuffle branch of `applyFilters`: a fresh queue, with the previous item's place in it. */
    method RebuildShuffled(currentItem: Option<MediaItem>, filteredItems: seq<MediaItem>)
      modifies this`items, this`currentIndex, this`shuffledQueue, this`currentQueueIndex
      ensures multiset(shuffledQueue) == multiset(filteredItems)
      ensures items == shuffledQueue && currentIndex == currentQueueIndex
      ensures currentIndex == Relocate(items, currentItem)
    {
      CreateShuffledQueue(filteredItems);
      var currentItemIndex := FindIndexOf(shuffledQueue, currentItem);
      if currentItemIndex != -1 {
        currentQueueIndex := currentItemIndex;
      } else {
        currentQueueIndex := 0;
      }
      items := shuffledQueue;
      currentIndex := currentQueueIndex;
    }

    /** The sequential branch of `applyFilters`: the filtered catalog, with the previous item's place in it. */
    method RebuildSequential(currentItem: Option<MediaItem>, filteredItems: seq<MediaItem>)
      modifies this`items, this`currentIndex, this`shuffledQueue, this`currentQueueIndex
      ensures items == filteredItems && shuffledQueue == [] && currentQueueIndex == 0
      ensures currentIndex == Relocate(items, currentItem)
    {
      items := filteredItems;
      shuffledQueue := [];
      currentQueueIndex := 0;
      var newIndex := FindIndexOf(items, currentItem);
      if newIndex == -1 {
        newIndex := 0;
      }
      currentIndex := newIndex;
    }

    /**
     * One navigation step under the live mode and flags; the same rules as the
     * modular copy. Sequential mode stores nothing.
     */
    method GetNextValidIndex(direction: int) returns (r: int)
      modifies this`items, this`currentIndex, this`shuffledQueue, this`currentQueueIndex
      ensures |old(items)| == 0 ==> r == -1 && WorkingSetUnchanged()
      ensures |old(items)| > 0 && !shuffleEnabled ==>
        r == SequentialStep(currentIndex, direction, |items|) && WorkingSetUnchanged()
      ensures |old(items)| > 0 && shuffleEnabled ==>
        var moved := old(currentQueueIndex) + direction;
        var filtered := old(Filter(originalItems, showPictures, showVideos));
        if moved >= |old(shuffledQueue)| then
          if filtered == [] then
            r == -1 && currentQueueIndex == moved && currentIndex == old(currentIndex) &&
            items == old(items) && shuffledQueue == old(shuffledQueue)
          else
            r == 0 && currentIndex == 0 && currentQueueIndex == 0 && items == shuffledQueue &&
            multiset(shuffledQueue) == multiset(filtered)
        else if moved < 0 then
          r == |shuffledQueue| - 1 && currentQueueIndex == r && currentIndex == r &&
          items == old(items) && shuffledQueue == old(shuffledQueue)
        else
          r == moved && currentQueueIndex == moved && currentIndex == moved &&
          items == old(items) && shuffledQueue == old(shuffledQueue)
    {
      if |items| == 0 {
        return -1;
      }
      if shuffleEnabled {
        currentQueueIndex := currentQueueIndex + direction;
        if currentQueueIndex >= |shuffledQueue| {
          var filteredItems := Filter(originalItems, showPictures, showVideos);
          if |filteredItems| == 0 {
            return -1;
          }
          CreateShuffledQueue(filteredItems);
          items := shuffledQueue;
          currentIndex := 0;
          return 0;
        } else if currentQueueIndex < 0 {
          currentQueueIndex := |shuffledQueue| - 1;
          currentIndex := currentQueueIndex;
          return currentIndex;
        }
        currentIndex := currentQueueIndex;
        return currentIndex;
      } else {
        var newIndex := currentIndex + direction;
        if newIndex >= |items| {
          newIndex := 0;
        } else if newIndex < 0 {
          newIndex := |items| - 1;
        }
        return newIndex;
      }
    }

    /** An arrow key: take a step and show the index it gives, unless it is -1. */
    method Navigate(direction: int) returns (r: int)
      requires Consistent()
      modifies this`items, this`currentIndex, this`shuffledQueue, this`currentQueueIndex
      ensures Consistent()
      ensures r == -1 <==> |old(items)| == 0
      ensures r != -1 ==> currentIndex == r && 0 <= r < |items|
      ensures !shuffleEnabled && |old(items)| > 0 ==>
        items == old(items) && currentIndex == SequentialStep(old(currentIndex), direction, |items|)
      ensures shuffleEnabled && |old(items)| > 0 && old(currentIndex) + direction >= |old(items)| ==>
        r == 0
      ensures shuffleEnabled && |old(items)| > 0 && old(currentIndex) + direction < 0 ==>
        items == old(items) && r == |items| - 1
      ensures shuffleEnabled && 0 <= old(currentIndex) + direction < |old(items)| ==>
        items == old(items) && r == old(currentIndex) + direction
    {
      ghost var index0, items0 := currentIndex, items;
      ghost var queue0, queueIndex0 := shuffledQueue, currentQueueIndex;
      ghost var filtered := Filter(originalItems, showPictures, showVideos);
      if shuffleEnabled && |items0| > 0 && index0 + direction >= |items0| {
        NonEmptyPermutation(items0, filtered);
      }
      r := GetNextValidIndex(direction);
      if r != -1 {
        ShowItem(r);
      }
      if |items0| == 0 {
        assert Consistent();
      } else if !shuffleEnabled {
        SequentialStepInRange(index0, direction, |items0|);
        assert items == items0 && shuffledQueue == queue0 && currentQueueIndex == queueIndex0;
        SequentialReindex(originalItems, items, shuffledQueue, index0, currentIndex, currentQueueIndex,
                          showPictures, showVideos);
      } else {
        assert Consistent();
      }
    }

    /** Flips the mode and rebuilds the working set for it. */
    method ToggleShuffle()
      modifies this`shuffleEnabled, this`items, this`currentIndex, this`shuffledQueue, this`currentQueueIndex
      ensures shuffleEnabled == !old(shuffleEnabled)
      ensures Consistent()
      ensures currentIndex == Relocate(items, old(ItemAt(items, currentIndex)))
    {
      shuffleEnabled := !shuffleEnabled;
      ApplyFilters();
    }

    /** The pictures checkbox: set the flag and rebuild the working set. */
    method SetShowPictures(checked: bool)
      modifies this`showPictures, this`items, this`currentIndex, this`shuffledQueue, this`currentQueueIndex
      ensures showPictures == checked
      ensures Consistent()
      ensures currentIndex == Relocate(items, old(ItemAt(items, currentIndex)))
    {
      showPictures := checked;
      ApplyFilters();
    }

    /** The videos checkbox: set the flag and rebuild the working set. */
    method SetShowVideos(checked: bool)
      modifies this`showVideos, this`items, this`currentIndex, this`shuffledQueue, this`currentQueueIndex
      ensures showVideos == checked
      ensures Consistent()
      ensures currentIndex == Relocate(items, old(ItemAt(items, currentIndex)))
    {
      showVideos := checked;
      ApplyFilters();
    }

    /**
     * A folder was picked: the catalog becomes the files sorted by name, the
     * index is reset to 0 and the working set is rebuilt under the kept flags
     * and mode.
     */
    method LoadFolder(files: seq<MediaItem>, leq: (string, string) -> bool)
      modifies this`originalItems, this`folderLoaded, this`items, this`currentIndex,
               this`shuffledQueue, this`currentQueueIndex
      ensures originalItems == SortByName(files, leq)
      ensures TotalPreorder(leq) ==> SortedByName(originalItems, leq)
      ensures folderLoaded
      ensures Consistent()
      ensures currentIndex == Relocate(items, ItemAt(old(items), 0))
    {
      originalItems := SortByName(files, leq);
      if TotalPreorder(leq) {
        SortByNameSorted(files, leq);
      }
      currentIndex := 0;
      folderLoaded := true;
      ApplyFilters();
    }

    /**
     * A click on the volume icon. Muting saves the volume and zeroes it;
     * unmuting restores the saved volume. A playing element follows.
     */
    method ToggleMute()
      modifies this`isMuted, this`globalVolume, this`volumeBeforeMute, currentMedia
      ensures isMuted == !old(isMuted)
      ensures old(isMuted) ==> globalVolume == volumeBeforeMute == old(volumeBeforeMute)
      ensures !old(isMuted) ==> volumeBeforeMute == old(globalVolume) && globalVolume == 0.0
      ensures Playable(currentMedia) ==> currentMedia.volume == globalVolume
      ensures currentMedia != null && !Playable(currentMedia) ==> unchanged(currentMedia)
    {
      if isMuted {
        isMuted := false;
        globalVolume := volumeBeforeMute;
      } else {
        volumeBeforeMute := globalVolume;
        isMuted := true;
        globalVolume := 0.0;
      }
      if Playable(currentMedia) {
        currentMedia.volume := globalVolume;
      }
    }

    /**
     * The volume slider moved to `value`: the volume follows it, and a value
     * above 0 ends muting. The saved volume is untouched.
     */
    method SliderInput(value: real)
      modifies this`isMuted, this`globalVolume, currentMedia
      ensures globalVolume == value
      ensures isMuted == (old(isMuted) && value <= 0.0)
      ensures Playable(currentMedia) ==> currentMedia.volume == value
      ensures currentMedia != null && !Playable(currentMedia) ==> unchanged(currentMedia)
    {
      globalVolume := value;
      if globalVolume > 0.0 && isMuted {
        isMuted := false;
      }
      if Playable(currentMedia) {
        currentMedia.volume := globalVolume;
      }
    }
  }

  /** Muting and then unmuting gives back the volume from before. */
  method MuteRoundTrip(g: Globals)
    requires !g.isMuted
    modifies g, g.currentMedia
    ensures !g.isMuted && g.globalVolume == old(g.globalVolume)
  {
    g.ToggleMute();
    g.ToggleMute();
  }
}
