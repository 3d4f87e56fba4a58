# Scroller navigator, modelled in Dafny

Scroller is a browser media viewer. The user picks a folder, and it shows the
folder's images, videos and audio files one at a time. The arrow keys move
forward and back. The end of a video or an audio file, and an image timer, move
to the next item. The part modelled here decides which item comes next. Four
things govern that choice: sequential order or a shuffle queue, the image and
video type filter, the direction of the step, and the previously shown item.
That item is looked up again by identity whenever the filter, the mode or the
folder changes (`applyFilters`). A shuffle queue that runs out is rebuilt from
position 0, with no lookup. The repository contains this navigator twice:

- the `Navigation` class (navigation.js), driven by the coordinator in app.js;
- a copy over module-level variables (script.js). It reads the filter flags and
  the shuffle mode from those globals instead of receiving them as arguments.

The model also covers the media player's volume, mute and current-element
bookkeeping (mediaPlayer.js, and the same mute and slider handlers in script.js).
It also covers the player's `formatTime` timestamp formatter.

Modules:

- `Wrappers`: `Option`, which stands for `null` and `undefined`.
- `Media`: the item kinds, the MIME-prefix classification, and the `MediaItem` and
  `MediaElement` objects. A `MediaItem` is a class, so `==` is reference identity,
  as `===` is in JavaScript.
- `Catalog`: the name sort of the picked files, under an abstract comparator.
- `Filtering`: the type filter.
- `Queue`: identity lookup, index reads, the sequential wrap-around, and
  `WorkingSetValid`. That predicate is the consistency that a rebuilt working set
  (`items`, `shuffledQueue` and the two indices) keeps.
- `Shuffle`: the Fisher–Yates loop over an array copy.
- `Navigator`: the `Navigation` class and the caller's step-then-show composition.
- `Monolith`: the script.js copy, with its globals as the fields of one
  `Globals` object.
- `Player`: the `MediaPlayer` class's volume and mute state.
- `Clock`: `formatTime`, and `ParseClock`, a reader for its output that proves
  the text encodes the input.

Seconds are whole numbers (`nat`), and NaN is `None`. Volumes are `real` values
that are only copied, zeroed and compared with 0.

## Model

| member | source | states |
|---|---|---|
| Media.Classify | mediaPlayer.js:25-31 | the kind is Video exactly when the MIME type starts with "video", Audio exactly when it starts with "audio", Image exactly when it starts with "image", and Other when it starts with none of them; so the order of the prefix tests does not matter |
| Media.Playable | mediaPlayer.js:385 | an element is playable exactly when it exists and is a video or audio element; images and other kinds are not |
| Media.MediaItem.constructor | navigation.js:63-67 | a file keeps its name and MIME type, and its kind is the classification of that MIME type |
| Media.MediaElement.constructor | mediaPlayer.js:37-44 | a new player element has the given tag and volume |
| Catalog.Insert | navigation.js:21 | one insertion step of the name sort: the result holds the input's items plus the inserted one, each as often as before |
| Catalog.SortByName | navigation.js:21 | the sorted catalog is a permutation of the picked files |
| Catalog.InsertLowerBound | navigation.js:21 | a name that sorts before the inserted item and before every item of the list sorts before every item of the result |
| Catalog.InsertSorted | navigation.js:21 | under a total, transitive comparator, inserting into a name-sorted list leaves it name-sorted |
| Catalog.SortByNameSorted | navigation.js:21 | under a total, transitive comparator, the catalog is sorted by name |
| Filtering.Filter | navigation.js:63-67 | the filtered list is no longer than the catalog, and every item in it passes the filter |
| Filtering.Passes | navigation.js:63-67 | an image passes exactly when pictures are shown, a video exactly when videos are shown, and audio and other kinds always pass |
| Filtering.FilterAppend | navigation.js:63-67 | filtering distributes over concatenation, so catalog order is preserved |
| Filtering.FilterCount | navigation.js:63-67 | an item that passes occurs in the result exactly as often as in the catalog; an item that fails does not occur at all |
| Filtering.FilterMembers | navigation.js:63-67 | an item is in the filtered list if and only if it is in the catalog and passes |
| Filtering.FilterShowAll | navigation.js:63-67 | with pictures and videos both shown, nothing is dropped |
| Filtering.FilterHideAll | navigation.js:45-49 | with both flags false, as in the shuffle refill that reads the unset fields, only audio and other kinds remain, and all of them do |
| Filtering.ExampleCatalog | navigation.js:63-67 | catalog [image, video, audio, image] with pictures hidden and videos shown filters to [video, audio] |
| Queue.ItemAt | navigation.js:213-215 | `items[index]` is defined exactly when the index is in range, and is then that element |
| Queue.FindIndex | navigation.js:90 | `findIndex` by identity gives -1 exactly when the item is absent, and otherwise a position holding it with no earlier occurrence |
| Queue.FindIndexOf | navigation.js:74 | the same for a current item that may be `undefined`: an `undefined` item is never found |
| Queue.Relocate | navigation.js:74-94 | the rebuilt index is the first position of the previous item when it is still present and 0 otherwise; it is valid whenever the list is non-empty |
| Queue.SequentialStep | navigation.js:137-146 | over a non-empty list the proposed index is valid, and a step that stays inside the list is the old index plus the direction |
| Queue.SequentialStepInRange | navigation.js:137-146 | any sequential step over a non-empty list proposes a valid index |
| Queue.SequentialStepIsCircular | navigation.js:137-146 | from a valid index, a step of +1 or -1 is `(index + direction) mod length` |
| Queue.SequentialStepUndo | navigation.js:137-146 | next followed by previous, and previous followed by next, return to the starting index |
| Queue.SequentialReindex | app.js:122-126 | storing another valid index keeps a sequential working set valid |
| Queue.RelocateSurvivor | navigation.js:74-94 | in a list that holds exactly the passing catalog items, a previous item that passes is found again |
| Queue.WorkingSetMembers | navigation.js:69-95 | a valid working set holds exactly the catalog items that pass the filter, in shuffle mode and in sequential mode |
| Queue.SurvivorStaysCurrent | navigation.js:73-94 | after a rebuild, a previously current item that passes the filter is the current item again, as the same object |
| Queue.NonEmptyPermutation | navigation.js:112-125 | a permutation of a non-empty list is non-empty, so the refill of a non-empty shuffle queue never finds the filter empty |
| Shuffle.SwapPermutes | navigation.js:30 | exchanging two positions keeps the length and the multiset of the list |
| Shuffle.ShuffleArray | navigation.js:26-33 | for every choice of the random positions, the result is a permutation of the input, and the input is untouched |
| Navigator.Navigation.constructor | navigation.js:3-14 | everything starts empty, both indices start at 0, and there is no timer |
| Navigator.Navigation.GetCurrentItem | navigation.js:213-215 | the current item is defined exactly when the index is in range, and is then `items[currentIndex]` |
| Navigator.Navigation.GetCurrentIndex | navigation.js:209-211 | reads the current index without changing anything |
| Navigator.Navigation.GetItems | navigation.js:217-219 | reads the working set without changing anything |
| Navigator.Navigation.GetOriginalItems | navigation.js:221-223 | reads the catalog without changing anything |
| Navigator.Navigation.HasTimer | navigation.js:225-227 | true exactly when a timer handle is held |
| Navigator.Navigation.SetCurrentIndex | navigation.js:230-232 | stores the index and changes nothing else |
| Navigator.Navigation.SetItems | navigation.js:234-236 | stores the list and changes nothing else |
| Navigator.Navigation.LoadFiles | navigation.js:20-24 | the catalog becomes the files sorted by name; it is a permutation of them and is returned; the index is reset to 0; the working set and queue are untouched |
| Navigator.Navigation.CreateShuffledQueue | navigation.js:35-39 | the queue becomes a permutation of the filtered items and its cursor is 0 |
| Navigator.Navigation.GetNextShuffledItem | navigation.js:41-57 | within the queue it returns the item under the cursor; past the end it refills the queue from the catalog filtered with the unset flags, so the item is audio or another kind, or it returns `null` with the queue untouched when nothing passes |
| Navigator.Navigation.ApplyFilters | navigation.js:59-102 | the rebuilt working set is valid for the given flags and mode; the index is where the previous item landed; the returned record reports the items, the index and whether any item is left; the catalog is untouched |
| Navigator.Navigation.RebuildShuffled | navigation.js:69-82 | shuffle branch: the queue is a permutation of the filtered items, the items are the queue, both indices agree, and they point at the previous item's place |
| Navigator.Navigation.RebuildSequential | navigation.js:83-95 | sequential branch: the items are the filtered list, the queue is cleared, the queue cursor is 0, and the index is the previous item's place |
| Navigator.Navigation.GetNextValidIndex | navigation.js:104-148 | -1 with no change on an empty working set; in sequential mode, the wrapped index, with nothing stored; in shuffle mode, past the end a refill from the flags passed in that returns 0, or -1 with the cursor left past the end when nothing passes; before the start, the last index of the same queue; otherwise the moved cursor, stored in both indices |
| Navigator.Navigation.Navigate | app.js:62-72 | a step followed by the guarded show keeps a valid working set valid and the catalog untouched; -1 comes back exactly when there is nothing to show, and otherwise the index is stored and valid; sequential mode moves to the wrapped step of the old index; shuffle mode returns 0 past the end, the last queue index before the start, and otherwise the old index plus the direction, over the same items |
| Navigator.Navigation.ClearTimer | navigation.js:162-167 | afterwards there is no timer handle |
| Navigator.Navigation.StartImageTimer | navigation.js:150-160 | the new handle replaces any old one |
| Monolith.Globals.constructor | script.js:4-25 | the initial values of the navigator and volume globals, with a valid (empty, sequential) working set |
| Monolith.Globals.ShowItem | script.js:27-31 | an index outside the working set is ignored; otherwise it becomes the current index |
| Monolith.Globals.CreateShuffledQueue | script.js:583-587 | the queue becomes a permutation of the filtered items and its cursor is 0 |
| Monolith.Globals.GetNextShuffledItem | script.js:589-605 | within the queue it returns the item under the cursor; past the end it refills the queue with the live flags and returns a passing item, or `null` with the queue untouched when nothing passes |
| Monolith.Globals.ApplyFilters | script.js:607-643 | the rebuilt working set is valid under the live flags and mode, and the index is where the previous item landed |
| Monolith.Globals.RebuildShuffled | script.js:617-630 | shuffle branch: the queue is a permutation of the filtered items, the items are the queue, both indices agree, and they point at the previous item's place |
| Monolith.Globals.RebuildSequential | script.js:631-643 | sequential branch: the items are the filtered list, the queue is cleared, and the index is the previous item's place |
| Monolith.Globals.GetNextValidIndex | script.js:776-820 | the same rules as the modular copy, under the live mode and flags; sequential mode stores nothing |
| Monolith.Globals.Navigate | script.js:953-959 | an arrow key keeps a valid working set valid; -1 comes back exactly when the working set is empty, and otherwise the index is stored and valid; sequential mode moves to the wrapped step; shuffle mode returns 0 past the end, the last index before the start, and otherwise the old index plus the direction, over the same items |
| Monolith.Globals.ToggleShuffle | script.js:569-573 | the mode flips, and the working set is rebuilt and valid for the new mode, with the previous item's place as its index |
| Monolith.Globals.SetShowPictures | script.js:501-504 | the pictures flag takes the checkbox value, and the working set is rebuilt and valid |
| Monolith.Globals.SetShowVideos | script.js:513-516 | the videos flag takes the checkbox value, and the working set is rebuilt and valid |
| Monolith.Globals.LoadFolder | script.js:937-945 | the catalog is the files sorted by name, the folder is marked loaded, the working set is rebuilt and valid, and the index is where the first item of the old working set lands |
| Monolith.Globals.ToggleMute | script.js:392-412 | muting saves the volume and zeroes it; unmuting restores the saved volume; a playing video or audio element follows, and any other element is untouched |
| Monolith.Globals.SliderInput | script.js:420-434 | the volume takes the slider value; it stays muted exactly when it was muted and the value is not above 0; the saved volume is untouched; a playing element follows |
| Monolith.MuteRoundTrip | script.js:392-412 | muting then unmuting restores the volume from before |
| Player.MediaPlayer.constructor | mediaPlayer.js:3-10 | no container and no element; volume 0.1, not muted, and a saved volume of 0.1 |
| Player.MediaPlayer.Init | mediaPlayer.js:12-14 | the player has a container exactly when the element lookup passed in found one |
| Player.MediaPlayer.ShowItem | mediaPlayer.js:16-35 | without a container nothing happens; a video or audio file gets a fresh element of its kind at the current volume; an image leaves no element; any other kind keeps the previous one |
| Player.MediaPlayer.UpdateVolume | mediaPlayer.js:383-388 | the volume is always set, and it reaches the element only when that is a video or audio element |
| Player.MediaPlayer.SetMuted | mediaPlayer.js:390-399 | muting saves the volume and zeroes it; unmuting sets the saved volume, whatever the volume was; the element follows |
| Player.MediaPlayer.GetCurrentMedia | mediaPlayer.js:401-403 | reads the current element without changing anything |
| Player.MediaPlayer.GetGlobalVolume | mediaPlayer.js:405-407 | reads the volume without changing anything |
| Player.MediaPlayer.IsMutedState | mediaPlayer.js:409-411 | reads the mute flag without changing anything |
| Player.MediaPlayer.GetVolumeBeforeMute | mediaPlayer.js:413-415 | reads the saved volume without changing anything |
| Player.MuteThenUnmute | mediaPlayer.js:390-399 | muting then unmuting restores the volume from before |
| Player.MuteTwiceThenUnmute | mediaPlayer.js:390-399 | a second mute saves 0, so the following unmute leaves the volume at 0 |
| Player.SliderUpdateWhileUnmuted | controls.js:96-103 | on an unmuted player the slider handler's `updateVolume(v)`, `setMuted(false)` and the `onVolumeChange` callback's `updateVolume(v)` leave `v` in the player and on a playing element, unmuted, with the saved volume untouched |
| Clock.DigitChar | mediaPlayer.js:248 | a digit below 10 prints as a decimal digit character |
| Clock.NatToString | mediaPlayer.js:248 | `toString` of a whole number is at least one decimal digit, with no leading zero from 10 on and at most two digits below 100 |
| Clock.TwoDigits | mediaPlayer.js:250 | a number below 100 has two decimal digits |
| Clock.PadStart2 | mediaPlayer.js:248-250 | `padStart(2, '0')` gives a text of width two, or the text's own width when that is wider |
| Clock.PadStart2Shape | mediaPlayer.js:248-250 | the padded text ends with the whole original text and has only zeros in front of it |
| Clock.NatToStringValue | mediaPlayer.js:248 | the decimal text of a number reads back as that number |
| Clock.NatToStringLength | mediaPlayer.js:248 | the text has one digit below 10, two below 100, and three or more from 100 on |
| Clock.PadStart2Small | mediaPlayer.js:250 | `padStart(2, '0')` of a number below 100 is its two-digit form |
| Clock.TwoDigitsValue | mediaPlayer.js:250 | a two-digit field reads back as its number |
| Clock.PadStart2Value | mediaPlayer.js:248 | padding keeps the digits' value and keeps any text of two or more digits as it is |
| Clock.FormatTime | mediaPlayer.js:240-252 | the text is at least five characters long with a colon before the two last ones, and NaN prints as "00:00" |
| Clock.FormatTimeShort | mediaPlayer.js:243-251 | under an hour the text is `MM:SS`: the whole minutes and the remaining seconds, two digits each |
| Clock.FormatTimeLong | mediaPlayer.js:243-248 | from an hour on the text is `HH:MM:SS`, and the minute and second fields are below 60 |
| Clock.FormatTimeWideHours | mediaPlayer.js:248 | the text is longer than eight characters exactly when there are 100 hours or more |
| Clock.FormatTimeNaN | mediaPlayer.js:241 | NaN prints as "00:00", the same as zero seconds |
| Clock.ParseShort | mediaPlayer.js:250 | an `MM:SS` text reads back as its minutes and seconds |
| Clock.LongLayout | mediaPlayer.js:248 | where the hour, minute and second fields of `HH:MM:SS` sit, counted from the end |
| Clock.ParseLong | mediaPlayer.js:248 | an `HH:MM:SS` text reads back as the hours, minutes and seconds its fields spell |
| Clock.FormatTimeLongLayout | mediaPlayer.js:243-248 | from an hour on, the formatted fields sit where the reader expects them |
| Clock.Mod60 | mediaPlayer.js:245 | the remainder by 60 is identified by any decomposition with a remainder below 60 |
| Clock.ClockSplit | mediaPlayer.js:243-245 | the hours, minutes and seconds as computed add back up to the input |
| Clock.LongFieldValues | mediaPlayer.js:243-248 | from an hour on, the printed fields are digits and their values add back up to the input |
| Clock.LongRoundTrip | mediaPlayer.js:243-248 | from an hour on, the `HH:MM:SS` text reads back as the input |
| Clock.FormatTimeRoundTrip | mediaPlayer.js:240-252 | for every whole number of seconds, the text reads back as the input, so distinct inputs give distinct texts |

## Left out

- DOM construction and rendering: the body of `showItem` after its guard, the "no items" message, and the `create*Element` and `create*Controls` builders. The one exception is the `currentMedia` bookkeeping of `MediaPlayer.showItem`.
- Monolith.Globals.ApplyFilters: the closing `showItem(currentIndex)` is not called. Its state part stores the current index, which already holds a valid index after the rebuild, and the rest only renders.
- The `currentMedia` assignments inside script.js's `showItem`. They are element construction; the element's volume handling is modelled through `Playable`.
- Timers and callbacks: `setTimeout`, `clearTimeout`, the auto-advance callback, mouse hiding and the video-controls fade. Only the handle field of `startImageTimer`, `clearTimer` and `hasTimer` is modelled.
- `Math.random`: the shuffle picks any position in range, so its contracts hold for every outcome, but nothing is said about uniformity.
- `localeCompare`: collation is an abstract comparator `leq`. Sortedness is proved for any total, transitive one.
- `Array.prototype.sort` works in place on the picked array. The model sorts a value and assigns the result, so aliasing of that array is not captured.
- Catalog.SortByName: modelled as an insertion sort that is stable by construction. Stability, the relative order of items with equal names, is not proved. The engine's sort algorithm is not modelled either.
- Clock.FormatTime: takes whole non-negative seconds. Fractional seconds (which `Math.floor` drops), negative values and Infinity are not modelled; NaN is `None`.
- Volume values: `parseFloat` of the slider text and the 0.05 slider step are not modelled; a volume is a real number that is copied, zeroed and compared with 0.
- The keyboard mapping (`keydown` to callbacks), fullscreen, seeking and play/pause: browser wiring.
- controls.js and app.js: only the step-then-show composition of app.js and the calls controls.js's slider handler makes on the player (with the `onVolumeChange` callback app.js installs) are modelled.
- Filtering.Filter: its contract states the length bound and that kept items pass, by index. Membership in both directions is `FilterMembers`, and counts are `FilterCount`.
- Monolith.Globals.ApplyFilters and Navigator.Navigation.ApplyFilters: the survivor property ("the previously current item, if it passes, is current again") is the lemma `Queue.SurvivorStaysCurrent`. It applies to either method's result, since both ensure `WorkingSetValid` and place the index with `Relocate`.
- Navigator.Navigation.Navigate and Monolith.Globals.Navigate: sequential mode is stated as the `SequentialStep` of the old index; that this is `(index + direction) mod length` for steps of ±1 is the lemma `Queue.SequentialStepIsCircular`.
- Media.MediaItem: `kind` is fixed by the constructor from the MIME type. The MIME prefix tests of the filter and of `showItem` are written as tests of `kind`; `Media.Classify` states that they agree.
