# Audio-reactive presentation: navigator, loudness and content editing

This project models the two pieces of logic in a browser presentation viewer.
The viewer shows a fixed sequence of slides about a manager and animates a
character from the loudness of a narration track.

- `src/App.tsx` holds the presentation state. It tracks the current slide, the
  gallery sub-index, the play flag and the published loudness. It handles the
  previous/next slide buttons, the slide indicator dots, the gallery buttons
  and the first-pointer-down audio unlock. It also defines `togglePlayPause`,
  whose button is commented out (src/App.tsx:382-402), so nothing calls it;
  the play flag goes from false to true only through the unlock and never
  back. On each
  animation frame it computes one loudness value from the analyser's byte
  spectrum.
- `src/components/SetupPanel.tsx` edits the manager record. One handler sets a
  single field. The others add, update and remove items of the goal, achievement
  and gallery-image lists.

Files:

- `audio_level.dfy` (module `AudioLevel`): the frequency-bin byte type and the
  analyser constants. The fft size is 256, so there are 128 bins: a Web Audio
  `AnalyserNode` has half as many frequency bins as its FFT size. The module
  defines the `reduce` sum, the loudness `sum / bufferLength / 255` as a `real`,
  and lemmas about both.
- `slide_show.dfy` (module `SlideShow`): the slide names and their order, and
  the pure transitions on a `NavState` value. Lemmas cover any sequence of
  button presses. The `Presenter` class has the four state fields and one
  method per event handler, each with a contract that gives the whole new
  state: the navigation handlers follow `Navigate`, `Jump` and
  `BrowseGallery`, and a frame publishes `Loudness`. Whether
  the `<audio>` element is mounted is a constant of the class. A client method
  `Session` walks through the controls using only their contracts; its two
  `TogglePlayPause` steps cannot be reached from the app's UI.
- `setup_panel.dfy` (module `SetupPanel`): the panel's `ManagerData` record. It
  has no `history` field, unlike the record in `App.tsx`. The module defines the
  record spread `Updated`, the positional `filter` and the list operations,
  with their round-trip and idempotence lemmas. The `Panel` class has one
  method per handler. `Replace` is the copy-then-assign step of the update
  handlers, written over an array.

Three behaviours a reader might expect are absent from the code:

- Nothing resets the loudness to 0 on pause or end of playback.
  `TogglePlayPause` leaves `volume` unchanged.
- A dot click never receives a name outside the slide list. `Slide` is a closed
  datatype, so no error case exists.
- The audio graph is not guarded against being built twice: the analysis
  effect builds a new one each time the play flag becomes true. As the code
  stands, the flag becomes true at most once, through the unlock handler, so
  a graph is built at most once. A second build would fail at
  `createMediaElementSource`, which the model, admitting a frame whenever the
  element is mounted and the flag is set, does not record. Graph construction
  is outside the model (see below).

`togglePlayPause` also flips the flag without waiting for `play()` to resolve.
`unlockAudio` treats a missing audio element as success (`audioRef.current?.play()`
gives nothing to await), so it sets the flag to true in that case too.

## Model

| member | source | states |
|---|---|---|
| `AudioLevel.Sum` | src/App.tsx:117 | the `reduce((a, b) => a + b, 0)` left fold; its properties are stated by `SumBounds`, `SumOfConstant`, `SumIncrement` and `SumPositive` |
| `AudioLevel.SumBounds` | src/App.tsx:113-117 | a sum of byte bins lies between 0 and 255 times the number of bins |
| `AudioLevel.SumOfConstant` | src/App.tsx:117 | summing bins that all hold one value gives that value times the bin count |
| `AudioLevel.SumIncrement` | src/App.tsx:117 | raising one bin by one raises the sum by exactly one |
| `AudioLevel.SumPositive` | src/App.tsx:117 | one non-zero byte bin makes the sum positive |
| `AudioLevel.Loudness` | src/App.tsx:115-118 | for any non-empty byte snapshot, the mean magnitude over 255 lies in [0, 1] |
| `AudioLevel.FullScaleIsOne` | src/App.tsx:115-118 | a snapshot whose bins are all 255 gives loudness exactly 1 |
| `AudioLevel.SilenceIsZero` | src/App.tsx:115-118 | loudness is exactly 0 if and only if every bin is 0 |
| `AudioLevel.LoudnessIncrement` | src/App.tsx:115-118 | raising one bin by one raises loudness by exactly 1/(255·n), so loudness is monotone in each bin |
| `SlideShow.IndexOf` | src/App.tsx:146-157 | `slides.indexOf` of any slide is a position in the 7-element list that holds that slide (never -1) |
| `SlideShow.IndexOfSlides` | src/App.tsx:146-157 | the slide names are distinct: the index of the slide at position i is i |
| `SlideShow.Navigate` | src/App.tsx:156-166 | next below the last slide moves to index+1, prev above 0 moves to index-1, both with gallery index 0; at either end the state is unchanged, gallery index included |
| `SlideShow.Jump` | src/App.tsx:423-426 | a dot click shows the target slide with gallery index 0, even when the target is already shown |
| `SlideShow.BrowseGallery` | src/App.tsx:168-175 | the slide is kept; next below count-1 adds one and prev above 0 subtracts one; at either end nothing changes |
| `SlideShow.ApplyKeepsValid` | src/App.tsx:156-175 | every press keeps the gallery index in [0, count-1] (0 for an empty gallery) |
| `SlideShow.RunKeepsValid` | src/App.tsx:156-175 | any sequence of presses keeps the gallery index in [0, count-1] |
| `SlideShow.SlideChangeResetsGallery` | src/App.tsx:156-166 | a press that changes the slide leaves gallery index 0 |
| `SlideShow.NextThenPrev` | src/App.tsx:156-166 | a next step that moved is undone by prev, with the gallery reset |
| `SlideShow.PrevThenNext` | src/App.tsx:156-166 | a prev step that moved is undone by next, with the gallery reset |
| `SlideShow.GalleryNextThenPrev` | src/App.tsx:168-175 | a gallery next step that moved is undone by gallery prev |
| `SlideShow.NextPressesReach` | src/App.tsx:156-161 | n next presses from slide i reach slide min(i+n, 6); the gallery index resets iff some step moved |
| `SlideShow.EverySlideReachable` | src/App.tsx:146-161 | from the initial state ('intro', 0), indexOf(s) next presses reach s with gallery index 0 |
| `SlideShow.Presenter.constructor` | src/App.tsx:27-35 | the initial state: slide 'intro', gallery index 0, not playing, volume 0, with the given gallery and audio element |
| `SlideShow.Presenter.ChangeSlide` | src/App.tsx:156-166 | the handler performs `Navigate` and leaves the play flag and volume alone; the validity invariant is kept |
| `SlideShow.Presenter.ClickDot` | src/App.tsx:423-426 | the dot handler performs `Jump`, with nothing else changed |
| `SlideShow.Presenter.ChangeGalleryImage` | src/App.tsx:168-175 | the handler performs `BrowseGallery` on the manager's gallery and keeps the index in range |
| `SlideShow.Presenter.TogglePlayPause` | src/App.tsx:131-135 | with no audio element nothing changes; otherwise the play flag flips whatever `play()` does; slide, gallery and volume are unchanged |
| `SlideShow.Presenter.UnlockAudio` | src/App.tsx:83-87 | the play flag becomes true when `play()` resolves or there is no element; a rejected `play()` leaves it as it was; nothing is raised |
| `SlideShow.Presenter.DetectVolume` | src/App.tsx:100-118 | a frame runs only with the audio element mounted and the play flag set; it publishes the loudness of the 128-bin snapshot, which lies in [0, 1]; the navigation state is unchanged |
| `SetupPanel.Get` | src/components/SetupPanel.tsx:4-12 | each field holds a value of its declared type |
| `SetupPanel.Updated` | src/components/SetupPanel.tsx:22-25 | the spread record holds the new value at the key and every other field unchanged |
| `SetupPanel.Extensionality` | src/components/SetupPanel.tsx:4-12 | a record is determined by its seven fields |
| `SetupPanel.UpdatedWithOwnValue` | src/components/SetupPanel.tsx:22-25 | writing a field's own value back gives the same record |
| `SetupPanel.UpdatedTwice` | src/components/SetupPanel.tsx:22-25 | two writes to one field equal the last write alone |
| `SetupPanel.WithItems` | src/components/SetupPanel.tsx:37 | replacing one list leaves every other field unchanged |
| `SetupPanel.FilterOut` | src/components/SetupPanel.tsx:43 | the positional `filter((_, i) => i !== index)`, used at lines 43, 63 and 83; specified by `FilterOutDeletes` |
| `SetupPanel.DefaultItem` | src/components/SetupPanel.tsx:27-72 | the appended defaults 'New Goal', 'New Achievement' and '' of lines 30, 50 and 70; what appending it does is stated by `AddItem` |
| `SetupPanel.FilterOutDeletes` | src/components/SetupPanel.tsx:43 | the positional filter deletes exactly element i and keeps the order of the rest; an out-of-range index deletes nothing |
| `SetupPanel.AddItem` | src/components/SetupPanel.tsx:27-32 | the list grows by one, the earlier items are kept, the last item is the default, and the other fields are unchanged |
| `SetupPanel.ReviseItem` | src/components/SetupPanel.tsx:34-38 | same length, item i is the new value, every other item and field unchanged |
| `SetupPanel.RemoveItem` | src/components/SetupPanel.tsx:40-45 | a valid index gives length-1 and the list without item i, in order; an invalid index gives the same record; other fields unchanged |
| `SetupPanel.AddThenRemove` | src/components/SetupPanel.tsx:27-45 | removing at the old length after an add gives back the original record |
| `SetupPanel.ReviseIdempotent` | src/components/SetupPanel.tsx:34-38 | updating item i to v twice equals updating it once |
| `SetupPanel.ReviseThenRemove` | src/components/SetupPanel.tsx:34-45 | removing item i after editing it equals removing it without the edit |
| `SetupPanel.Replace` | src/components/SetupPanel.tsx:35-36 | the array copy with one slot assigned has the same length, the value at i and the original items elsewhere |
| `SetupPanel.Panel.constructor` | src/components/SetupPanel.tsx:19-20 | the panel starts with the given record and no field open for editing |
| `SetupPanel.Panel.HandleUpdate` | src/components/SetupPanel.tsx:22-25 | the record becomes `Updated(record, key, value)` and the edit mode is cleared |
| `SetupPanel.Panel.AddGoal` | src/components/SetupPanel.tsx:27-32 | the record becomes `AddItem` on goals ('New Goal'); the edit mode is unchanged |
| `SetupPanel.Panel.UpdateGoal` | src/components/SetupPanel.tsx:34-38 | the record becomes `ReviseItem` on goals |
| `SetupPanel.Panel.RemoveGoal` | src/components/SetupPanel.tsx:40-45 | the record becomes `RemoveItem` on goals |
| `SetupPanel.Panel.AddAchievement` | src/components/SetupPanel.tsx:47-52 | the record becomes `AddItem` on achievements ('New Achievement') |
| `SetupPanel.Panel.UpdateAchievement` | src/components/SetupPanel.tsx:54-58 | the record becomes `ReviseItem` on achievements |
| `SetupPanel.Panel.RemoveAchievement` | src/components/SetupPanel.tsx:60-65 | the record becomes `RemoveItem` on achievements |
| `SetupPanel.Panel.AddGalleryImage` | src/components/SetupPanel.tsx:67-72 | the record becomes `AddItem` on gallery images (empty URL) |
| `SetupPanel.Panel.UpdateGalleryImage` | src/components/SetupPanel.tsx:74-78 | the record becomes `ReviseItem` on gallery images |
| `SetupPanel.Panel.RemoveGalleryImage` | src/components/SetupPanel.tsx:80-85 | the record becomes `RemoveItem` on gallery images |

## Left out

- Rendering: all JSX, CSS classes and the inline style block are UI only. The disabled state of the buttons is covered because the handlers' own guards make those presses no-ops.
- Audio graph construction (`AudioContext`, `createAnalyser`, `createMediaElementSource`, `fftSize`): these are foreign browser calls. The analyser's byte snapshot is an input to `DetectVolume`.
- The `requestAnimationFrame` loop and its cancellation: this is host scheduling. One frame is modelled by `DetectVolume`, which requires the audio element and the play flag, because the effect starts the loop only then.
- The `play()` and `pause()` calls on the audio element: these are browser I/O. Whether the element is mounted is the `Presenter` constant `audioPresent`; whether `play()` resolves is the `UnlockAudio` parameter `playResolves`.
- The `pointerdown` listener registration and removal: this is DOM plumbing. The handler removes itself once its first `play()` settles, so later presses are ignored; a press while that `play()` is still pending runs it again. `UnlockAudio` may be called any number of times, each with its own `playResolves`, so the model admits every such run but does not record when the listener is gone.
- Video autoplay in `App.tsx`, and the components `ManagerProfile.tsx` and `CharacterVideo.tsx`: these are presentation and media-element wrappers. The video autoplay has no arithmetic. ManagerProfile's only arithmetic is the scale `1 + volume * 0.05`. CharacterVideo clamps `volume` into [0, 1] before handing it to the `<video>` element, and mutes the video when `volume` is 0.
- The cosmetic float mappings such as `scale(1 + volume * 0.1)`: floating point, cosmetic only.
- `SetupPanel.Panel.UpdateGoal`, `UpdateAchievement`, `UpdateGalleryImage`: these require an index inside the list, because the panel calls them only with the index of a rendered item. A JavaScript write past the end of an array, which would grow it, is not modelled.
- The panel's JSX form (inputs, buttons, the list rendering): UI only. It is the reason every update and remove handler receives the index of an existing item.
- `SlideShow.Presenter`: `volume` is a `real`, not an IEEE double. The division is exact, so the rounding of the browser's floating point is not modelled.
- `SlideShow.Presenter.DetectVolume`: same as the audio-graph note above. A frame is admitted after any rise of the play flag, including a second one reached through `TogglePlayPause`. In a browser that second rise would throw at `createMediaElementSource` before any frame runs.
