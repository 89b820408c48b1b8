# Study Signal: a Dafny model of the UI state

Study Signal is a small React study-companion app: a gallery of notebooks, a
freehand drawing canvas per notebook, a simulated "who else is studying" light
map, a simulated ambient-sound player, an API-key form and an attendance stamp
board. This project models the parts that hold state or compute something,
with React, the DOM and the canvas abstracted away, and proves what they
promise.

One module per source file:

- `Shell` (App.tsx): the `App` class holds the four state hooks (open overlay,
  active tab, selected notebook id, notebook list); the base-view choice
  (`ViewOf`), the `find` lookup (`FindIndex`, `FindNotebook`) and the new
  notebook record (`NewNotebook`) are functions. `App.Valid()` is the shell's
  invariant: the list only grows from the seed notebooks, ids are non-empty,
  a set selection names a listed notebook, and `CREATE_NOTEBOOK` is never open.
- `NoteDetail` (components/NoteDetailView.tsx): the drawing surface. The
  canvas context is abstracted to its current path, the visible ink (one point
  list per stroked path) and a flag saying whether the current path is already
  inked. The handlers are pure transitions (`Down`, `Move`, `Stop`, `Clear`,
  `Resize`), and the `NoteCanvas` class's methods are proved against them.
- `SoundPlayer` (components/SoundPlayerModal.tsx): the `Player` class (play
  flag and current track) and the pure rendering conditions.
- `ApiKey` (components/ApiKeyModal.tsx): the `ApiKeyForm` class (input value,
  show/hide flag), the trim-then-save rule and the rendering conditions.
- `LightMap` (components/LightMapModal.tsx): the generator effect as
  imperative code over arrays. The Fisher-Yates shuffle runs in place and is
  proved against a functional specification (`Shuffled`). The message
  assignment is a loop over the selected indices.
- `StampBoard` (components/StampBoard.tsx) and `Constants` (constants.ts):
  the achieved counter, the cells and the seed data.
- `Types` (types.ts), `Wrappers` (an `Option` type and JavaScript truthiness of `string | null`) and `JsText`, which models
  the JavaScript string built-ins the code calls: `Number#toString`,
  `split(c)[0]` and `trim()` with the ECMAScript white-space set.

`Math.random`, `Date.now()` and `new Date()` are parameters ("oracles"). Each
one's precondition is the range the source's expression produces: a shuffle
pick `j` lies in `0..i`, the message-count coin is 0 or 1, a message pick is
below 12.

Behaviour worth knowing:

- A second pointer-down during a stroke starts a fresh path. It is not ignored.
  The earlier path's ink stays on the canvas.
- `stopDrawing` clears `isDrawing` when the canvas exists but has no 2D
  context (components/NoteDetailView.tsx:72-79). Only a missing canvas makes it
  return first.
- Selecting a notebook does not check its id. A dangling id is handled at
  render time: the shell falls back to the gallery. The only selection
  handler is the grid click, and it always passes a listed id.
- JavaScript truthiness is modelled: an empty-string id, key or apiKey counts
  as absent, like `null` (App.tsx:44, components/ApiKeyModal.tsx:16 and 41,
  components/LightMapModal.tsx:23).
- The shell never passes `apiKey` to the light map (App.tsx:179-182), so as
  wired the generator never runs and the open map always asks for a key
  (`Shell.MapAsWired`). The API-key form is not used by the shell.

## Model

| member | source | states |
|---|---|---|
| JsText.DecimalString | App.tsx:29 | `n.toString()` for a natural: a non-empty string of decimal digits, with no leading zero except for 0 |
| JsText.DecimalRoundTrip | App.tsx:29 | parsing the numeral of `n` gives `n` back |
| JsText.DecimalStringInjective | components/LightMapModal.tsx:27 | different numbers have different numerals |
| JsText.BeforeFirst | App.tsx:32 | `s.split(c)[0]` is the longest prefix of `s` free of `c`: a prefix without `c`, followed in `s` by `c` unless it is all of `s` |
| JsText.BeforeFirstUnique | App.tsx:32 | those three facts determine `split(c)[0]` uniquely |
| JsText.Trim | components/ApiKeyModal.tsx:25-26 | `trim()` yields a string that neither starts nor ends with white space and is no longer than the input |
| JsText.TrimSplits | components/ApiKeyModal.tsx:26 | the input is white space, then the trimmed string, then white space |
| JsText.TrimEmptyIff | components/ApiKeyModal.tsx:25 | the trim is empty exactly when the input is all white space |
| JsText.TrimOfTrimmed | components/ApiKeyModal.tsx:26 | a string with no white space at either end is its own trim |
| JsText.TrimIdempotent | components/ApiKeyModal.tsx:26 | trimming twice is trimming once |
| Constants.InitialStamp | constants.ts:18-22 | stamp `i` has id `i + 1`, is achieved iff `i < 3`, and has a date iff achieved |
| Constants.InitialStampsShape | constants.ts:18-22 | ten seed stamps with ids 1..10 in order; exactly the first three achieved and only those dated |
| Constants.InitialStampDates | constants.ts:21 | the three dates are "2023-10-24", "2023-10-25" and "2023-10-26" |
| Constants.InitialNotebooksDistinct | constants.ts:3-16 | two seed notebooks, ids "1" and "2", distinct |
| Constants.SoundTracksDistinct | constants.ts:24-29 | four tracks, the first RAIN, with pairwise distinct types |
| StampBoard.Achieved | components/StampBoard.tsx:18 | the filter keeps only achieved stamps and never more than the list holds |
| StampBoard.AchievedCount | components/StampBoard.tsx:18 | the counter never exceeds the number of stamps |
| StampBoard.AchievedCountIsPositions | components/StampBoard.tsx:18 | the counter equals the number of positions whose stamp is achieved |
| StampBoard.AchievedCountFull | components/StampBoard.tsx:18 | the counter equals the list length iff every stamp is achieved |
| StampBoard.AchievedCountZero | components/StampBoard.tsx:18 | the counter is zero iff no stamp is achieved |
| StampBoard.CellOf | components/StampBoard.tsx:32-41 | an achieved stamp shows a check mark; any other shows its id |
| StampBoard.Render | components/StampBoard.tsx:18-41 | the numerator is the achieved count and the denominator is 10 whatever the list; one cell per stamp, in list order |
| StampBoard.InitialBoard | components/StampBoard.tsx:18 | with the seed stamps the board reads 3 / 10 |
| SoundPlayer.Player.constructor | components/SoundPlayerModal.tsx:12-13 | the player starts paused on the first track, RAIN |
| SoundPlayer.Player.TogglePlay | components/SoundPlayerModal.tsx:61 | play/pause flips the play flag and keeps the track |
| SoundPlayer.Player.SelectTrack | components/SoundPlayerModal.tsx:76-79 | a list click makes that track current and playing, whatever the state was |
| SoundPlayer.Render | components/SoundPlayerModal.tsx:15-96 | closed renders nothing; open shows the current track's name and icon, spins and shows pause iff playing, and lists every track in order |
| SoundPlayer.ExactlyOneHighlighted | components/SoundPlayerModal.tsx:80-84 | entry `j` is highlighted iff it is the current track, so exactly one entry is |
| SoundPlayer.EqualizerOnlyOnCurrentWhilePlaying | components/SoundPlayerModal.tsx:88 | the equalizer shows on entry `j` iff `j` is the current track and the player is playing |
| ApiKey.ApiKeyForm.constructor | components/ApiKeyModal.tsx:12-13 | empty input, key hidden |
| ApiKey.ApiKeyForm.Prefill | components/ApiKeyModal.tsx:15-19 | when open with a non-empty existing key, the input becomes that key; otherwise it stays as it was |
| ApiKey.ApiKeyForm.Edit | components/ApiKeyModal.tsx:61 | typing replaces the input and keeps the show/hide flag |
| ApiKey.ApiKeyForm.ToggleShowKey | components/ApiKeyModal.tsx:68 | show/hide flips the flag and never changes the input |
| ApiKey.ApiKeyForm.Submit | components/ApiKeyModal.tsx:23-28 | saves nothing iff the input is all white space (iff submit is disabled); otherwise saves the trimmed input, which is non-empty and its own trim |
| ApiKey.Render | components/ApiKeyModal.tsx:21-102 | closed renders nothing; the close button shows iff a non-empty key exists; the field is plain text iff shown; submit is disabled iff the input is all white space |
| LightMap.UserId | components/LightMapModal.tsx:27 | every simulated user's id starts with "user-" |
| LightMap.UserIdsDistinct | components/LightMapModal.tsx:27 | different users get different ids |
| LightMap.Range | components/LightMapModal.tsx:34 | the index array starts as 0..n-1 |
| LightMap.Swap | components/LightMapModal.tsx:38 | the destructuring swap exchanges two entries and keeps the rest |
| LightMap.SwapPermutes | components/LightMapModal.tsx:38 | a swap keeps the multiset of entries |
| LightMap.Shuffled | components/LightMapModal.tsx:36-39 | the shuffle keeps the length |
| LightMap.ShuffledPermutes | components/LightMapModal.tsx:36-39 | the shuffle is a permutation of its input for every oracle with picks in 0..i |
| LightMap.ShuffledDistinct | components/LightMapModal.tsx:36-39 | the shuffle keeps distinct entries distinct |
| LightMap.ShuffledRangeIsPermutation | components/LightMapModal.tsx:34-39 | shuffling 0..n-1 gives a permutation of 0..n-1: distinct entries, each a valid index |
| LightMap.ShuffleInPlace | components/LightMapModal.tsx:36-39 | the in-place loop leaves the array equal to the functional shuffle of its old contents |
| LightMap.DistinctCardinality | components/LightMapModal.tsx:42 | a list without repetitions has as many members as entries |
| LightMap.AssignMessages | components/LightMapModal.tsx:45-47 | after the loop a user has a message iff its index was selected, the k-th selected user has the k-th picked message, and ids are untouched |
| LightMap.TaggedCount | components/LightMapModal.tsx:45-47 | as many users carry a message as indices were selected |
| LightMap.GenerateUsers | components/LightMapModal.tsx:26-47 | 20 users "user-0".."user-19" in order; 5 or 6 distinct selected indices in 0..19, the head of the shuffle; exactly those users carry a message, each from the message list |
| LightMap.Render | components/LightMapModal.tsx:52-155 | closed renders nothing; with a key the headline counts users + 1 and the lights and footer show; without a key the headline asks for one and no lights show |
| LightMap.LightMapModal.constructor | components/LightMapModal.tsx:18 | no users at first |
| LightMap.LightMapModal.Refresh | components/LightMapModal.tsx:21-50 | closed or keyless: users unchanged; otherwise 20 users with ids in order, messages from the list, exactly 5 + coin of them tagged |
| NoteDetail.ClientPoint | components/NoteDetailView.tsx:85-91 | a mouse event's position, or a touch event's first touch |
| NoteDetail.LocalPoint | components/NoteDetailView.tsx:81-97 | local coordinates plus the canvas origin give the client coordinates back |
| NoteDetail.Resize | components/NoteDetailView.tsx:25-37 | resizing takes the container size, discards all ink and the path, applies round caps and joins, black, width 2.5, and keeps `isDrawing` |
| NoteDetail.Mounted | components/NoteDetailView.tsx:16-39 | a freshly mounted view is not drawing and has no ink |
| NoteDetail.Down | components/NoteDetailView.tsx:46-58 | a down event keeps the ink invariant (the inked current path is the last stroke) |
| NoteDetail.Move | components/NoteDetailView.tsx:60-70 | a move event keeps the ink invariant; on an empty path it only places the pen and paints nothing |
| NoteDetail.Stop | components/NoteDetailView.tsx:72-79 | a stop event keeps the ink invariant |
| NoteDetail.Clear | components/NoteDetailView.tsx:99-105 | clearing keeps the ink invariant |
| NoteDetail.MoveWhenIdle | components/NoteDetailView.tsx:60-61 | a move with no stroke in progress changes nothing |
| NoteDetail.StopEffect | components/NoteDetailView.tsx:72-79 | a stop with no stroke in progress changes nothing; otherwise it ends the stroke and keeps the ink |
| NoteDetail.DownBeginsPath | components/NoteDetailView.tsx:46-58 | a down event always sets `isDrawing` and begins a one-point path at the pointer, even mid-stroke, drawing nothing yet |
| NoteDetail.ClearErases | components/NoteDetailView.tsx:99-105 | clear leaves no ink, keeps `isDrawing`, and is idempotent |
| NoteDetail.MissingSurfaceIgnored | components/NoteDetailView.tsx:46-105 | without a canvas or context, down, move and clear change nothing; without a canvas stop changes nothing |
| NoteDetail.ClearThenMoveRedrawsPath | components/NoteDetailView.tsx:67-69 | after a clear mid-stroke, the next move redraws the whole current path (nothing when the path is empty) |
| NoteDetail.ResizeMidStroke | components/NoteDetailView.tsx:25-37 | a resize mid-stroke wipes ink and path; the next move only places the pen and the one after draws the segment between them |
| NoteDetail.MovesExtendPath | components/NoteDetailView.tsx:56-69 | after down, each move appends its point; once there is a move the path is the last stroke and earlier ink is unchanged |
| NoteDetail.StrokeSession | components/NoteDetailView.tsx:46-79 | down, moves, up: the ink gains exactly one stroke, the down point then the move points in order (none for a click without movement), and drawing stops |
| NoteDetail.SingleStrokeExample | components/NoteDetailView.tsx:46-79 | down at (10, 10), move to (20, 20), up on a fresh canvas at the origin gives the one stroke [(10, 10), (20, 20)] |
| NoteDetail.NoteCanvas.constructor | components/NoteDetailView.tsx:16-39 | mounting gives the mounted state for the container size |
| NoteDetail.NoteCanvas.ResizeCanvas | components/NoteDetailView.tsx:25-37 | the resize handler's new state is `Resize` of the old |
| NoteDetail.NoteCanvas.StartDrawing | components/NoteDetailView.tsx:46-58 | `startDrawing`'s new state is `Down` of the old |
| NoteDetail.NoteCanvas.Draw | components/NoteDetailView.tsx:60-70 | `draw`'s new state is `Move` of the old |
| NoteDetail.NoteCanvas.StopDrawing | components/NoteDetailView.tsx:72-79 | `stopDrawing`'s new state is `Stop` of the old |
| NoteDetail.NoteCanvas.ClearCanvas | components/NoteDetailView.tsx:99-105 | `clearCanvas`'s new state is `Clear` of the old |
| Shell.FindIndex | App.tsx:37 | the result is the first notebook with the id, or none when no notebook has it |
| Shell.FindIndexAppend | App.tsx:34 | appending a notebook does not move the first match of an id already present |
| Shell.FindNotebook | App.tsx:37 | `find` returns the notebook at the first match, and nothing for a null id or an absent one |
| Shell.ViewOf | App.tsx:44 | the detail view shows iff a non-empty id is selected and some notebook has it, and shows the first such notebook; otherwise the gallery |
| Shell.NewNotebook | App.tsx:28-33 | a new notebook is titled "새로운 과목" with cover "bg-green-200", has the clock's numeral as id, and its date is the timestamp's prefix before the first 'T' |
| Shell.NewNotebookDate | App.tsx:32 | for "2024-03-05T10:20:30.000Z" the date is "2024-03-05" |
| Shell.SharedIdShowsFirst | App.tsx:29-37 | two notebooks sharing an id: selecting the later one shows the earlier one |
| Shell.App.constructor | App.tsx:20-24 | no overlay, tab MY, no selection, the seed notebooks and stamps |
| Shell.App.CreateNotebook | App.tsx:26-35 | appends exactly one notebook at the end, earlier ones unchanged and in order; nothing else changes, nor does the view |
| Shell.App.SelectNotebook | App.tsx:116-121 | a card click selects that card's id, which is listed, so the detail view shows a notebook with that id |
| Shell.App.GoBack | App.tsx:47 | going back clears the selection and the gallery shows |
| Shell.App.ShowTab | App.tsx:62-84 | a tab click sets the tab and nothing else |
| Shell.App.OpenMap | App.tsx:149 | the map becomes the open overlay, replacing any other; nothing else changes |
| Shell.App.OpenSound | App.tsx:165 | the sound player becomes the open overlay, replacing any other; nothing else changes |
| Shell.App.CloseModal | App.tsx:179-187 | either overlay's close leaves no overlay open; nothing else changes |
| Shell.Render | App.tsx:44-187 | the note view shows, alone, iff `ViewOf` gives the detail view; otherwise the gallery shows, where the player button spins iff the player is open, the grid shows the notebooks with the empty hint iff there are none, and the board shows the achieved count over 10; map and player are never open together |
| Shell.ValidShellScreen | App.tsx:44-130 | in a valid shell the note view shows iff a notebook is selected; in the gallery the empty hint never shows and the board reads 3 / 10 |
| Shell.MapAsWired | App.tsx:179-182 | the shell passes no key, so the open map always asks for one and shows no lights |

## Left out

- JSX markup, Tailwind classes, icons, animations and the decorative elements: presentation only.
- The canvas pixels. `stroke()` is modelled as "this point list is visible". `closePath()` is left out: no later stroke draws its closing segment before the next `beginPath()`.
- `getBoundingClientRect`, `offsetWidth`/`offsetHeight` and the window resize listener are inputs (`Rect`, the width and height parameters). Removing the listener on unmount is not modelled.
- Floating-point arithmetic: coordinates are reals, so the subtraction in `getCoordinates` is exact.
- NoteDetail.LocalPoint: a touch event with an empty `touches` list is excluded. Browsers always send at least one touch with touch-start and touch-move, which are the events that call it.
- React scheduling: each handler sees the state the previous one left. Effects run when their dependencies change, as the `Prefill` and `Refresh` method calls.
- Mounting and unmounting the note view on selection changes is not part of `Shell.App`. A newly selected note starts from `NoteDetail.Mounted`, so a revisited note's strokes are gone.
- The light map's `x`, `y` and `isActive` fields: random floating-point placement with no logic behind it.
- `Math.random`, `Date.now()` and `new Date()` are oracle parameters. Nothing is claimed about randomness or distribution, or about id uniqueness (`Shell.SharedIdShowsFirst` shows a collision).
- LightMap.LightMapModal.Refresh: states the user count, the ids in order, message membership and the tagged count. The selected indices and which message each user gets are stated on `LightMap.GenerateUsers`, which it calls.
- The light map's footer text "1,248" and the sidebar quote are literal text. The unused `QUOTES` list is not part of this model.
- The volume and skip buttons of the sound player have no handler, so they have no operation here.
- `onSave` and `onClose` belong to the caller. `Submit` returns the value handed to `onSave`. The local-storage note in the form's text has no code behind it.
- components/NotebookItem.tsx is not part of this model: it only renders a card or the new-notebook tile.
- `CREATE_NOTEBOOK` is declared in `ModalType` but never set; `App.Valid()` records that.
