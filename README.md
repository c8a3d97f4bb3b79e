# Mononote: note store and writing-session flow

Mononote is a timed free-writing app. Before starting, the user picks a
session length. When the session starts, a note is created. While the
countdown runs, the note is saved periodically. When time is up, a final save
is made and a short "you finished" animation plays before the note is shown.

This project models the two parts of the app that hold its logic:

- **The note store** (`store.ts`). It holds the notes, newest first, and one
  settings record (timer duration in seconds and theme). Its actions are
  `addNote`, `updateNote`, `deleteNote`, `updateSettings` and `getNote`.
  - Module `Store` gives each action's new value as a pure function
    (`WithNoteAdded`, `WithNoteUpdated`, `WithoutNote`, `WithSettingsMerged`,
    `FindNote`), with lemmas about those functions.
  - Class `Store.NoteStore` has `notes` and `settings` fields. Each of its
    methods assigns the matching function's result to one field.
- **The writing-session page** (`pages/NoteFlow.tsx`). Class
  `NoteFlow.Session` holds the page state that the source changes step by
  step:
  - the flow state (`PRE_START`, `WRITING`, `COMPLETED`);
  - the planned duration and the remaining time;
  - the buffered title and editor content;
  - the note id;
  - the animation state (`idle`, `starting`, `visible`, `fading`);
  - one "armed" flag per interval (countdown and autosave);
  - whether the page is still mounted;
  - where the router was sent;
  - how many of the completion timeouts are still pending.

  Timer callbacks become event methods:
  - `Tick`: one firing of the one-second countdown interval.
  - `AutosaveTick`: one firing of the autosave interval.
  - `AnimStep`: the next of the three completion timeouts. `finishSession`
    schedules two (50 ms and 2000 ms), and the second schedules the third
    (500 ms more).
  - `Teardown`: the effect cleanups that run on unmount.

  An interval that has been cleared never fires, so a tick whose flag is off
  changes nothing.

  The class invariant `Session.Valid` states the ordering properties:
  - no note exists before the start, and the store is exactly as it was at
    mount until then;
  - while writing, the remaining time is the planned duration minus the ticks
    so far, and it stays at least one;
  - `finishSession` runs at most once, and only on the tick whose number
    equals the planned duration (with the guarded arming; the page as written
    can run it again, see "## Findings");
  - once the animation has left `idle`, neither interval is armed, so no
    store write can follow the final save (again with the guarded arming, see
    "## Findings");
  - the animation passes through `starting`, `visible` and `fading` in that
    order, and only after `fading` does the flow become `COMPLETED`.
- **The countdown label** `m:ss` (module `Clock`) is a pure formatter. It is
  proved to read back to the remaining time.

The identifier generator (`uuidv4`) and the clock (`Date.now`) become the
`newId` and `now` parameters of `StartSession`. `newId` must be non-empty and
must not be used by any note already in the store. The editor's HTML is an
opaque string that `EditContent` replaces.

The page first reads its duration from the settings, so the constructor
requires that duration to be at least 60 seconds. The settings page only ever
writes `val * 60` with `val > 0` (`pages/Settings.tsx:10-15`), and the default
is 300.

## Model

| member | source | states |
|---|---|---|
| `Store.NoteStore.constructor` | store.ts:5-14 | A new store has no notes and the default settings: 300 seconds and the light theme. |
| `Store.NoteStore.AddNote` | store.ts:15 | The notes become the new note followed by the old notes, in order. Settings are untouched. |
| `Store.WithNoteAdded` | store.ts:15 | The length grows by one, the new note is at index 0, and old note `i` is now at index `i + 1`. |
| `Store.AddThenFind` | store.ts:15-33 | Looking up the id of a note just added returns that note. |
| `Store.AddThenDelete` | store.ts:15-28 | If no note had the id, deleting a just-added note restores the previous notes exactly. |
| `Store.NoteStore.UpdateNote` | store.ts:16-25 | The notes become the updated sequence. Settings are untouched. |
| `Store.WithNoteUpdated` | store.ts:18-24 | The mapped list has exactly as many notes as before. `UpdateFrame` states what each position holds. |
| `Store.UpdateFrame` | store.ts:16-25 | Length and order are kept, and notes with other ids are unchanged. Matching notes get the new content, and get the new title only when one is given. Every note keeps its id, `createdAt`, `durationSeconds` and `isLocked`. |
| `Store.UpdateMissing` | store.ts:18-24 | Updating an id that no note has returns the notes unchanged: no error and no new entry. |
| `Store.UpdateIdempotent` | store.ts:16-25 | Applying the same update twice gives the same notes as applying it once. |
| `Store.UpdateThenFind` | store.ts:16-33 | After an update, looking up the id returns the note found before, with the update applied, or nothing if there was none. |
| `Store.UpdateKeepsOthers` | store.ts:16-33 | An update leaves the lookup of every other id unchanged. |
| `Store.NoteStore.DeleteNote` | store.ts:26-28 | The notes become the filtered sequence. Settings are untouched. |
| `Store.WithoutNote` | store.ts:26-28 | No remaining note has the id, and the list never grows. |
| `Store.DeleteCounts` | store.ts:26-28 | Notes with the id occur zero times afterwards. Every other note keeps exactly as many occurrences as before, so nothing is added or lost. |
| `Store.DeleteThenFind` | store.ts:26-33 | After a delete, looking up the id finds nothing. |
| `Store.DeleteMissing` | store.ts:26-28 | Deleting an id that no note has returns the notes unchanged. |
| `Store.DeleteIdempotent` | store.ts:26-28 | Deleting twice gives the same notes as deleting once. |
| `Store.DeleteKeepsOrder` | store.ts:26-28 | Deleting from a concatenation is the same as deleting from each part and concatenating, so the remaining notes keep their order. |
| `Store.DeleteKeepsOthers` | store.ts:26-33 | A delete leaves the lookup of every other id unchanged. |
| `Store.NoteStore.UpdateSettings` | store.ts:29-32 | Settings become the merge of the old settings and the patch. Notes are untouched. |
| `Store.WithSettingsMerged` | store.ts:29-32 | Each field given in the patch is overwritten, and each absent field keeps its old value. |
| `Store.MergeTouchesOnlyGivenFields` | store.ts:29-32 | A patch with only a theme changes only the theme. A patch with only a duration changes only the duration. An empty patch changes nothing. |
| `Store.MergeIdempotent` | store.ts:29-32 | Merging the same patch twice gives the same settings as merging it once. |
| `Store.NoteStore.GetNote` | store.ts:33 | The result is "not found" exactly when no note has the id. Otherwise it is a stored note with that id. |
| `Store.FindNote` | store.ts:33 | A found note always has the requested id. `FindNoteFirst` states which note is found. |
| `Store.FindNoteFirst` | store.ts:33 | The result is "not found" exactly when no note has the id. Otherwise it is the note at the first position holding the id. |
| `Clock.Decimal` | pages/NoteFlow.tsx:219 | The decimal form of a non-negative number is never empty. `DecimalDigits` and `ValueOfDecimal` state its shape and value. |
| `Clock.DecimalDigits` | pages/NoteFlow.tsx:219 | A non-negative number's decimal form is all digits with no leading zero. It is one character long exactly when the number is below ten. |
| `Clock.PadTwo` | pages/NoteFlow.tsx:219 | The string is padded with leading zeros to length two. The original string is the suffix. |
| `Clock.ValueOfDecimal` | pages/NoteFlow.tsx:217-219 | Reading the digits of `n` back gives `n`. |
| `Clock.LabelReadsBack` | pages/NoteFlow.tsx:217-219 | A label made from minutes and seconds below sixty reads back as minutes times sixty plus seconds. |
| `Clock.TimeStr` | pages/NoteFlow.tsx:217-219 | The label is at least four characters long: the minutes digits, a colon third from the end, then two digits. |
| `Clock.TimeStrFields` | pages/NoteFlow.tsx:217-219 | The label is minutes, then `:`, then exactly two digits. The seconds equal `timeLeft % 60`, so they are at most 59. Minutes times 60 plus seconds equals `timeLeft`. |
| `Clock.TimeStrRoundTrip` | pages/NoteFlow.tsx:217-219 | Parsing the label gives back the remaining time. |
| `Clock.TimeStrInjective` | pages/NoteFlow.tsx:217-219 | Different remaining times always give different labels. |
| `NoteFlow.ClampedDuration` | pages/NoteFlow.tsx:181-186 | The result is never below 60. It is `prev + 60·delta` when that exceeds 60, and 60 otherwise. |
| `NoteFlow.AdjustUpThenDown` | pages/NoteFlow.tsx:181-196 | From any duration of at least 60, pressing `+` then `-` returns to the same duration. |
| `NoteFlow.AdjustDownThenUpForgets` | pages/NoteFlow.tsx:181-196 | Pressing `-` then `+` is not an undo: 120 seconds becomes 360. |
| `NoteFlow.CountdownStep` | pages/NoteFlow.tsx:129-135 | The result is never negative. A tick finishes exactly when the previous value is at most 1, and the value is then 0. From 1 or more, the value drops by exactly one. |
| `NoteFlow.FinishesOnTickD` | pages/NoteFlow.tsx:128-135 | From a duration `d` of at least 1, after `k < d` ticks the remaining time is `d - k`. The tick that finishes is the `d`-th one and no earlier one. |
| `NoteFlow.PhaseWhilePending` | pages/NoteFlow.tsx:110-121 | With 3, 2, 1 or 0 timeouts pending, the animation is at `starting`, `visible`, `fading`, `fading`. It is never `idle`. |
| `NoteFlow.TitleEditDuringAnimationReArms` | pages/NoteFlow.tsx:91-153 | Take a valid, mounted session right after the finishing tick: `WRITING`, remaining time 0, and the store holding the final save. A title edit then re-arms both intervals as written, and the next tick from 0 finishes again. The second save with the edited title changes the stored note. The guarded arming arms nothing in that state. |
| `NoteFlow.ArmedAgreesUntilAnimation` | pages/NoteFlow.tsx:126-153 | Before the animation, the corrected effects match the written ones. Once it has started, they arm nothing. |
| `NoteFlow.Session.constructor` | pages/NoteFlow.tsx:14-31 | At mount: `PRE_START`, and both durations equal the configured one. Title, content and note id are empty, the animation is idle, and no interval is armed. |
| `NoteFlow.Session.AdjustTime` | pages/NoteFlow.tsx:181-186 | Before the start, the planned duration becomes the clamped adjustment, and nothing else changes. |
| `NoteFlow.Session.Cancel` | pages/NoteFlow.tsx:207 | Cancelling before the start routes home, which unmounts the page. No note was created, and the store holds what it held at mount. Starting and adjusting require a mounted page, so no note can follow a cancel. |
| `NoteFlow.Session.StartSession` | pages/NoteFlow.tsx:74-89 | Exactly one note is put at the front of the store: the fresh id, empty title and content, `now`, the planned duration, unlocked. Then the remaining time equals the planned duration, the flow is `WRITING`, and both intervals are armed. |
| `NoteFlow.Session.EditTitle` | pages/NoteFlow.tsx:234-235 | The buffered title changes, and neither interval is armed or disarmed (with the guarded arming; see "## Findings"). |
| `NoteFlow.Session.EditContent` | pages/NoteFlow.tsx:243-248 | Only the buffered editor content changes. |
| `NoteFlow.Session.SaveCurrentState` | pages/NoteFlow.tsx:91-96 | With a note id, the store gets the buffered content and title for that id, and looking up the id shows them. Without an id, the store is unchanged. |
| `NoteFlow.Session.FinishSession` | pages/NoteFlow.tsx:98-123 | Both intervals are cleared. Then exactly one save writes the buffered content and title, and the note is stored with them. Then the animation is at `starting` with three timeouts pending. |
| `NoteFlow.Session.Tick` | pages/NoteFlow.tsx:128-136 | A disarmed tick changes nothing. An armed tick applies `CountdownStep`. A non-final tick writes nothing. The final tick is tick number `sessionDuration` and performs the finish, leaving the animation at `starting` with three timeouts pending. After teardown or after the finish, the store never changes. The animation advances by at most one phase. |
| `NoteFlow.Session.AutosaveTick` | pages/NoteFlow.tsx:144-149 | When armed, the buffered content and title are saved to the note. Otherwise, and always after teardown or the finish, the store is unchanged. |
| `NoteFlow.Session.AnimStep` | pages/NoteFlow.tsx:110-121 | The timeouts move `starting` to `visible`, then `fading`. The last one sets `COMPLETED` and routes to the note, which unmounts the page. After unmount, only the routing happens. The store is never written. |
| `NoteFlow.Session.Teardown` | pages/NoteFlow.tsx:138-152 | Both intervals are disarmed and the page is unmounted. By the invariant, no later tick can write. |
| `NoteFlow.Session.TimerLabel` | pages/NoteFlow.tsx:217-219 | The label shown while writing parses back to the remaining time. |

## Left out

- Durable persistence: the `persist` middleware, its storage key and local
  storage (`store.ts:1-2`, `store.ts:35-37`) are foreign-library I/O. The
  store is modelled in memory only, with no crash or write-through behaviour.
- Duplicate ids: `addNote` does not reject a duplicate id, and neither does
  the model. `StartSession` instead requires a fresh id, standing for what
  `uuidv4` provides.
- Real time: the interval and timeout periods (1000 ms,
  `AUTOSAVE_INTERVAL_MS`, 50/2000/500 ms) are not modelled. Only the order of
  events is. The constant `AUTOSAVE_INTERVAL_MS` lives in a `constants` file
  that is not part of this model, so "one autosave per 30 s of a 60 s
  session" cannot be stated.
- Effect re-subscription during `WRITING`: every title edit makes React
  clear and re-create both intervals, which restarts their periods. Each
  interval is modelled as one armed flag, so the delay this causes to the
  countdown and to autosave is not captured. Re-arming after the finish is
  covered under Findings.
- The mount effect that copies `settings.timerDuration` into the planned
  duration (`pages/NoteFlow.tsx:34-36`) is not modelled. At mount it assigns
  the value the state already has, and settings do not change while the page
  is open.
- Ambient audio (`pages/NoteFlow.tsx:38-64`, `pages/NoteFlow.tsx:103-105`) is
  browser media I/O.
- Title auto-resize, focus handling, `execCommand` formatting and reading
  `innerHTML` (`pages/NoteFlow.tsx:66-72`, `pages/NoteFlow.tsx:156-175`) are
  DOM work. The content is an opaque string.
- The `PRE_START` minutes display (`pages/NoteFlow.tsx:179`) and all JSX
  rendering are not modelled.
- Clock.Decimal: models `toString()` for non-negative integers only. Negative
  remaining time cannot occur, and the exponent notation JavaScript uses from
  10^21 upwards is not modelled.
- The other pages (`Home`, `NoteView`, `Settings`), `App`, `Button` and the
  PDF export are presentation, routing or foreign-library code. They are not
  part of this model.

## Findings

| source | as written | input that shows it | evidently intended | confidence | as-written member | corrected member |
|---|---|---|---|---|---|---|
| pages/NoteFlow.tsx:91-153 | The countdown and autosave effects depend on `finishSession` and `saveCurrentState`, and those change whenever the title changes. The effects arm their intervals whenever the flow is `WRITING`. The flow stays `WRITING` for the whole 2.5 s completion animation. | Let the countdown expire while the title field has focus, then type one title character within 1.5 s of the finish. Both intervals are re-armed. One second later the tick sees a remaining time of 0 and calls `finishSession` again, so the stored note is saved a second time after the final save. The animation jumps back to `starting`, and the note view is navigated to a second time. An edit later than 1.5 s shows nothing: the first finish navigates away 2.5 s after it, and the unmount clears the re-armed interval before it fires. | No interval runs and no store write happens once the final save has been made and the animation has begun. | not executed; medium: relies on keyboard focus staying in the title under the overlay | `NoteFlow.TitleEditDuringAnimationReArms` | `NoteFlow.Session.Tick` |

`NoteFlow.Session` re-arms with the guarded `Armed`: intervals run only while
`WRITING` and before the animation has begun. Its invariant therefore keeps
both intervals disarmed once the final save is made. `Tick`, `AutosaveTick` and
`AnimStep` each ensure that the store is unchanged once `finishes == 1`.
