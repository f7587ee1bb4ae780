# EcoGom client display rules, modelled in Dafny

The EcoGom mobile client shows households when waste is collected and where the
drop-off points are. Today's collection status itself is decided by the backend
(`GET /schedules/today`); the client only decides how to present it. This project
models the two pieces of presentation logic that are real case analyses:

- **The weekly-schedule dialog** (`ScheduleDetailModal`, file
  `schedule_detail_modal.dfy`). A village's recurring weekly slots are copied and
  sorted for display with the key "Sunday (0) becomes 7, every other day keeps its
  number", by `Array.prototype.sort`, which is stable. Each slot gets a day badge
  from the table "CN", "Thứ 2" .. "Thứ 7". An empty slot list shows the "no weekly
  schedule" notice instead of rows. The sort is modelled as a stable insertion sort
  driven by the same comparator `dayA - dayB`. It is specified independently by
  `IsStableSortOf`: ordered by key, a permutation, and with every group of equal keys
  in its original order. `StableSortUnique` shows that this specification has only
  one solution, so the model is exactly the stable sort the source relies on.
- **Today's status card and the map markers** (`HomeScreen`, file
  `home_screen.dfy`). From a `ScheduleResponse` (`WasteTypes`, file
  `waste_types.dfy`) the card derives "special" and "has a truck". It picks one of
  three palettes, with special taking precedence over truck and truck over grey, and
  one of two icons. It shows the time and waste-type badges only when a truck comes,
  and shows the note only when there is one. Drop-off locations store their
  coordinates as `[longitude, latitude]`, the position order of section 3.1.1 of
  RFC 7946 (GeoJSON). The marker swaps the pair into a latitude/longitude
  coordinate.

Both source components are pure for the part modelled here, so the model is made
of datatypes, functions and lemmas. `Wrappers.Option` stands for TypeScript's
optional fields, for `null` and for an `undefined` array lookup.

Three details of the code shape the model:

- The note is shown when `schedule.note` is *truthy*. A note that is present but
  empty (`""`) is therefore not shown (`HomeScreen.NoteShown`).
- `getDayName` on a day outside 0..6 yields `undefined`, modelled as `None`.
- The sort copies its input (`[...schedule.standard_schedule]`). Dafny sequences are
  values, so `SortedSchedule` cannot change its argument.

## Model

| member | source | states |
|---|---|---|
| `ScheduleDetailModal.DayName` | src/components/ScheduleDetailModal.tsx:15 | a label exists exactly for days 0..6; day 0 is "CN"; day d in 1..6 is "Thứ " followed by the digit d+1 |
| `ScheduleDetailModal.DayLabelsShape` | src/components/ScheduleDetailModal.tsx:15 | the label table has seven entries, "CN" first, then "Thứ 2" .. "Thứ 7" in the digit form |
| `ScheduleDetailModal.DayNameInjective` | src/components/ScheduleDetailModal.tsx:15 | two days with the same (defined) label are the same day |
| `ScheduleDetailModal.SortKey` | src/components/ScheduleDetailModal.tsx:18-19 | every day other than Sunday keeps its number; a valid day's key lies in 1..7 and is 7 exactly for Sunday |
| `ScheduleDetailModal.Key` | src/components/ScheduleDetailModal.tsx:18-19 | a Sunday slot gets key 7, any other slot keeps its day number, and a valid day's key lies in 1..7 |
| `ScheduleDetailModal.Compare` | src/components/ScheduleDetailModal.tsx:20 | the comparator is negative, zero or positive exactly when the first key is less than, equal to or greater than the second |
| `ScheduleDetailModal.Insert` | src/components/ScheduleDetailModal.tsx:17-21 | inserting one slot lengthens the sequence by one |
| `ScheduleDetailModal.SortedSchedule` | src/components/ScheduleDetailModal.tsx:17-21 | the sorted copy has as many slots as the input |
| `ScheduleDetailModal.WithKeyMembers` | src/components/ScheduleDetailModal.tsx:17-21 | a key group holds only slots of the input with that key |
| `ScheduleDetailModal.WithKeyHead` | src/components/ScheduleDetailModal.tsx:17-21 | the first slot of a sequence heads its own key group |
| `ScheduleDetailModal.InsertPermutation` | src/components/ScheduleDetailModal.tsx:17-21 | inserting adds exactly that one slot to the multiset |
| `ScheduleDetailModal.InsertSorted` | src/components/ScheduleDetailModal.tsx:17-21 | inserting into a key-sorted sequence keeps it key-sorted |
| `ScheduleDetailModal.InsertWithKey` | src/components/ScheduleDetailModal.tsx:17-21 | the inserted slot goes to the front of its own key group; other groups are unchanged |
| `ScheduleDetailModal.SortedSchedulePermutation` | src/components/ScheduleDetailModal.tsx:17 | the sorted list is a permutation of the input: the same multiset of slots |
| `ScheduleDetailModal.SortedScheduleSorted` | src/components/ScheduleDetailModal.tsx:17-21 | the sorted list is non-decreasing by the Sunday-last key |
| `ScheduleDetailModal.SortedScheduleStable` | src/components/ScheduleDetailModal.tsx:17-21 | slots with equal keys (same day) keep their original relative order |
| `ScheduleDetailModal.SortedScheduleIsStableSort` | src/components/ScheduleDetailModal.tsx:17-21 | the sorted list is a stable sort of the input: sorted, a permutation, and stable |
| `ScheduleDetailModal.SameGroupsSameSequence` | src/components/ScheduleDetailModal.tsx:17-21 | two key-sorted sequences with the same key groups are equal |
| `ScheduleDetailModal.StableSortUnique` | src/components/ScheduleDetailModal.tsx:17-21 | any sequence meeting the stable-sort specification is exactly the modelled sorted list |
| `ScheduleDetailModal.DayOrder` | src/components/ScheduleDetailModal.tsx:17-21 | a slot with a smaller Sunday-last key is always listed before one with a larger key (Monday slots first) |
| `ScheduleDetailModal.SundayLast` | src/components/ScheduleDetailModal.tsx:17-21 | every Sunday slot is listed after every Monday..Saturday slot |
| `ScheduleDetailModal.RenderModal` | src/components/ScheduleDetailModal.tsx:13-56 | no dialog without a schedule; the subtitle is "village - ward"; the empty notice appears exactly when there are no weekly slots; otherwise one row per slot, in sorted order, labelled by day name |
| `ScheduleDetailModal.RowOf` | src/components/ScheduleDetailModal.tsx:43-55 | a row's badge is the day name of its slot, so it exists exactly for days 0..6 ("CN" for Sunday, "Thứ d+1" otherwise), and carries the slot's waste type and time slot |
| `ScheduleDetailModal.SundayRowsLast` | src/components/ScheduleDetailModal.tsx:40-47 | in the rendered list every "CN" row comes after every weekday row |
| `HomeScreen.IsSpecial` | src/screens/HomeScreen.tsx:56-57 | the card is special exactly when the type is SPECIAL, and a special event brings a truck exactly when it is not cancelled |
| `HomeScreen.HasTruck` | src/screens/HomeScreen.tsx:57 | a truck comes exactly when the type is SPECIAL or STANDARD and the response is not cancelled; a cancelled or NONE response never has one |
| `HomeScreen.PaletteFor` | src/screens/HomeScreen.tsx:59-67 | orange exactly for SPECIAL (even when a truck comes), blue exactly for a non-cancelled STANDARD, grey for NONE or a cancelled STANDARD |
| `HomeScreen.IconFor` | src/screens/HomeScreen.tsx:74-77 | the warning icon exactly for SPECIAL, which is exactly the orange palette; otherwise the truck icon |
| `HomeScreen.NoteShown` | src/screens/HomeScreen.tsx:104-108 | the note is shown exactly when it is present and non-empty, and then as sent |
| `HomeScreen.RenderScheduleCard` | src/screens/HomeScreen.tsx:53-108 | no card for a null response; orange exactly for SPECIAL, blue exactly for a non-cancelled STANDARD, grey otherwise; warning icon exactly for SPECIAL; badges exactly when not cancelled and not NONE, carrying the sent time and waste type; the note independent of type and cancellation |
| `HomeScreen.PaletteAgreesWithBadges` | src/screens/HomeScreen.tsx:61-101 | a blue card always shows the time badges, a grey card never does, an orange card does exactly when not cancelled |
| `HomeScreen.StyleDependsOnKindAndCancellation` | src/screens/HomeScreen.tsx:56-77 | the palette, the icon and the presence of badges depend only on the type and the cancellation flag |
| `HomeScreen.ToMapCoordinate` | src/screens/HomeScreen.tsx:144-147 | marker latitude is the second stored coordinate and longitude the first; converting back gives the stored pair |
| `HomeScreen.SwapRoundTrip` | src/screens/HomeScreen.tsx:145-146 | swapping there and back restores the original, in both directions |
| `HomeScreen.MarkerOf` | src/screens/HomeScreen.tsx:142-150 | a marker's latitude is the second stored coordinate, its longitude the first; key, title and description are the id, name and address hint |
| `HomeScreen.Markers` | src/screens/HomeScreen.tsx:141-151 | one marker per location, in order, with the swapped coordinate and the location's id, name and address hint |

## Left out

- Today's status resolution (special event against weekly slot against nothing) runs on the backend behind `GET /schedules/today`. The client has no code for it, so there is nothing to model.
- The ward-to-village grouping for a picker has no code in the client either.
- HTTP through axios, and the error handling that turns a failed request into `[]` or `null` (src/services/api.ts), is network I/O. A `null` response enters the model as `None`.
- React state and effects are not modelled: `useState`, `useEffect`, the 500 ms search debounce, refresh handling. These are UI lifecycle and asynchronous timing.
- Styles, hex colour strings, map region constants and the Leaflet web-view map (src/components/LeafletMap.tsx) are not modelled. The palette is an enumeration, and coordinates are an opaque type parameter; only their order matters.
- The dialog's `visible` flag and close handler are not modelled. They only pass through to the modal widget.
- `day_of_week` is an integer here, so a non-integer day is left out (in the source a finite non-integer day such as 2.5 still sorts between its neighbours and gets no badge). NaN, an undefined day (which becomes NaN) and infinite values are left out too; they make the comparator `dayA - dayB` inconsistent.
- React Native's treatment of a bare empty string rendered by `schedule.note && ...` is not modelled beyond "no note shown".
- The `Schedule` record's type file (`../types/schedule`) is not part of this model. Its fields are taken from their uses in the dialog.
