/** The weekly-schedule dialog of one village (src/components/ScheduleDetailModal.tsx):
    the day labels, the Sunday-last stable ordering of the recurring slots, and the
    choice between the slot list and the "no weekly schedule" notice. */
module ScheduleDetailModal {
  import opened Wrappers

  /** One recurring weekly pickup; `dayOfWeek` is 0 for Sunday .. 6 for Saturday. */
  datatype WeeklySlot = WeeklySlot(dayOfWeek: int, wasteType: string, timeSlot: string)

  /** The fields of a village schedule record that the dialog reads. */
  datatype Schedule = Schedule(villageName: string, ward: string, standardSchedule: seq<WeeklySlot>)

  /** One row of the list: the day badge (absent when the day has no label), the waste
      type and the time slot. */
  datatype SlotRow = SlotRow(dayLabel: Option<string>, wasteType: string, timeSlot: string)

  /** The scrollable body: the empty-schedule notice or the rows in display order. */
  datatype ModalBody = EmptyNotice | SlotRows(rows: seq<SlotRow>)

  /** What the dialog shows: the subtitle "<village> - <ward>" and the body. */
  datatype ModalView = ModalView(subtitle: string, body: ModalBody)

  // ---------------------------------------------------------------------------
  // Day labels

  /** The label table indexed by `dayOfWeek`: "CN" (Sunday), then "Thứ 2" .. "Thứ 7". */
  const DayLabels: seq<string> :=
    ["CN", "Th\U{1EE9} 2", "Th\U{1EE9} 3", "Th\U{1EE9} 4", "Th\U{1EE9} 5", "Th\U{1EE9} 6", "Th\U{1EE9} 7"]

  /** The decimal digit for 0 <= n <= 9. */
  function Digit(n: int): char
    requires 0 <= n <= 9
  {
    (48 + n) as char
  }

  /** The day badge text. Indexing the label array out of its range yields `undefined`
      in the source, modelled as None. */
  function DayName(day: int): (name: Option<string>)
    ensures name.Some? <==> 0 <= day <= 6
    ensures day == 0 ==> name == Some("CN")
    ensures 1 <= day <= 6 ==> name == Some("Th\U{1EE9} " + [Digit(day + 1)])
  {
    DayLabelsShape();
    if 0 <= day < |DayLabels| then Some(DayLabels[day]) else None
  }

  /** The table entries for Monday .. Saturday are "Thứ " and the digit day + 1. */
  lemma DayLabelsShape()
    ensures |DayLabels| == 7 && DayLabels[0] == "CN"
    ensures forall d :: 1 <= d <= 6 ==> DayLabels[d] == "Th\U{1EE9} " + [Digit(d + 1)]
  {
  }

  /** Different valid days get different labels, so a badge identifies its day. */
  lemma DayNameInjective(d1: int, d2: int)
    requires DayName(d1).Some? && DayName(d1) == DayName(d2)
    ensures d1 == d2
  {
  }

  // ---------------------------------------------------------------------------
  // Sunday-last ordering

  /** The display key of a day: Sunday (0) moves to 7, every other day keeps its number. */
  function SortKey(day: int): (key: int)
    ensures day != 0 ==> key == day
    ensures 0 <= day <= 6 ==> 1 <= key <= 7 && (key == 7 <==> day == 0)
  {
    if day == 0 then 7 else day
  }

  /** The sort key of a slot, from its day. */
  function Key(slot: WeeklySlot): (key: int)
    ensures slot.dayOfWeek == 0 ==> key == 7
    ensures slot.dayOfWeek != 0 ==> key == slot.dayOfWeek
    ensures 0 <= slot.dayOfWeek <= 6 ==> 1 <= key <= 7
  {
    SortKey(slot.dayOfWeek)
  }

  /** The comparator `dayA - dayB` handed to `Array.prototype.sort`. */
  function Compare(a: WeeklySlot, b: WeeklySlot): (c: int)
    ensures c < 0 <==> Key(a) < Key(b)
    ensures c == 0 <==> Key(a) == Key(b)
    ensures c > 0 <==> Key(a) > Key(b)
  {
    Key(a) - Key(b)
  }

  /** Inserts `x` in front of the first slot it does not compare greater than. */
  function Insert(x: WeeklySlot, s: seq<WeeklySlot>): (r: seq<WeeklySlot>)
    ensures |r| == |s| + 1
  {
    if s == [] then [x]
    else if Compare(x, s[0]) <= 0 then [x] + s
    else [s[0]] + Insert(x, s[1..])
  }

  /** `sortedSchedule`: a stable sort of a copy of the slots by `Compare`. The input,
      a value, is left as it is. */
  function SortedSchedule(slots: seq<WeeklySlot>): (r: seq<WeeklySlot>)
    ensures |r| == |slots|
  {
    if slots == [] then [] else Insert(slots[0], SortedSchedule(slots[1..]))
  }

  /** The slots are in non-decreasing key order. */
  ghost predicate SortedByKey(s: seq<WeeklySlot>)
  {
    forall i, j :: 0 <= i < j < |s| ==> Key(s[i]) <= Key(s[j])
  }

  /** The subsequence of the slots whose key is `k`, in their order. */
  function WithKey(s: seq<WeeklySlot>, k: int): seq<WeeklySlot>
  {
    if s == [] then [] else (if Key(s[0]) == k then [s[0]] else []) + WithKey(s[1..], k)
  }

  /** `r` is a stable sort of `s`: ordered by key, a permutation, and every group of
      equal keys appears in the order it had in `s`. */
  ghost predicate IsStableSortOf(r: seq<WeeklySlot>, s: seq<WeeklySlot>)
  {
    && SortedByKey(r)
    && multiset(r) == multiset(s)
    && forall k :: WithKey(r, k) == WithKey(s, k)
  }

  lemma {:induction false} WithKeyMembers(s: seq<WeeklySlot>, k: int, x: WeeklySlot)
    requires x in WithKey(s, k)
    ensures x in s && Key(x) == k
  {
    if s != [] {
      if x != s[0] || Key(s[0]) != k {
        WithKeyMembers(s[1..], k, x);
      }
    }
  }

  lemma {:induction false} InsertPermutation(x: WeeklySlot, s: seq<WeeklySlot>)
    ensures multiset(Insert(x, s)) == multiset(s) + multiset{x}
  {
    if s != [] && Compare(x, s[0]) > 0 {
      InsertPermutation(x, s[1..]);
      assert s == [s[0]] + s[1..];
    }
  }

  lemma {:induction false} InsertSorted(x: WeeklySlot, s: seq<WeeklySlot>)
    requires SortedByKey(s)
    ensures SortedByKey(Insert(x, s))
  {
    if s != [] && Compare(x, s[0]) > 0 {
      var t := Insert(x, s[1..]);
      InsertSorted(x, s[1..]);
      InsertPermutation(x, s[1..]);
      forall i | 0 <= i < |t|
        ensures Key(s[0]) <= Key(t[i])
      {
        assert t[i] in multiset(t);
        if t[i] != x {
          var j :| 1 <= j < |s| && s[j] == t[i];
        }
      }
      assert Insert(x, s) == [s[0]] + t;
    }
  }

  /** Inserting `x` adds it at the front of its own key group and leaves every other
      group alone. */
  lemma {:induction false} InsertWithKey(x: WeeklySlot, s: seq<WeeklySlot>, k: int)
    ensures WithKey(Insert(x, s), k) == (if Key(x) == k then [x] else []) + WithKey(s, k)
  {
    if s == [] {
      assert WithKey([x], k) == (if Key(x) == k then [x] else []) + WithKey([], k);
    } else if Compare(x, s[0]) <= 0 {
      assert ([x] + s)[1..] == s;
    } else {
      InsertWithKey(x, s[1..], k);
      assert ([s[0]] + Insert(x, s[1..]))[1..] == Insert(x, s[1..]);
    }
  }

  lemma {:induction false} SortedSchedulePermutation(slots: seq<WeeklySlot>)
    ensures multiset(SortedSchedule(slots)) == multiset(slots)
  {
    if slots != [] {
      SortedSchedulePermutation(slots[1..]);
      InsertPermutation(slots[0], SortedSchedule(slots[1..]));
      assert slots == [slots[0]] + slots[1..];
    }
  }

  lemma {:induction false} SortedScheduleSorted(slots: seq<WeeklySlot>)
    ensures SortedByKey(SortedSchedule(slots))
  {
    if slots != [] {
      SortedScheduleSorted(slots[1..]);
      InsertSorted(slots[0], SortedSchedule(slots[1..]));
    }
  }

  /** Stability: slots with equal keys (e.g. two waste types on the same day) keep
      their relative order. */
  lemma {:induction false} SortedScheduleStable(slots: seq<WeeklySlot>, k: int)
    ensures WithKey(SortedSchedule(slots), k) == WithKey(slots, k)
  {
    if slots != [] {
      SortedScheduleStable(slots[1..], k);
      InsertWithKey(slots[0], SortedSchedule(slots[1..]), k);
    }
  }

  lemma SortedScheduleIsStableSort(slots: seq<WeeklySlot>)
    ensures IsStableSortOf(SortedSchedule(slots), slots)
  {
    SortedScheduleSorted(slots);
    SortedSchedulePermutation(slots);
    forall k ensures WithKey(SortedSchedule(slots), k) == WithKey(slots, k) {
      SortedScheduleStable(slots, k);
    }
  }

  lemma WithKeyHead(s: seq<WeeklySlot>)
    requires s != []
    ensures WithKey(s, Key(s[0])) == [s[0]] + WithKey(s[1..], Key(s[0]))
  {
  }

  /** Two key-sorted sequences with the same key groups are equal. */
  lemma {:induction false} SameGroupsSameSequence(a: seq<WeeklySlot>, b: seq<WeeklySlot>)
    requires SortedByKey(a) && SortedByKey(b)
    requires forall k :: WithKey(a, k) == WithKey(b, k)
    ensures a == b
    decreases |a| + |b|
  {
    if a != [] { WithKeyHead(a); }
    if b != [] { WithKeyHead(b); }
    if a != [] && b != [] {
      var ka, kb := Key(a[0]), Key(b[0]);
      // a's first key occurs in b, so b's first key is no larger; and vice versa
      assert WithKey(a, ka)[0] == a[0];
      WithKeyMembers(b, ka, a[0]);
      assert kb <= ka;
      assert WithKey(b, kb)[0] == b[0];
      WithKeyMembers(a, kb, b[0]);
      assert ka <= kb;
      assert a[0] == b[0];
      forall k ensures WithKey(a[1..], k) == WithKey(b[1..], k) {
        assert WithKey(a, k) == WithKey(b, k);
        assert WithKey(a, k) == (if ka == k then [a[0]] else []) + WithKey(a[1..], k);
        assert WithKey(b, k) == (if kb == k then [b[0]] else []) + WithKey(b[1..], k);
        if ka == k {
          assert WithKey(a[1..], k) == WithKey(a, k)[1..];
          assert WithKey(b[1..], k) == WithKey(b, k)[1..];
        } else {
          assert WithKey(a[1..], k) == WithKey(a, k);
          assert WithKey(b[1..], k) == WithKey(b, k);
        }
      }
      SameGroupsSameSequence(a[1..], b[1..]);
      assert a == [a[0]] + a[1..] && b == [b[0]] + b[1..];
    }
  }

  /** The stable sort is unique, so `SortedSchedule` is THE stable sort of its input. */
  lemma StableSortUnique(slots: seq<WeeklySlot>, r: seq<WeeklySlot>)
    requires IsStableSortOf(r, slots)
    ensures r == SortedSchedule(slots)
  {
    SortedScheduleIsStableSort(slots);
    SameGroupsSameSequence(r, SortedSchedule(slots));
  }

  /** For valid days, a slot whose day comes earlier in the Monday-first week is
      listed before a slot of a later day; in particular every Monday slot comes first
      and every Sunday slot comes after every other slot. */
  lemma DayOrder(slots: seq<WeeklySlot>)
    ensures forall i, j |
      && 0 <= i < |SortedSchedule(slots)| && 0 <= j < |SortedSchedule(slots)|
      && SortKey(SortedSchedule(slots)[i].dayOfWeek) < SortKey(SortedSchedule(slots)[j].dayOfWeek)
      :: i < j
  {
    SortedScheduleSorted(slots);
  }

  lemma SundayLast(slots: seq<WeeklySlot>)
    ensures forall i, j |
      && 0 <= i < |SortedSchedule(slots)| && 0 <= j < |SortedSchedule(slots)|
      && SortedSchedule(slots)[i].dayOfWeek == 0 && 1 <= SortedSchedule(slots)[j].dayOfWeek <= 6
      :: j < i
  {
    DayOrder(slots);
  }

  // ---------------------------------------------------------------------------
  // The dialog

  /** One list row: the day badge, the waste type and the time slot of the slot. */
  function RowOf(slot: WeeklySlot): (row: SlotRow)
    ensures row.dayLabel == DayName(slot.dayOfWeek)
    ensures row.dayLabel.Some? <==> 0 <= slot.dayOfWeek <= 6
    ensures slot.dayOfWeek == 0 ==> row.dayLabel == Some("CN")
    ensures row.wasteType == slot.wasteType && row.timeSlot == slot.timeSlot
  {
    SlotRow(DayName(slot.dayOfWeek), slot.wasteType, slot.timeSlot)
  }

  /** The dialog for `schedule`; nothing when there is no schedule. */
  function RenderModal(schedule: Option<Schedule>): (view: Option<ModalView>)
    ensures view.None? <==> schedule.None?
    ensures schedule.Some? ==>
      view.value.subtitle == schedule.value.villageName + " - " + schedule.value.ward
    ensures schedule.Some? ==>
      (view.value.body.EmptyNotice? <==> schedule.value.standardSchedule == [])
    ensures schedule.Some? && view.value.body.SlotRows? ==>
      var rows := view.value.body.rows;
      |rows| == |schedule.value.standardSchedule| &&
      forall i :: 0 <= i < |rows| ==> rows[i] == RowOf(SortedSchedule(schedule.value.standardSchedule)[i])
  {
    match schedule
    case None => None
    case Some(s) =>
      var sorted := SortedSchedule(s.standardSchedule);
      var body := if |sorted| == 0 then EmptyNotice
                  else SlotRows(seq(|sorted|, i requires 0 <= i < |sorted| => RowOf(sorted[i])));
      Some(ModalView(s.villageName + " - " + s.ward, body))
  }

  /** In the rendered list, every "CN" row comes after every weekday row. */
  lemma SundayRowsLast(s: Schedule, i: int, j: int)
    requires RenderModal(Some(s)).value.body.SlotRows?
    requires var rows := RenderModal(Some(s)).value.body.rows;
      0 <= i < |rows| && 0 <= j < |rows| &&
      rows[i].dayLabel == Some("CN") && rows[j].dayLabel.Some? && rows[j].dayLabel != Some("CN")
    ensures j < i
  {
    var sorted := SortedSchedule(s.standardSchedule);
    var rows := RenderModal(Some(s)).value.body.rows;
    assert rows[i] == RowOf(sorted[i]) && rows[j] == RowOf(sorted[j]);
    var di, dj := sorted[i].dayOfWeek, sorted[j].dayOfWeek;
    DayNameInjective(di, 0);
    assert 1 <= dj <= 6 && di == 0;
    SundayLast(s.standardSchedule);
    assert 0 <= i < |sorted| && 0 <= j < |sorted| && sorted[i].dayOfWeek == 0 && 1 <= sorted[j].dayOfWeek <= 6;
  }
}
